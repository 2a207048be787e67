# Goal tracker — a verified model of the `GoalTracker` state machine

The goal tracker is a browser page on which the user sets a numeric goal,
records +25 / −25 point events, and watches the current score, the points
remaining, a win/loss count, a coloured progress bar and a timestamped
history, all kept in `localStorage`. This project models the `GoalTracker`
object of `script.js` without its DOM: its five fields (`currentScore`, `goal`,
`history`, `wins`, `losses`), the three operations that change them
(`setGoal`, `addScore`, `clearHistory`), loading and saving the stored
snapshot, and the values the display derives from the state (remaining
points, progress ratio, percentage, tier, relative age of a history entry).

Layout, one module per file:

- `wrappers.dfy` — `Option`.
- `history.dfy` — `History`: timestamps, history entries, and the invariants that
  tie the history to the score (`Chained`) and to the counters (`Tallied`).
- `display.dfy` — `Display`: remaining points, progress ratio, tier and percentage.
  Division is exact over `real`; for a positive goal the tiers are restated over
  integers (`10 * score >= 7 * goal` for "progress ≥ 0.7").
- `relative_time.dfy` — `RelativeTime`: the four buckets of `formatTime`.
- `goal_input.dfy` — `GoalInput`: a decimal `parseInt` and the text a goal is
  written back as.
- `storage.dfy` — `Storage`: the stored snapshot, `value || default` restoration and
  the save/load round trip.
- `tracker.dfy` — `Tracker`: the class `GoalTracker` with `modifies` frames on each
  operation, and three client scenarios verified against the contracts.

Inputs from outside the object are parameters: the wall clock (`now`, in
milliseconds) of `addScore` and `formatTime`, the answer of `confirm()` for
`clearHistory`, the text of the goal field for `setGoal`, and the item read from
storage for the constructor and `LoadFromStorage`.

Three behaviours of the code worth stating:

- `addScore(0)` counts as a loss (`else` branch of script.js:69-73). Nothing
  excludes a zero delta.
- `goal > 0` and `wins + losses == |history|` are not unconditional invariants.
  Loading replaces only falsy values (script.js:263-267), so a stored negative
  goal or inconsistent counters load unchanged. What always holds is
  `goal != 0` (`Valid`), which `ProgressBar` relies on. `SetGoal`, `AddScore`
  and `ClearHistory` preserve the counter and chain invariants (`Coherent`);
  loading may break them. `SetGoal` and `AddScore` keep `Balance`
  (`wins + losses - |history|`), and a confirmed clear resets it to 0.
- Saving and loading is not an identity. `JSON.stringify` turns each `Date`
  into text, so restored entries carry text timestamps (`IsoText`), and a goal
  of 0 would come back as 100.

## Model

| member | source | states |
|---|---|---|
| `History.Frozen` | script.js:251-255 | the stored history keeps length, order, points and scores of every entry; only timestamps become text |
| `History.TalliedBalance` | script.js:69-73 | when the counters agree with the history, `wins + losses` is the history length and neither is negative |
| `History.ChainedScoreIsSum` | script.js:64-83 | in a history built by `addScore` from a cleared state, the current score is the sum of all recorded points |
| `History.ChainedEntries` | script.js:76-83 | every entry has `newScore == oldScore + points`, starts where the older entry ended, and the oldest starts at 0 |
| `History.FrozenKeepsInvariants` | script.js:248-255 | storing leaves the number of wins in the history and the score chain unchanged |
| `History.FrozenIdempotent` | script.js:255 | a second store/restore cycle changes no further timestamp |
| `Display.Remaining` | script.js:108 | remaining points are never negative, are 0 exactly when the score has reached the goal, and otherwise close the gap to the goal |
| `Display.Progress` | script.js:120 | progress is the score/goal ratio capped at 1: at most 1, at most the ratio, and equal to one of them |
| `Display.RoundHalfUp` | script.js:127 | `Math.round` gives the integer within half a unit, halves rounded up |
| `Display.Percent` | script.js:121-127 | the shown percentage never exceeds 100, is exactly 100 on the complete tier, and is not negative for a non-negative score and positive goal |
| `Display.RatioAtLeast` | script.js:132-136 | for a positive goal, ratio ≥ c holds exactly when score ≥ c·goal |
| `Display.TierBands` | script.js:132-140 | for a positive goal: complete iff score ≥ goal; high iff 0.7·goal ≤ score < goal; medium iff 0.4·goal ≤ score < 0.7·goal; low iff score < 0.4·goal |
| `Display.TierMonotone` | script.js:132-140 | for a positive goal, a higher score never gives a lower tier |
| `Display.NegativeScoreIsLow` | script.js:132-140 | for a positive goal, a negative score gives the low tier |
| `RelativeTime.Classify` | script.js:173-188 | age < 1 min (negative ages included) is "just now"; < 1 h gives whole minutes 1..59; < 1 day gives whole hours 1..23, each the floor of the age; older gives the entry's date |
| `RelativeTime.FormatTime` | script.js:169-188 | corrected: classifies the instant of either timestamp form, agreeing with the original on live `Date`s; "just now" exactly for ages below a minute |
| `RelativeTime.RestoredEntryBreaksFormatTime` | script.js:171-182 | an entry that formats while live fails to format once stored and restored |
| `RelativeTime.FormatTimeSurvivesRestore` | script.js:171-182 | with the correction, a restored entry gets the same label as its live original |
| `GoalInput.ParseInt` | script.js:53 | no number results exactly when no digit follows the leading blanks and optional sign |
| `GoalInput.ParseIntToTextThen` | script.js:53 | the plain decimal text of any integer, followed by text that does not start with a digit, parses to that integer: trailing text is ignored |
| `GoalInput.ParseIntToText` | script.js:270 | parsing the text a goal is written back as (script.js:270) gives that goal again |
| `GoalInput.NonNumericTexts` | script.js:53-54 | `"abc"` and `""` parse to no number, so `setGoal` rejects them |
| `GoalInput.ZeroText` | script.js:53-54 | `"0"` parses to 0, which `setGoal` rejects |
| `GoalInput.NegativeText` | script.js:53-54 | `"-5"` parses to −5, which `setGoal` rejects |
| `Storage.Restore` | script.js:263-267 | restoring an object sets each field from the stored one, falling back to 0, 100 or `[]`; the goal is the stored one when non-zero, otherwise 100, and so never 0 |
| `Storage.Load` | script.js:258-275 | a missing or unparseable item changes nothing; loading never makes a non-zero goal 0 |
| `Storage.SaveRestore` | script.js:248-267 | saving then restoring gives back every field, the history in the same order with text timestamps, when the goal is not 0 |
| `Storage.SaveIsStable` | script.js:248-267 | what is saved after a reload is exactly what was saved before it |
| `Storage.RoundTripKeepsInvariants` | script.js:248-267 | a state whose counters and score agree with its history still does after a save and restore |
| `Tracker.GoalTracker.ProgressBar` | script.js:119-140 | the bar for the tracker's own fields shows at most 100 percent, exactly 100 when complete; with a positive goal, complete exactly when the score has reached the goal and low for a negative score |
| `Tracker.GoalTracker.constructor` | script.js:2-10 | the tracker starts from the defaults 0, 100, `[]`, 0, 0 and then loads the stored item; the goal is never 0 |
| `Tracker.GoalTracker.LoadFromStorage` | script.js:258-275 | the new state is the stored snapshot restored field-wise, or the old state when nothing parsable is stored |
| `Tracker.GoalTracker.SetGoal` | script.js:52-62 | accepted exactly when the text parses to a number above 0, which becomes the goal; score, history, wins and losses never change; a rejected text changes nothing |
| `Tracker.GoalTracker.AddScore` | script.js:64-83 | score becomes old + points; wins grows if points > 0, else losses grows, the other stays; one entry `{points, now, old, new}` goes in front of the unchanged old history; goal unchanged; `Balance` and `Coherent` preserved |
| `Tracker.GoalTracker.ClearHistory` | script.js:191-202 | confirmed: history empty and score, wins, losses 0, goal unchanged, counters coherent; unconfirmed: nothing changes |

Definitions the rows above are about. They have no row of their own; the member named beside each states what they mean:

- `Display.Tier` — the tier chain of script.js:132-140 (its meaning is `Display.TierBands`).
- `Storage.Save` — the object `saveToStorage` stores, script.js:248-255, as it reads back
  (its meaning is `Storage.SaveRestore` and `Storage.SaveIsStable`).
- `Storage.Defaults` — the initial field values, script.js:3-7.
- `Storage.OrDefault` — `value || default` on a number, script.js:263-267 (used by `Storage.Restore`).
- `History.Reloaded` — a timestamp after `JSON.stringify` and `JSON.parse`, script.js:255 and
  script.js:262 (used by `History.Frozen`).
- `RelativeTime.FormatTimeAsWritten` — `formatTime` as written, script.js:169-188 (its failure
  is `RelativeTime.RestoredEntryBreaksFormatTime`).

## Findings

| source | as written | input that shows it | evidently intended | confidence | as-written member | corrected member |
|---|---|---|---|---|---|---|
| script.js:169-188, script.js:255, script.js:265 | `formatTime` subtracts the entry's timestamp from `new Date()` and, past a day, calls `date.toLocaleDateString`. After a reload every stored timestamp is a string, so the difference is NaN, every comparison fails, and `toLocaleDateString` is called on a string, which throws a TypeError. `addScore` renders the history before it saves, so after any reload with a non-empty history it throws before `saveToStorage` | a stored history with one entry; reload; press +25 | a restored entry is labelled as its live original was (the timestamp turned back into a `Date`) | high; not executed | `RelativeTime.FormatTimeAsWritten`, `RelativeTime.RestoredEntryBreaksFormatTime` | `RelativeTime.FormatTime`, `RelativeTime.FormatTimeSurvivesRestore` |

## Left out

- Presentation: DOM lookup and event wiring, `updateDisplay`'s text updates, rendering of
  history items (`updateHistory`, `createHistoryItem`), notifications and button animations
  (script.js:15-50, 89-98, 143-167, 204-245, 278-308). They do not change the state.
- The write to `localStorage` after each operation, the JSON text and `console.error` are
  not modelled. A save is the snapshot value `Storage.Save` and a read is a `Stored` value.
  A missing key (`getItem` gives `null`) and the empty string are skipped by `if (saved)`
  and are `Absent`. The stored text `null`, which `JSON.parse` turns into `null`, and text
  `JSON.parse` rejects both throw before any field is assigned, so both are `Malformed`.
  Any other parsed value (an object, or a number, string or array, which has none of the
  fields) is `Parsed`, with each missing field `None`.
- Snapshot fields of the wrong JSON type (a string score, a non-array history) are not
  modelled: numeric fields are integers or missing, a history is a list of entries or missing.
- JavaScript numbers are doubles; the model uses unbounded integers and exact rationals.
  Precision loss above 2^53, an `Infinity` goal from a huge digit string, and double
  rounding of `score / goal`, of `progress * 100` and of the literals 0.7 and 0.4 are not
  captured. For integer goals well below 2^50 the double comparisons agree with the
  exact ones. From 10^21 on, JavaScript writes a number in exponent form (`1e+21`), which
  `parseInt` reads back as 1; `GoalInput.IntToText`, `GoalInput.ParseIntToText` and
  `GoalInput.ParseIntToTextThen` describe
  only the plain decimal form below 10^21.
- `GoalInput.ParseInt`: does not model full `parseInt`. It skips only space, tab,
  newline and carriage return; it ignores the `0x` hexadecimal prefix (`"0x1A"` reads as
  0, not 26); and it has neither `-0` nor `Infinity`. Its contract says when there is no
  number; the value is stated only for the plain decimal text of an integer, alone or
  followed by text that does not start with a digit (`GoalInput.ParseIntToTextThen`).
- The localised text of `toLocaleDateString` and the Russian message strings are not
  modelled, only which bucket is chosen and its number.
- The bar width `${percentage}%` (script.js:124) is not modelled apart from `Percent`.
- `Tracker.GoalTracker.constructor`: the write of the loaded goal into the input field
  (script.js:270) is not modelled as state; `GoalInput.ParseIntToText` states what it
  means for a later `setGoal`.
- The history is unbounded, as in the source; nothing caps it.
