/**
 * `saveToStorage` and `loadFromStorage` (script.js:247-275). The stored text
 * and its JSON encoding are represented by the parsed object they denote: a
 * record whose fields may be missing.
 */
module Storage {

  import opened Wrappers
  import opened History

  /** The five fields of a tracker (script.js:3-7). */
  datatype TrackerState = TrackerState(
    currentScore: int, goal: int, history: seq<HistoryEntry>, wins: int, losses: int)

  /** A parsed snapshot; `None` is a field that is missing or `null`. */
  datatype Snapshot = Snapshot(
    currentScore: Option<int>, goal: Option<int>, history: Option<seq<HistoryEntry>>,
    wins: Option<int>, losses: Option<int>)

  /** What `localStorage.getItem('goalTracker')` yields: no item (or the empty
      string), text that `JSON.parse` rejects or that parses to `null`, or any other
      value, whose missing fields are `None` (a stored number, string or array has
      none of the fields, so it loads the defaults). */
  datatype Stored = Absent | Malformed | Parsed(data: Snapshot)

  /** The initial field values (script.js:3-7). */
  function Defaults(): TrackerState
  {
    TrackerState(0, 100, [], 0, 0)
  }

  /** The object `saveToStorage` serialises, as it reads back: every field present,
      every timestamp turned into its text form (script.js:248-255). */
  function Save(st: TrackerState): Snapshot
  {
    Snapshot(Some(st.currentScore), Some(st.goal), Some(Frozen(st.history)),
             Some(st.wins), Some(st.losses))
  }

  /** `value || default` on a number: a missing field and `0` both give the default. */
  function OrDefault(v: Option<int>, default: int): int
  {
    if v.Some? && v.value != 0 then v.value else default
  }

  /** The fields `loadFromStorage` assigns from a parsed object (script.js:263-267).
      An array is never falsy, so a present history is taken as it is. */
  function Restore(data: Snapshot): (st: TrackerState)
    ensures st.goal != 0
    ensures data.goal.Some? && data.goal.value != 0 ==> st.goal == data.goal.value
    ensures data.goal.None? || data.goal.value == 0 ==> st.goal == 100
    ensures st.currentScore == (if data.currentScore.Some? then data.currentScore.value else 0)
    ensures st.wins == (if data.wins.Some? then data.wins.value else 0)
    ensures st.losses == (if data.losses.Some? then data.losses.value else 0)
    ensures st.history == (if data.history.Some? then data.history.value else [])
  {
    TrackerState(
      OrDefault(data.currentScore, 0),
      OrDefault(data.goal, 100),
      if data.history.Some? then data.history.value else [],
      OrDefault(data.wins, 0),
      OrDefault(data.losses, 0))
  }

  /** `loadFromStorage` on state `current`: only a parsed object changes anything. */
  function Load(saved: Stored, current: TrackerState): (st: TrackerState)
    ensures !saved.Parsed? ==> st == current
    ensures current.goal != 0 ==> st.goal != 0
  {
    if saved.Parsed? then Restore(saved.data) else current
  }

  /** Saving and loading restores every field, with timestamps in their text form,
      as long as the goal is not 0 (which `|| 100` would replace). */
  lemma SaveRestore(st: TrackerState)
    requires st.goal != 0
    ensures Restore(Save(st)) == st.(history := Frozen(st.history))
  {
  }

  /** What is saved after a reload is exactly what was saved before it. */
  lemma SaveIsStable(st: TrackerState)
    requires st.goal != 0
    ensures Save(Restore(Save(st))) == Save(st)
  {
    FrozenIdempotent(st.history);
  }

  /** A state whose counters and chain agree with its history still does after a round trip. */
  lemma RoundTripKeepsInvariants(st: TrackerState)
    requires Tallied(st.history, st.wins, st.losses) && Chained(st.currentScore, st.history)
    ensures var back := Restore(Save(st));
      Tallied(back.history, back.wins, back.losses) && Chained(back.currentScore, back.history)
  {
    FrozenKeepsInvariants(st.currentScore, st.history);
  }
}
