/**
 * The `GoalTracker` object with its presentation stripped away: the five
 * fields (script.js:3-7) and the operations that update them in place.
 * The current time, the confirmation answer and the stored item are
 * parameters; rendering, notifications and the write to storage are not modelled.
 */
module Tracker {

  import opened Wrappers
  import opened History
  import opened Storage
  import opened GoalInput
  import opened Display

  class GoalTracker {
    var currentScore: int
    var goal: int
    var history: seq<HistoryEntry>   // most recent first
    var wins: int
    var losses: int

    /** The goal is never 0, so the progress ratio is always defined. */
    ghost predicate Valid()
      reads this
    {
      goal != 0
    }

    /** The counters and the score agree with the history. Restoring arbitrary
        stored data can break this, so it is kept, not assumed. */
    ghost predicate Coherent()
      reads this
    {
      Tallied(history, wins, losses) && Chained(currentScore, history)
    }

    /** How far the counters are ahead of the history length: `SetGoal` and `AddScore`
        keep it, a confirmed clear resets it to 0, loading may set it to anything. */
    ghost function Balance(): int
      reads this
    {
      wins + losses - |history|
    }

    /** The percentage and colour class `updateProgressBar` shows for the current
        fields (script.js:119-140); the goal is never 0, so the ratio is defined. */
    function ProgressBar(): (bar: (int, ProgressTier))
      reads this
      requires Valid()
      ensures bar.0 <= 100
      ensures bar.1 == Complete ==> bar.0 == 100
      ensures goal > 0 ==> (bar.1 == Complete <==> currentScore >= goal)
      ensures goal > 0 && currentScore < 0 ==> bar.1 == Low
    {
      (Percent(currentScore, goal), Tier(Progress(currentScore, goal)))
    }

    function State(): TrackerState
      reads this
    {
      TrackerState(currentScore, goal, history, wins, losses)
    }

    /** Start from the defaults, then load what storage holds (script.js:2-10). */
    constructor (saved: Stored)
      ensures Valid()
      ensures State() == Load(saved, Defaults())
      ensures !saved.Parsed? ==> Coherent()
    {
      currentScore := 0;
      goal := 100;
      history := [];
      wins := 0;
      losses := 0;
      new;
      LoadFromStorage(saved);
    }

    /** script.js:258-275. */
    method LoadFromStorage(saved: Stored)
      modifies this
      ensures State() == Load(saved, old(State()))
      ensures old(Valid()) ==> Valid()
      ensures !saved.Parsed? ==> State() == old(State())
    {
      match saved {
        case Parsed(data) =>
          currentScore := OrDefault(data.currentScore, 0);
          goal := OrDefault(data.goal, 100);
          history := if data.history.Some? then data.history.value else [];
          wins := OrDefault(data.wins, 0);
          losses := OrDefault(data.losses, 0);
        case Absent =>
        case Malformed =>
      }
    }

    /** script.js:52-62: a parsed goal above 0 replaces the goal; anything else changes nothing. */
    method SetGoal(input: string) returns (accepted: bool)
      modifies this`goal
      ensures accepted <==> ParseInt(input).Some? && ParseInt(input).value > 0
      ensures accepted ==> goal == ParseInt(input).value && goal > 0
      ensures !accepted ==> goal == old(goal)
      ensures currentScore == old(currentScore) && history == old(history)
      ensures wins == old(wins) && losses == old(losses)
      ensures old(Valid()) ==> Valid()
      ensures old(Coherent()) ==> Coherent()
      ensures Balance() == old(Balance())
    {
      var newGoal := ParseInt(input);
      if newGoal.Some? && newGoal.value > 0 {
        goal := newGoal.value;
        accepted := true;
      } else {
        accepted := false;
      }
    }

    /** script.js:64-83: apply `points` at time `now` and record it in front of the history. */
    method AddScore(points: int, now: int)
      modifies this`currentScore, this`wins, this`losses, this`history
      ensures currentScore == old(currentScore) + points
      ensures points > 0 ==> wins == old(wins) + 1 && losses == old(losses)
      ensures points <= 0 ==> losses == old(losses) + 1 && wins == old(wins)
      ensures history == [HistoryEntry(points, Instant(now), old(currentScore), currentScore)] + old(history)
      ensures goal == old(goal)
      ensures Balance() == old(Balance())
      ensures old(Valid()) ==> Valid()
      ensures old(Coherent()) ==> Coherent()
    {
      var oldScore := currentScore;
      currentScore := currentScore + points;
      if points > 0 {
        wins := wins + 1;
      } else {
        losses := losses + 1;
      }
      var item := HistoryEntry(points, Instant(now), oldScore, currentScore);
      history := [item] + history;
      assert history[1..] == old(history);
    }

    /** script.js:191-202: with the user's confirmation, reset everything but the goal. */
    method ClearHistory(confirmed: bool)
      modifies this`history, this`currentScore, this`wins, this`losses
      ensures confirmed ==> history == [] && currentScore == 0 && wins == 0 && losses == 0
      ensures !confirmed ==> State() == old(State())
      ensures goal == old(goal)
      ensures confirmed ==> Coherent() && Balance() == 0
      ensures old(Valid()) ==> Valid()
      ensures old(Coherent()) ==> Coherent()
    {
      if confirmed {
        history := [];
        currentScore := 0;
        wins := 0;
        losses := 0;
      }
    }
  }

  /** Three +25 steps from the defaults reach 75 of 100: 75 percent, the high tier. */
  method ThreeWinsScenario()
  {
    var t := new GoalTracker(Absent);
    t.AddScore(25, 0);
    t.AddScore(25, 1000);
    t.AddScore(25, 2000);
    assert t.currentScore == 75 && t.wins == 3 && t.losses == 0 && t.goal == 100;
    assert |t.history| == 3 && t.history[0].oldScore == 50 && t.history[0].newScore == 75;
    assert Progress(75, 100) == 0.75;
    TierBands(75, 100);
    assert t.ProgressBar() == (75, High);
  }

  /** With a goal of 50, two +25 steps complete it. */
  method GoalReachedScenario()
  {
    var u := new GoalTracker(Parsed(Snapshot(None, Some(50), None, None, None)));
    u.AddScore(25, 0);
    u.AddScore(25, 0);
    assert u.currentScore == 50 && Remaining(u.currentScore, u.goal) == 0;
    assert u.ProgressBar().1 == Complete;
  }

  /** A loss from 0 goes below zero; only a confirmed clear resets it. */
  method LossAndClearScenario()
  {
    var v := new GoalTracker(Absent);
    v.AddScore(-25, 0);
    assert v.currentScore == -25 && v.losses == 1 && Remaining(v.currentScore, v.goal) == 125;
    v.ClearHistory(false);
    assert v.currentScore == -25;
    v.ClearHistory(true);
    assert v.currentScore == 0 && v.history == [] && v.goal == 100 && v.Coherent();
  }
}
