/** What a room's worker runs of what the bridge sends it, along a run: the channel shows it only
    the latest command, and it forgets the earlier ones. */
module BridgeOrders {
  import opened BridgeState
  import opened BridgeRooms
  import opened BridgeCore
  import opened BridgeSystem
  import opened BridgeRuns

  /** `a` is `b` with some elements left out. */
  ghost predicate Subsequence(a: seq<Command>, b: seq<Command>)
    decreases |b|
  {
    a == [] || (b != [] && ((a[0] == b[0] && Subsequence(a[1..], b[1..])) || Subsequence(a, b[1..])))
  }

  lemma {:induction false} SkipMany(a: seq<Command>, skipped: seq<Command>, b: seq<Command>)
    requires Subsequence(a, b)
    ensures Subsequence(a, skipped + b)
    decreases |skipped|
  {
    if skipped == [] {
      assert skipped + b == b;
    } else {
      SkipMany(a, skipped[1..], b);
      assert (skipped + b)[1..] == skipped[1..] + b;
    }
  }

  lemma TakesOne(unseen: seq<Command>, k: nat, later: seq<Command>, more: seq<Command>)
    requires k < |unseen| && Subsequence(later, unseen[k + 1..] + more)
    ensures Subsequence([unseen[k]] + later, unseen + more)
  {
    var tail := [unseen[k]] + (unseen[k + 1..] + more);
    assert ([unseen[k]] + later)[1..] == later && tail[1..] == unseen[k + 1..] + more;
    assert Subsequence([unseen[k]] + later, tail);
    SkipMany([unseen[k]] + later, unseen[..k], tail);
    assert unseen[..k] + tail == unseen + more;
  }

  lemma Nothing(all: seq<Command>)
    ensures Subsequence([], all)
  {
  }

  /** The commands that a step sends to a room. */
  function SentBy(s: St, t: St, step: Step, zone: ZoneId): seq<Command> {
    if OfWorker(step) || zone !in s.channels || zone !in t.channels
       || |t.channels[zone].unseen| < |s.channels[zone].unseen| then []
    else t.channels[zone].unseen[|s.channels[zone].unseen|..]
  }

  /** The command that the room's worker begins in a step. */
  function RunBy(t: St, step: Step, zone: ZoneId): seq<Command> {
    if step.WorkerMoves? && step.zone == zone && step.move.Looks? && zone in t.channels
       && t.channels[zone].running.Some? then [t.channels[zone].running.value]
    else []
  }

  function SentAlong(e: Env, s: St, steps: seq<Step>, zone: ZoneId): seq<Command>
    requires Possible(e, s, steps)
    decreases |steps|
  {
    if steps == [] then []
    else
      var t := Next(e, s, steps[0]);
      SentBy(s, t, steps[0], zone) + SentAlong(e, t, steps[1..], zone)
  }

  function RunAlong(e: Env, s: St, steps: seq<Step>, zone: ZoneId): seq<Command>
    requires Possible(e, s, steps)
    decreases |steps|
  {
    if steps == [] then []
    else
      var t := Next(e, s, steps[0]);
      RunBy(t, steps[0], zone) + RunAlong(e, t, steps[1..], zone)
  }

  /** A step appends what it sends, or takes a command and drops the earlier ones. */
  predicate Passes(s: St, t: St, step: Step, zone: ZoneId)
    requires zone in s.channels && zone in t.channels
  {
    var a, b := s.channels[zone].unseen, t.channels[zone].unseen;
    if step.WorkerMoves? && step.zone == zone && step.move.Looks? then
      && step.move.index < |a| && b == a[step.move.index + 1..]
      && SentBy(s, t, step, zone) == [] && RunBy(t, step, zone) == [a[step.move.index]]
    else b == a + SentBy(s, t, step, zone) && RunBy(t, step, zone) == []
  }

  lemma StepPasses(e: Env, s: St, step: Step, zone: ZoneId)
    requires ValidEnv(e) && Sound(e, s) && Enabled(e, s, step) && zone in s.channels
    ensures zone in Next(e, s, step).channels && Passes(s, Next(e, s, step), step, zone)
  {
    hide ValidEnv, Sound, AllTurn, FreshStart, Next, Enabled;
    var t := Next(e, s, step);
    if OfWorker(step) {
      WorkerTurns(e, s, step);
      LookRuns(e, s, step, zone);
    } else {
      HandlerTurns(e, s, step);
      assert SentIn(s, zone, s.channels[zone], t.channels[zone]);
    }
  }

  lemma LookRuns(e: Env, s: St, step: Step, zone: ZoneId)
    requires Enabled(e, s, step) && zone in s.channels && zone in Next(e, s, step).channels
    ensures step.WorkerMoves? && step.zone == zone && step.move.Looks? ==>
              && step.move.index < |s.channels[zone].unseen|
              && Next(e, s, step).channels[zone].running == Some(s.channels[zone].unseen[step.move.index])
  {
  }

  /** A worker runs a subsequence of what its room had not seen and is sent, in order. */
  lemma {:induction false} CoalescedInOrder(e: Env, s: St, steps: seq<Step>, zone: ZoneId)
    requires ValidEnv(e) && Sound(e, s) && Possible(e, s, steps) && zone in s.channels
    ensures Subsequence(RunAlong(e, s, steps, zone), s.channels[zone].unseen + SentAlong(e, s, steps, zone))
    decreases |steps|
  {
    hide ValidEnv, Sound, Next, Enabled, Subsequence, SentBy, RunBy;
    if steps == [] {
      Nothing(s.channels[zone].unseen + SentAlong(e, s, steps, zone));
    } else {
      var t := Next(e, s, steps[0]);
      StepSound(e, s, steps[0]);
      StepPasses(e, s, steps[0], zone);
      CoalescedInOrder(e, t, steps[1..], zone);
      var a, more, later := s.channels[zone].unseen, SentAlong(e, t, steps[1..], zone),
          RunAlong(e, t, steps[1..], zone);
      if steps[0].WorkerMoves? && steps[0].zone == zone && steps[0].move.Looks? {
        TakesOne(a, steps[0].move.index, later, more);
        assert SentAlong(e, s, steps, zone) == [] + more == more;
      } else {
        assert a + (SentBy(s, t, steps[0], zone) + more) == t.channels[zone].unseen + more;
        assert [] + later == later;
      }
    }
  }

  lemma LastSuffix(a: seq<Command>, b: seq<Command>)
    requires b != []
    ensures a + b != [] && Last(a + b) == Last(b)
  {
  }

  /** Once a room has nothing unseen, the last command that it ran is the last one it was sent. */
  lemma {:induction false} LastTaken(e: Env, s: St, steps: seq<Step>, zone: ZoneId)
    requires ValidEnv(e) && Sound(e, s) && Possible(e, s, steps) && zone in s.channels
    requires zone in Run(e, s, steps).channels && Run(e, s, steps).channels[zone].unseen == []
    requires s.channels[zone].unseen + SentAlong(e, s, steps, zone) != []
    ensures RunAlong(e, s, steps, zone) != []
    ensures Last(RunAlong(e, s, steps, zone)) == Last(s.channels[zone].unseen + SentAlong(e, s, steps, zone))
    decreases |steps|
  {
    hide ValidEnv, Sound, Next, Enabled, Last, SentBy, RunBy;
    var t := Next(e, s, steps[0]);
    StepSound(e, s, steps[0]);
    StepPasses(e, s, steps[0], zone);
    var a, more, later := s.channels[zone].unseen, SentAlong(e, t, steps[1..], zone), RunAlong(e, t, steps[1..], zone);
    if steps[0].WorkerMoves? && steps[0].zone == zone && steps[0].move.Looks? {
      var k := steps[0].move.index;
      assert SentAlong(e, s, steps, zone) == [] + more == more;
      if a[k + 1..] + more == [] {
        NothingRun(e, t, steps[1..], zone);
      } else {
        LastTaken(e, t, steps[1..], zone);
      }
      LastOfTaken(a, k, later, more);
    } else {
      AppendedTwice(a, SentBy(s, t, steps[0], zone), more);
      assert [] + later == later;
      LastTaken(e, t, steps[1..], zone);
    }
  }

  lemma AppendedTwice(a: seq<Command>, b: seq<Command>, c: seq<Command>)
    ensures a + (b + c) == (a + b) + c
  {
  }

  /** The `k`-th unseen command runs, and what ran later ends like what was still unseen then. */
  lemma LastOfTaken(a: seq<Command>, k: nat, later: seq<Command>, more: seq<Command>)
    requires k < |a|
    requires if a[k + 1..] + more == [] then later == []
             else later != [] && Last(later) == Last(a[k + 1..] + more)
    ensures Last([a[k]] + later) == Last(a + more)
  {
    if a[k + 1..] + more == [] {
      assert a + more == a && k == |a| - 1;
    } else {
      assert a + more == a[..k + 1] + (a[k + 1..] + more);
      LastSuffix(a[..k + 1], a[k + 1..] + more);
      LastSuffix([a[k]], later);
    }
  }

  lemma {:induction false} NothingRun(e: Env, s: St, steps: seq<Step>, zone: ZoneId)
    requires ValidEnv(e) && Sound(e, s) && Possible(e, s, steps) && zone in s.channels
    requires s.channels[zone].unseen + SentAlong(e, s, steps, zone) == []
    ensures RunAlong(e, s, steps, zone) == []
    decreases |steps|
  {
    hide ValidEnv, Sound, Next, Enabled, SentBy, RunBy;
    if steps != [] {
      var t := Next(e, s, steps[0]);
      StepSound(e, s, steps[0]);
      StepPasses(e, s, steps[0], zone);
      NothingRun(e, t, steps[1..], zone);
    }
  }
}
