/** Which cohort a session waits in, and when a cohort starts. */
module BridgeCohorts {
  import opened BridgeState
  import opened BridgeHandlers
  import opened BridgeRooms
  import opened BridgeCore
  import opened BridgeProgress
  import BridgeTheorems

  // ---- Admission ----

  /** The last cohort still takes sessions. */
  predicate Open(q: seq<Cohort>, now: nat) {
    q != [] && now < q[|q| - 1].windowDeadline && now < q[|q| - 1].startDeadline
  }

  /** A session that is admitted waits in the last cohort, at its end, and nowhere else, without a
      stream. That is the last one there was while it is open, or else a new one. Nothing changes
      for others. */
  lemma EnqueueExactly(e: Env, q: seq<Cohort>, id: SessionId, now: nat)
    ensures var r := Enqueue(e, q, id, now);
            && |r| == |q| + (if Open(q, now) then 0 else 1)
            && (!Open(q, now) ==> r[|q|] == Cohort(now + e.window, now + e.deadline, [id], map[]))
            && (var last := r[|r| - 1].sessions; last != [] && last[|last| - 1] == id)
            && (forall i :: 0 <= i < |q| ==>
                  && r[i].windowDeadline == q[i].windowDeadline && r[i].startDeadline == q[i].startDeadline
                  && id !in r[i].prepared && (id in r[i].sessions <==> i == |r| - 1))
            && (forall i, j :: 0 <= i < |q| && j != id ==>
                  && (j in r[i].sessions <==> j in q[i].sessions) && (j in r[i].prepared <==> j in q[i].prepared)
                  && (j in q[i].prepared ==> r[i].prepared[j] == q[i].prepared[j]))
  {
    hide RemoveFromAll, Without;
    var gone := RemoveFromAll(q, id);
    forall i | 0 <= i < |q| ensures gone[i] == RemoveFrom(q[i], id) {
    }
  }

  /** Of two sessions that are admitted one after the other, before the window of the first one's
      new cohort closes, the second one waits with the first. */
  lemma WithinWindow(e: Env, q: seq<Cohort>, a: SessionId, b: SessionId, first: nat, second: nat)
    requires a != b && !Open(q, first) && second < first + e.window && second < first + e.deadline
    ensures var r := Enqueue(e, Enqueue(e, q, a, first), b, second);
            |r| == |q| + 1 && a in r[|q|].sessions && b in r[|q|].sessions
            && r[|q|].windowDeadline == first + e.window && r[|q|].startDeadline == first + e.deadline
  {
    hide Enqueue;
    EnqueueExactly(e, q, a, first);
    EnqueueExactly(e, Enqueue(e, q, a, first), b, second);
  }

  // ---- What a turn of the queue leaves ----

  /** The cohort still waits for a session that wants playback, it holds only such sessions and
      their current streams, and its deadline is to come. */
  ghost predicate StillWaiting(t: St, c: Cohort, now: nat) {
    && (exists id :: id in c.sessions && id !in c.prepared)
    && (forall id :: id in c.sessions ==> id in t.sessions && t.sessions[id].wanted)
    && (forall id :: id in c.prepared ==>
          id in c.sessions && t.sessions[id].generation == c.prepared[id].generation)
    && c.startDeadline > now
  }

  lemma {:induction false} NothingReadyWaits(e: Env, s: St)
    requires ValidEnv(e) && Queue(e, s)
    ensures var t := MaybeStart(e, s, false);
            t.cohorts != [] ==> StillWaiting(t, t.cohorts[0], Now(e, s))
    decreases |s.cohorts|
  {
    hide PlayPrepared, Queue, ShouldStart, Pruned, StillWaiting, ValidEnv;
    if s.cohorts != [] {
      var head := Pruned(s, s.cohorts[0]);
      if head.sessions == [] {
        QueueTail(e, s, s.(cohorts := s.cohorts[1..]));
        NothingReadyWaits(e, s.(cohorts := s.cohorts[1..]));
      } else if ShouldStart(head, Now(e, s), false) {
        var rest := Ticked(s).(cohorts := s.cohorts[1..]);
        var list := StreamsOf(head.sessions, head.prepared);
        var next := PlayPrepared(e, rest, list);
        PlayPreparedTicks(e, rest, list);
        PlayPreparedKeeps(e, rest, list);
        QueueTail(e, s, next);
        NothingReadyWaits(e, next);
        LaterWaiting(e, s, next);
      } else {
        HeadWaiting(e, s);
      }
    }
  }

  lemma LaterWaiting(e: Env, s: St, t: St)
    requires ValidEnv(e) && s.ticks <= t.ticks
    ensures Now(e, s) <= Now(e, t)
    ensures forall u, c :: StillWaiting(u, c, Now(e, t)) ==> StillWaiting(u, c, Now(e, s))
  {
    forall u, c | StillWaiting(u, c, Now(e, t)) ensures StillWaiting(u, c, Now(e, s)) {
    }
  }

  lemma HeadWaiting(e: Env, s: St)
    requires Queue(e, s) && s.cohorts != []
    requires var head := Pruned(s, s.cohorts[0]); head.sessions != [] && !ShouldStart(head, Now(e, s), false)
    ensures var head := Pruned(s, s.cohorts[0]);
            StillWaiting(Ticked(s).(cohorts := [head] + s.cohorts[1..]), head, Now(e, s))
  {
    hide Keep;
    var head := Pruned(s, s.cohorts[0]);
    KeepNoDuplicates(s.cohorts[0].sessions, WantedIds(s));
    BridgeTheorems.FullCohort(head.sessions, head.prepared.Keys);
    assert |head.prepared| == |head.prepared.Keys|;
  }

  /** A cohort at the front whose sessions all have their streams starts with the next turn: each
      of its rooms gets its start. */
  lemma FullCohortStarts(e: Env, s: St, j: SessionId)
    requires ValidEnv(e) && Core(e, s, {}) && Queue(e, s) && s.cohorts != []
    requires forall id :: id in s.cohorts[0].sessions && id in s.sessions && s.sessions[id].wanted ==>
               id in s.cohorts[0].prepared && s.cohorts[0].prepared[id].generation == s.sessions[id].generation
    requires j in s.cohorts[0].sessions && Lives(s, j) && s.sessions[j].wanted
    ensures StartGoes(s, MaybeStart(e, s, false), j)
  {
    hide ValidEnv, Core, Queue, PlayPrepared, HasEntry, StreamsOf, Keep;
    var head := Pruned(s, s.cohorts[0]);
    var rest := Ticked(s).(cohorts := s.cohorts[1..]);
    var list := StreamsOf(head.sessions, head.prepared);
    QueueDistinct(e, s);
    HeadFull(e, s);
    assert j in head.prepared;
    HeadHolds(e, s, {}, j);
    HeadStarts(e, s, {}, head.prepared[j]);
    ReleaseHead(e, s, {});
    PlayPreparedKeeps(e, rest, list);
    TailDistinct(s.cohorts);
    MaybeStartElsewhere(e, PlayPrepared(e, rest, list), false, {}, j);
  }

  lemma HeadFull(e: Env, s: St)
    requires Queue(e, s) && s.cohorts != []
    requires forall id :: id in s.cohorts[0].sessions && id in s.sessions && s.sessions[id].wanted ==>
               id in s.cohorts[0].prepared && s.cohorts[0].prepared[id].generation == s.sessions[id].generation
    ensures var head := Pruned(s, s.cohorts[0]);
            head.sessions != [] ==> ShouldStart(head, Now(e, s), false)
  {
    hide Keep;
    var head := Pruned(s, s.cohorts[0]);
    KeepNoDuplicates(s.cohorts[0].sessions, WantedIds(s));
    BridgeTheorems.FullCohort(head.sessions, head.prepared.Keys);
    assert |head.prepared| == |head.prepared.Keys|;
  }
}
