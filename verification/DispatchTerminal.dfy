/**
Exactly one terminal event: where a RunID-bearing call is, over all runs, across
cancel-on-entry, queue drops, turn end, handoff, the coordinator and the dispatcher's fallback.
Everything is stated for one RunID r, which stands for any of them.
*/
module DispatchTerminal {
  import opened Common
  import opened Dispatch
  import Cancel = DispatchCancel
  import Queue = DispatchQueue

  /* ---- How often a RunID occurs in a queue ---- */

  function Occ(queue: seq<Call>, r: RunID): nat {
    if queue == [] then 0 else (if queue[0].runID == r then 1 else 0) + Occ(queue[1..], r)
  }

  lemma {:induction false} OccAppend(queue: seq<Call>, q: Call, r: RunID)
    ensures Occ(queue + [q], r) == Occ(queue, r) + if q.runID == r then 1 else 0
  {
    if queue == [] {
      assert queue + [q] == [q];
      assert Occ([q], r) == (if q.runID == r then 1 else 0) + Occ([q][1..], r);
    } else {
      assert (queue + [q])[1..] == queue[1..] + [q];
      OccAppend(queue[1..], q, r);
    }
  }

  lemma {:induction false} OccIsMembership(queue: seq<Call>, r: RunID)
    requires r != ""
    ensures r in RunIDs(queue) <==> Occ(queue, r) > 0
  {
    if queue != [] {
      OccIsMembership(queue[1..], r);
      assert queue == [queue[0]] + queue[1..];
    }
  }

  lemma OccCons(some: seq<Call>, queue: seq<Call>, r: RunID)
    requires |some| <= 1
    ensures Occ(some + queue, r) == Occ(some, r) + Occ(queue, r)
  {
    if some == [] {
      assert some + queue == queue;
    } else {
      assert (some + queue)[1..] == queue && some[1..] == [];
    }
  }

  /** The handoff's filter keeps or reports each named call, never both. */
  lemma {:induction false} OccFilter(mark: nat, queue: seq<Call>, r: RunID)
    requires r != ""
    ensures Occ(queue, r) == Occ(Survivors(mark, queue), r) + Occ(Drops(mark, queue), r)
  {
    if queue != [] {
      var q, rest := queue[0], queue[1..];
      OccFilter(mark, rest, r);
      var kept := if Judge(mark, q) in {Fold, Keep} then [q] else [];
      var dropped := if Judge(mark, q) in {Report} then [q] else [];
      OccCons(kept, Survivors(mark, rest), r);
      OccCons(dropped, Drops(mark, rest), r);
      assert Occ([q], r) == (if q.runID == r then 1 else 0) + Occ([q][1..], r);
    }
  }

  /* ---- The invariant ---- */

  predicate Alive(f: Frame) {
    f.phase in {Streaming, Released}
  }

  predicate At(s: State, r: RunID, st: Stage) {
    r in s.place && s.place[r] == st
  }

  ghost predicate Fresh(s: State) {
    && (forall id | id in s.pending :: id < s.nextId)
    && (forall t | t in s.frames :: t < s.nextId)
    && (Queue.InHandoff(s.lock) ==> FrameIs(s, s.lock.token, Released))
  }

  ghost predicate PendingHome(s: State, r: RunID) {
    && (forall id | id in s.pending :: s.pending[id].runID == r <==> At(s, r, AtPending(id)))
    && (r in s.place && s.place[r].AtPending? ==> s.place[r].id in s.pending)
  }

  ghost predicate RunHome(s: State, r: RunID) {
    && (forall t | t in s.frames && Alive(s.frames[t]) :: s.frames[t].runID == r <==> At(s, r, AtRun(t)))
    && (r in s.place && s.place[r].AtRun? ==> s.place[r].token in s.frames && Alive(s.frames[s.place[r].token]))
  }

  ghost predicate QueueHome(s: State, r: RunID)
    requires Fresh(s)
  {
    && Occ(s.core.queue, r) == (if At(s, r, AtQueue) then 1 else 0)
    && (s.lock.HandoffNext? && s.lock.next.runID == r <==> At(s, r, AtHandoff))
    && (s.lock.HandoffNext? && s.frames[s.lock.token].runID == r ==> s.lock.owes)
    && (s.lock.HandoffNext? && s.lock.owes ==> s.frames[s.lock.token].runID != "")
    && (s.lock.Draining? ==>
          Occ(s.core.queue, r) == Occ(s.lock.keep, r) + Occ(s.lock.drops, r) + Occ(s.lock.todo, r))
  }

  ghost predicate EventHome(s: State, r: RunID) {
    && (r in s.owed <==> At(s, r, AtOwed))
    && (r in s.hooked <==> At(s, r, AtHook))
    && multiset(s.log)[r] == if At(s, r, Terminated) then 1 else 0
  }

  /** coordinator.run is waiting for r exactly when r's payload will go to its hook. */
  ghost predicate Hooked(s: State, r: RunID) {
    r in s.awaiting <==>
      r in s.place &&
      match s.place[r]
      case AtPending(id) => id in s.pending && s.pending[id].hook
      case AtRun(t) => t in s.frames && s.frames[t].hook
      case AtOwed => r in s.owed && s.owed[r]
      case AtHook => true
      case _ => false
  }

  ghost predicate Inv(s: State, r: RunID) {
    && Fresh(s)
    && PendingHome(s, r) && RunHome(s, r) && QueueHome(s, r) && EventHome(s, r) && Hooked(s, r)
  }

  /** From s to t nothing that concerns r has changed. */
  ghost predicate SameFor(s: State, t: State, r: RunID) {
    && t.nextId >= s.nextId && (forall i | i in s.frames :: i in t.frames && t.frames[i] == s.frames[i])
    && (forall i | i in t.frames :: i in s.frames || (s.nextId <= i < t.nextId && t.frames[i].runID != r))
    && (forall id | id in t.pending ::
          (id in s.pending && t.pending[id] == s.pending[id]) || (s.nextId <= id < t.nextId && t.pending[id].runID != r))
    && (forall id | id in s.pending && s.pending[id].runID == r :: id in t.pending && t.pending[id] == s.pending[id])
    && Occ(t.core.queue, r) == Occ(s.core.queue, r)
    && (t.lock == s.lock || !(Queue.InHandoff(s.lock) || s.lock.Draining? || Queue.InHandoff(t.lock) || t.lock.Draining?))
    && (r in t.place <==> r in s.place) && (r in s.place ==> t.place[r] == s.place[r])
    && (r in t.owed <==> r in s.owed) && (r in s.owed ==> t.owed[r] == s.owed[r])
    && (r in t.hooked <==> r in s.hooked) && (r in t.awaiting <==> r in s.awaiting)
    && multiset(t.log)[r] == multiset(s.log)[r]
  }

  lemma SameForKeeps(s: State, t: State, r: RunID)
    requires Inv(s, r) && SameFor(s, t, r)
    ensures Inv(t, r)
  {
  }

  lemma SubmitOther(s: State, r: RunID, q: RunID, h: nat)
    requires r != "" && r != q && Fresh(s)
    ensures SameFor(s, DoSubmit(s, q, h), r)
  {
  }

  lemma SubmitSelf(s: State, r: RunID, h: nat)
    requires r != "" && Inv(s, r) && r !in s.place
    ensures Inv(DoSubmit(s, r, h), r)
  {
  }

  lemma SubmitKeeps(s: State, r: RunID, q: RunID, h: nat)
    requires r != "" && Inv(s, r) && (q == "" || q !in s.place)
    ensures Inv(DoSubmit(s, q, h), r)
  {
    if q == r {
      SubmitSelf(s, r, h);
    } else {
      SubmitOther(s, r, q, h);
      SameForKeeps(s, DoSubmit(s, q, h), r);
    }
  }

  lemma LogOnce(s: State, q: RunID, r: RunID)
    ensures multiset(Publish(s, q).log)[r] == multiset(s.log)[r] + if q == r then 1 else 0
  {
  }

  lemma PreFailOther(s: State, r: RunID, id: nat, canceled: bool)
    requires r != "" && id in s.pending && s.pending[id].runID != r
    ensures SameFor(s, DoPreFail(s, id, canceled), r)
  {
    LogOnce(Abandon(s, id), s.pending[id].runID, r);
  }

  /** A call that leaves the coordinator before Run, lost or published. */
  lemma PreFailLost(s: State, r: RunID, id: nat)
    requires r != "" && Inv(s, r) && id in s.pending && s.pending[id].runID == r
    ensures var t := Abandon(s, id); Inv(t.(place := t.place[r := Lost]), r)
  {
    assert At(s, r, AtPending(id));
  }

  lemma PreFailPublished(s: State, r: RunID, id: nat)
    requires r != "" && Inv(s, r) && id in s.pending && s.pending[id].runID == r
    ensures Inv(Publish(Abandon(s, id), r), r)
  {
    LogOnce(Abandon(s, id), r, r);
    assert At(s, r, AtPending(id));
  }

  lemma PreFailSelf(s: State, r: RunID, id: nat, canceled: bool)
    requires r != "" && Inv(s, r) && id in s.pending && s.pending[id].runID == r
    ensures Inv(DoPreFail(s, id, canceled), r)
  {
    var t := Abandon(s, id);
    assert Move(t, {r}, Lost) == t.place[r := Lost];
    PreFailLost(s, r, id);
    PreFailPublished(s, r, id);
  }

  /** What committing to terminal events means for r. */
  lemma OweFor(s: State, rs: set<RunID>, hook: bool, r: RunID)
    ensures var t := Owe(s, rs, hook);
            && (r in rs ==> At(t, r, AtOwed) && r in t.owed && t.owed[r] == hook)
            && (r !in rs ==> (r in t.place <==> r in s.place) && (r in s.place ==> t.place[r] == s.place[r])
                             && (r in t.owed <==> r in s.owed) && (r in s.owed ==> t.owed[r] == s.owed[r]))
  {
  }

  lemma CanceledOther(s: State, r: RunID, id: nat)
    requires r != "" && id in s.pending && s.lock == Free && s.pending[id].runID != r
    requires Decide(s.core, s.pending[id].handle) == CancelOnEntry
    ensures SameFor(s, DoEnter(s, id), r)
  {
    OweFor(TakeIn(s, id), Named(s.pending[id].runID), s.pending[id].hook, r);
  }

  lemma CanceledEvents(s: State, r: RunID, id: nat)
    requires r != "" && Inv(s, r) && id in s.pending && s.lock == Free && s.pending[id].runID == r
    requires Decide(s.core, s.pending[id].handle) == CancelOnEntry
    ensures EventHome(DoEnter(s, id), r) && Hooked(DoEnter(s, id), r)
  {
    OweFor(TakeIn(s, id), {r}, s.pending[id].hook, r);
  }

  lemma CanceledSelf(s: State, r: RunID, id: nat)
    requires r != "" && Inv(s, r) && id in s.pending && s.lock == Free && s.pending[id].runID == r
    requires Decide(s.core, s.pending[id].handle) == CancelOnEntry
    ensures Inv(DoEnter(s, id), r)
  {
    OweFor(TakeIn(s, id), {r}, s.pending[id].hook, r);
    CanceledEvents(s, r, id);
  }

  lemma QueuedOther(s: State, r: RunID, id: nat)
    requires r != "" && id in s.pending && s.lock == Free && s.pending[id].runID != r
    requires Decide(s.core, s.pending[id].handle) == Enqueue
    ensures SameFor(s, DoEnter(s, id), r)
  {
    OccAppend(s.core.queue, Call(s.pending[id].runID, s.pending[id].handle), r);
  }

  lemma QueuedSelf(s: State, r: RunID, id: nat)
    requires r != "" && Inv(s, r) && id in s.pending && s.lock == Free && s.pending[id].runID == r
    requires Decide(s.core, s.pending[id].handle) == Enqueue
    ensures Inv(DoEnter(s, id), r)
  {
    OccAppend(s.core.queue, Call(r, s.pending[id].handle), r);
  }

  lemma QueuedEntry(s: State, r: RunID, id: nat)
    requires r != "" && Inv(s, r) && id in s.pending && s.lock == Free
    requires Decide(s.core, s.pending[id].handle) == Enqueue
    ensures Inv(DoEnter(s, id), r)
  {
    if s.pending[id].runID == r {
      QueuedSelf(s, r, id);
    } else {
      QueuedOther(s, r, id);
      SameForKeeps(s, DoEnter(s, id), r);
    }
  }

  lemma ActiveOther(s: State, r: RunID, id: nat)
    requires r != "" && Fresh(s) && id in s.pending && s.lock == Free && s.pending[id].runID != r
    requires Decide(s.core, s.pending[id].handle) == Activate
    ensures SameFor(s, DoEnter(s, id), r)
  {
  }

  lemma ActiveSelf(s: State, r: RunID, id: nat)
    requires r != "" && Inv(s, r) && id in s.pending && s.lock == Free && s.pending[id].runID == r
    requires Decide(s.core, s.pending[id].handle) == Activate
    ensures Inv(DoEnter(s, id), r)
  {
    assert At(s, r, AtPending(id));
  }

  lemma ActiveEntry(s: State, r: RunID, id: nat)
    requires r != "" && Inv(s, r) && id in s.pending && s.lock == Free
    requires Decide(s.core, s.pending[id].handle) == Activate
    ensures Inv(DoEnter(s, id), r)
  {
    if s.pending[id].runID == r {
      ActiveSelf(s, r, id);
    } else {
      ActiveOther(s, r, id);
      SameForKeeps(s, DoEnter(s, id), r);
    }
  }

  lemma CancelClearKeeps(s: State, r: RunID)
    requires r != "" && Inv(s, r) && s.lock == CancelMarked
    ensures Inv(DoCancelClear(s), r)
  {
    OccIsMembership(s.core.queue, r);
  }

  lemma DrainOneKeeps(s: State, r: RunID)
    requires r != "" && Inv(s, r) && s.lock.Draining? && s.lock.todo != []
    ensures Inv(DoDrainOne(s), r)
  {
    OccAppend(s.lock.keep, s.lock.todo[0], r);
    OccAppend(s.lock.drops, s.lock.todo[0], r);
  }

  lemma DrainEndKeeps(s: State, r: RunID)
    requires r != "" && Inv(s, r) && s.lock.Draining? && s.lock.todo == []
    ensures Inv(DoDrainEnd(s), r)
  {
    OccIsMembership(s.lock.drops, r);
  }

  lemma EndTurnEvents(s: State, r: RunID, t: nat, p: Phase)
    requires r != "" && Inv(s, r) && t in s.frames && Alive(s.frames[t]) && p in {Failed, Handed} && s.frames[t].runID == r
    ensures EventHome(EndTurn(s, t, p), r) && Hooked(EndTurn(s, t, p), r)
  {
    assert At(s, r, AtRun(t));
    OweFor(SetPhase(s, t, p), {r}, s.frames[t].hook, r);
  }

  lemma EndTurnSelf(s: State, r: RunID, t: nat, p: Phase)
    requires r != "" && Inv(s, r) && t in s.frames && Alive(s.frames[t]) && p in {Failed, Handed}
    requires (Queue.InHandoff(s.lock) ==> s.lock.token != t) && s.frames[t].runID == r
    ensures Inv(EndTurn(s, t, p), r)
  {
    OweFor(SetPhase(s, t, p), {r}, s.frames[t].hook, r);
    assert At(s, r, AtRun(t));
    EndTurnEvents(s, r, t, p);
  }

  /** The same for a turn of another call, or of none that is waited for. */
  lemma EndTurnOther(s: State, r: RunID, t: nat, p: Phase)
    requires r != "" && Inv(s, r) && t in s.frames && Alive(s.frames[t]) && s.frames[t].runID != r
    requires Queue.InHandoff(s.lock) ==> s.lock.token != t
    ensures Inv(SetPhase(s, t, p), r)
  {
  }

  /** A finished turn owes r's event; nothing else about r changes. */
  lemma EndTurnKeeps(s: State, r: RunID, t: nat, p: Phase)
    requires r != "" && Inv(s, r) && t in s.frames && Alive(s.frames[t]) && p in {Failed, Handed}
    requires Queue.InHandoff(s.lock) ==> s.lock.token != t
    ensures Inv(EndTurn(s, t, p), r)
  {
    if s.frames[t].runID == r {
      EndTurnSelf(s, r, t, p);
    } else {
      EndTurnOther(s, r, t, p);
      OweFor(SetPhase(s, t, p), Named(s.frames[t].runID), s.frames[t].hook, r);
      SameForKeeps(SetPhase(s, t, p), EndTurn(s, t, p), r);
    }
  }

  lemma PhaseKeeps(s: State, r: RunID, t: nat, p: Phase)
    requires r != "" && Inv(s, r) && t in s.frames && Alive(s.frames[t]) == Alive(s.frames[t].(phase := p))
    requires Queue.InHandoff(s.lock) ==> s.lock.token != t
    ensures Inv(SetPhase(s, t, p), r)
  {
  }

  lemma HandoffToNobody(s: State, r: RunID, t: nat)
    requires r != "" && Inv(s, r) && s.lock == Free && FrameIs(s, t, Released)
    requires Survivors(s.core.mark, s.core.queue) == []
    ensures Inv(DoHandoffFilter(s, t), r)
  {
    OccFilter(s.core.mark, s.core.queue, r);
    OccIsMembership(Drops(s.core.mark, s.core.queue), r);
  }

  lemma HandoffQueueHome(s: State, r: RunID, t: nat)
    requires r != "" && Inv(s, r) && s.lock == Free && FrameIs(s, t, Released)
    requires Survivors(s.core.mark, s.core.queue) != []
    ensures var u := DoHandoffFilter(s, t); Fresh(u) && QueueHome(u, r)
  {
    var mark, queue := s.core.mark, s.core.queue;
    OccFilter(mark, queue, r);
    OccIsMembership(Drops(mark, queue), r);
    OccIsMembership(Survivors(mark, queue), r);
    OweFor(s, RunIDs(Drops(mark, queue)), false, r);
  }

  /** After the filter, r is where it was, or owed, or the dequeued call. */
  lemma HandoffMoves(s: State, r: RunID, t: nat)
    requires r != "" && QueueHome'(s, r) && t in s.frames && Survivors(s.core.mark, s.core.queue) != []
    ensures var u := DoHandoffFilter(s, t);
            if r in RunIDs(Drops(s.core.mark, s.core.queue)) then
              At(s, r, AtQueue) && At(u, r, AtOwed) && r in u.owed && !u.owed[r]
            else
              && (r in u.owed <==> r in s.owed) && (r in s.owed ==> u.owed[r] == s.owed[r])
              && (r == Survivors(s.core.mark, s.core.queue)[0].runID ==> At(s, r, AtQueue) && At(u, r, AtHandoff))
              && (r != Survivors(s.core.mark, s.core.queue)[0].runID ==>
                    (r in u.place <==> r in s.place) && (r in s.place ==> u.place[r] == s.place[r]))
  {
    var mark, queue := s.core.mark, s.core.queue;
    OccFilter(mark, queue, r);
    OccIsMembership(Drops(mark, queue), r);
    OccIsMembership(Survivors(mark, queue), r);
    OweFor(s, RunIDs(Drops(mark, queue)), false, r);
  }

  ghost predicate QueueHome'(s: State, r: RunID) {
    Occ(s.core.queue, r) == (if At(s, r, AtQueue) then 1 else 0)
  }

  /** r leaves the queue for another home; everything but its queue entry is as before. */
  lemma LeavesQueue(s: State, u: State, r: RunID)
    requires r != "" && Inv(s, r) && u.pending == s.pending && u.frames == s.frames
    requires u.hooked == s.hooked && u.awaiting == s.awaiting && u.log == s.log
    requires (r in u.place <==> r in s.place)
    requires r in s.place && u.place[r] != s.place[r] ==>
               At(s, r, AtQueue) && (At(u, r, AtHandoff) || (At(u, r, AtOwed) && r in u.owed && !u.owed[r]))
    requires !(At(s, r, AtQueue) && At(u, r, AtOwed)) ==>
               (r in u.owed <==> r in s.owed) && (r in s.owed ==> u.owed[r] == s.owed[r])
    ensures PendingHome(u, r) && RunHome(u, r) && EventHome(u, r) && Hooked(u, r)
  {
  }

  lemma HandoffToNext(s: State, r: RunID, t: nat)
    requires r != "" && Inv(s, r) && s.lock == Free && FrameIs(s, t, Released)
    requires Survivors(s.core.mark, s.core.queue) != []
    ensures Inv(DoHandoffFilter(s, t), r)
  {
    HandoffQueueHome(s, r, t);
    HandoffMoves(s, r, t);
    LeavesQueue(s, DoHandoffFilter(s, t), r);
  }

  lemma HandoffClearKeeps(s: State, r: RunID)
    requires r != "" && Inv(s, r) && s.lock.HandoffRead? && s.lock.token in s.frames
    ensures Inv(DoHandoffClear(s), r)
  {
    var u := s.(core := if s.lock.idle then s.core.(mark := 0) else s.core, lock := Free);
    assert Inv(u, r);
    EndTurnKeeps(u, r, s.lock.token, Handed);
  }

  lemma ReadmitOther(s: State, r: RunID)
    requires r != "" && Inv(s, r) && s.lock.HandoffNext? && s.lock.next.runID != r
    ensures Inv(Readmit(s, s.lock.next), r)
  {
    var u := s.(lock := Free);
    assert Inv(u, r);
    ReadmitSame(u, r, s.lock.next);
    SameForKeeps(u, Readmit(s, s.lock.next), r);
  }

  lemma ReadmitSame(s: State, r: RunID, next: Call)
    requires r != "" && next.runID != r && s.lock == Free && Fresh(s)
    ensures SameFor(s, Readmit(s, next), r)
  {
  }

  lemma ReadmitSelf(s: State, r: RunID)
    requires r != "" && Inv(s, r) && s.lock.HandoffNext? && s.lock.next.runID == r
    ensures Inv(Readmit(s, s.lock.next), r)
  {
    assert At(s, r, AtHandoff);
  }

  lemma ReadmitKeeps(s: State, r: RunID)
    requires r != "" && Inv(s, r) && s.lock.HandoffNext?
    ensures Inv(Readmit(s, s.lock.next), r)
  {
    if s.lock.next.runID == r { ReadmitSelf(s, r); } else { ReadmitOther(s, r); }
  }

  /** The check that decides whether the finished turn publishes for itself never withholds it. */
  lemma HandoffAcceptKeeps(s: State, r: RunID)
    requires r != "" && Inv(s, r) && s.lock.HandoffNext?
    requires s.frames[s.lock.token].runID != "" ==> Inv(s, s.frames[s.lock.token].runID)
    ensures Inv(DoHandoffAccept(s), r)
  {
    ReadmitKeeps(s, r);
    var u, t := Readmit(s, s.lock.next), s.lock.token;
    if s.lock.owes {
      EndTurnKeeps(u, r, t, Handed);
    } else {
      assert s.frames[t].runID == "";
      EndTurnOther(u, r, t, Handed);
    }
  }

  lemma EmitOther(s: State, r: RunID, q: RunID)
    requires r != "" && q in s.owed && q != r
    ensures SameFor(s, DoEmit(s, q), r)
  {
    LogOnce(s.(owed := s.owed - {q}), q, r);
  }

  /** r's event moves on from the frame that owed it. */
  lemma LeavesFrame(s: State, u: State, r: RunID)
    requires Inv(s, r) && r in s.owed
    requires u.pending == s.pending && u.frames == s.frames && u.core == s.core && u.lock == s.lock
    requires u.nextId == s.nextId && r in u.place && u.place[r] in {AtHook, Terminated}
    requires EventHome(u, r) && Hooked(u, r)
    ensures Inv(u, r)
  {
  }

  lemma EmitSelf(s: State, r: RunID)
    requires r != "" && Inv(s, r) && r in s.owed
    ensures Inv(DoEmit(s, r), r)
  {
    LogOnce(s.(owed := s.owed - {r}), r, r);
    Cancel.EmitKeepsControl(s, r);
    LeavesFrame(s, DoEmit(s, r), r);
  }

  /** When coordinator.run returns, its hook has been called: the fallback is never a duplicate. */
  lemma ReturnHasLatest(s: State, r: RunID)
    requires Inv(s, r) && r in s.awaiting && Returned(s, r)
    ensures r in s.hooked
  {
  }

  lemma CoordReturnKeeps(s: State, r: RunID, q: RunID, failed: bool)
    requires r != "" && Inv(s, r) && q in s.awaiting && Returned(s, q)
    ensures Inv(DoCoordReturn(s, q, failed), r)
  {
    LogOnce(s.(awaiting := s.awaiting - {q}, hooked := s.hooked - {q}), q, r);
    if q == r {
      ReturnHasLatest(s, r);
    } else {
      SameForKeeps(s, DoCoordReturn(s, q, failed), r);
    }
  }

  /* ---- Every step, every run ---- */

  lemma LockStepKeeps(s: State, e: Event, r: RunID)
    requires r != "" && Inv(s, r) && Enabled(s, e) && (e.DrainStart? || e.HandoffCount?)
    ensures Inv(Apply(s, e), r)
  {
  }

  lemma HandleStepSame(s: State, e: Event, r: RunID)
    requires Enabled(s, e)
    requires e.Begin? || e.OtherBegin? || e.Refuse? || e.CloseUnentered? || e.EnterClose? || e.EndAccepted?
    ensures SameFor(s, Apply(s, e), r)
  {
  }

  lemma CancelStepSame(s: State, e: Event, r: RunID)
    requires Enabled(s, e) && (e.CancelStart? || e.CancelMark?)
    ensures SameFor(s, Apply(s, e), r)
  {
  }

  lemma AcceptStepKeeps(s: State, e: Event, r: RunID)
    requires r != "" && Inv(s, r) && Enabled(s, e)
    requires e.Begin? || e.OtherBegin? || e.Refuse? || e.CloseUnentered? || e.EnterClose? || e.EndAccepted? ||
             e.CancelStart? || e.CancelMark?
    ensures Inv(Apply(s, e), r)
  {
    var t := Apply(s, e);
    assert SameFor(s, t, r) by {
      if e.CancelStart? || e.CancelMark? { CancelStepSame(s, e, r); } else { HandleStepSame(s, e, r); }
    }
    SameForKeeps(s, t, r);
  }

  lemma QueueStepKeeps(s: State, e: Event, r: RunID)
    requires r != "" && Inv(s, r) && Enabled(s, e)
    requires e.CancelClear? || e.DrainOne? || e.DrainEnd? || e.HandoffFilter? || e.HandoffClear?
    ensures Inv(Apply(s, e), r)
  {
    match e
    case CancelClear => CancelClearKeeps(s, r);
    case DrainOne => DrainOneKeeps(s, r);
    case DrainEnd => DrainEndKeeps(s, r);
    case HandoffClear => HandoffClearKeeps(s, r);
    case HandoffFilter(t) =>
      if Survivors(s.core.mark, s.core.queue) == [] { HandoffToNobody(s, r, t); } else { HandoffToNext(s, r, t); }
  }

  lemma EntryKeeps(s: State, id: nat, r: RunID)
    requires r != "" && Inv(s, r) && id in s.pending && s.lock == Free
    ensures Inv(DoEnter(s, id), r)
  {
    match Decide(s.core, s.pending[id].handle)
    case CancelOnEntry =>
      if s.pending[id].runID == r {
        CanceledSelf(s, r, id);
      } else {
        CanceledOther(s, r, id);
        SameForKeeps(s, DoEnter(s, id), r);
      }
    case Enqueue => QueuedEntry(s, r, id);
    case Activate => ActiveEntry(s, r, id);
  }

  lemma TurnStepKeeps(s: State, e: Event, r: RunID)
    requires r != "" && Inv(s, r) && Enabled(s, e) && (e.TurnFail? || e.TurnRelease? || e.Cleanup?)
    ensures Inv(Apply(s, e), r)
  {
    match e
    case TurnFail(t) => EndTurnKeeps(s, r, t, Failed);
    case TurnRelease(t) =>
      SameForKeeps(s, s.(core := s.core.(active := None)), r);
      PhaseKeeps(s.(core := s.core.(active := None)), r, t, Released);
    case Cleanup(t) =>
      var u := s.(core := s.core.(active := CompareAndDelete(s.core.active, t)));
      SameForKeeps(s, u, r);
      PhaseKeeps(u, r, t, Gone);
  }

  lemma ReportStepKeeps(s: State, e: Event, r: RunID)
    requires r != "" && Inv(s, r) && Enabled(s, e) && (e.Submit? || e.PreFail? || e.Emit? || e.CoordReturn?)
    ensures Inv(Apply(s, e), r)
  {
    match e
    case Submit(q, h) => SubmitKeeps(s, r, q, h);
    case PreFail(id, canceled) =>
      if s.pending[id].runID == r {
        PreFailSelf(s, r, id, canceled);
      } else {
        PreFailOther(s, r, id, canceled);
        SameForKeeps(s, DoPreFail(s, id, canceled), r);
      }
    case Emit(q) =>
      if q == r {
        EmitSelf(s, r);
      } else {
        EmitOther(s, r, q);
        SameForKeeps(s, DoEmit(s, q), r);
      }
    case CoordReturn(q, failed) => CoordReturnKeeps(s, r, q, failed);
  }

  lemma StepKeeps(s: State, e: Event, r: RunID)
    requires r != "" && Inv(s, r) && Enabled(s, e)
    requires e.HandoffAccept? && s.frames[s.lock.token].runID != "" ==> Inv(s, s.frames[s.lock.token].runID)
    ensures Inv(Apply(s, e), r)
  {
    match e
    case DrainStart(_) | HandoffCount => LockStepKeeps(s, e, r);
    case Begin | OtherBegin | Refuse(_) | CloseUnentered(_) | EnterClose | EndAccepted(_) | CancelStart | CancelMark =>
      AcceptStepKeeps(s, e, r);
    case CancelClear | DrainOne | DrainEnd | HandoffFilter(_) | HandoffClear => QueueStepKeeps(s, e, r);
    case EnterRun(id) => EntryKeeps(s, id, r);
    case HandoffAccept => HandoffAcceptKeeps(s, r);
    case TurnFail(_) | TurnRelease(_) | Cleanup(_) => TurnStepKeeps(s, e, r);
    case Submit(_, _) | PreFail(_, _) | Emit(_) | CoordReturn(_, _) => ReportStepKeeps(s, e, r);
  }

  lemma {:induction false} InvAlways(es: seq<Event>, r: RunID)
    requires After(es).Some? && r != ""
    ensures Inv(After(es).value, r)
    decreases |es|
  {
    if es != [] {
      var prev, s, e := es[..|es| - 1], After(es[..|es| - 1]).value, es[|es| - 1];
      InvAlways(prev, r);
      if e.HandoffAccept? && s.frames[s.lock.token].runID != "" {
        InvAlways(prev, s.frames[s.lock.token].runID);
      }
      StepKeeps(s, e, r);
    }
  }

  /* ---- The results ---- */

  function One(b: bool): nat {
    if b then 1 else 0
  }

  ghost predicate InPending(s: State, r: RunID) {
    exists id :: id in s.pending && s.pending[id].runID == r
  }

  ghost predicate InRun(s: State, r: RunID) {
    exists t :: t in s.frames && Alive(s.frames[t]) && s.frames[t].runID == r
  }

  /**
  In every reachable state each submitted RunID is in exactly one place: on its way to Run,
  queued, dequeued, running, owed its event by a frame, in the coordinator's buffer, in the log
  (and there once), or lost before Run. A RunID never submitted is nowhere.
  */
  lemma ExactlyOneHome(s: State, r: RunID)
    requires Reachable(s) && r != ""
    ensures One(InPending(s, r)) + Occ(s.core.queue, r) + One(s.lock.HandoffNext? && s.lock.next.runID == r) +
            One(InRun(s, r)) + One(r in s.owed) + One(r in s.hooked) + multiset(s.log)[r] + One(At(s, r, Lost))
            == One(r in s.place)
  {
    var es :| After(es) == Some(s);
    InvAlways(es, r);
    if r in s.place {
      match s.place[r]
      case AtPending(id) => assert id in s.pending;
      case AtRun(t) => assert t in s.frames;
      case _ =>
    }
  }

  /** Published events are never withdrawn or repeated. */
  lemma AtMostOneEvent(s: State, r: RunID)
    requires Reachable(s) && r != ""
    ensures multiset(s.log)[r] <= 1
    ensures r in s.log <==> At(s, r, Terminated)
  {
    var es :| After(es) == Some(s);
    InvAlways(es, r);
  }

  /** The dispatcher's fallback never fires after Run: coordinator.run has always published first. */
  lemma FallbackIsNeverADuplicate(s: State, r: RunID)
    requires Reachable(s) && r != "" && r in s.awaiting && Returned(s, r)
    ensures DoCoordReturn(s, r, true) == DoCoordReturn(s, r, false)
    ensures DoCoordReturn(s, r, true).log == s.log + [r]
  {
    var es :| After(es) == Some(s);
    InvAlways(es, r);
    ReturnHasLatest(s, r);
  }

  /** Nothing is on its way: no call before Run, none queued, no live turn, no event in transit. */
  ghost predicate Quiescent(s: State) {
    s.pending == map[] && s.core.queue == [] && s.owed == map[] && s.hooked == {} && !s.lock.HandoffNext? &&
    forall t | t in s.frames :: !Alive(s.frames[t])
  }

  /** Once nothing is on its way, every submitted RunID has had its event, unless lost before Run. */
  lemma NobodyLeftWaiting(s: State, r: RunID)
    requires Reachable(s) && Quiescent(s) && r in s.place && r != ""
    ensures multiset(s.log)[r] == 1 || At(s, r, Lost)
  {
    var es :| After(es) == Some(s);
    InvAlways(es, r);
  }

  /* ---- Which RunIDs are submitted, and which are lost ---- */

  /** The step loses r: a failure before Run that nobody reports as an event. */
  predicate Loses(s: State, e: Event, r: RunID) {
    e.PreFail? && e.id in s.pending && s.pending[e.id].runID == r && (e.canceled || s.pending[e.id].handle == 0)
  }

  ghost predicate Accounted(s: State, e: Event, t: State, r: RunID) {
    && (r in t.place <==> r in s.place || (e.Submit? && e.runID == r))
    && (At(t, r, Lost) <==> At(s, r, Lost) || Loses(s, e, r))
  }

  /** r is as submitted and as lost as it was. */
  ghost predicate Kept(s: State, t: State, r: RunID) {
    (r in t.place <==> r in s.place) && (At(t, r, Lost) <==> At(s, r, Lost))
  }

  lemma OweKept(s: State, t: State, rs: set<RunID>, hook: bool, r: RunID)
    requires t.place == s.place && (r in rs ==> r in s.place && s.place[r] != Lost)
    ensures Kept(s, Owe(t, rs, hook), r)
  {
    OweFor(t, rs, hook, r);
  }

  lemma EntryKept(s: State, id: nat, r: RunID)
    requires r != "" && Inv(s, r) && id in s.pending && s.lock == Free
    ensures Kept(s, DoEnter(s, id), r)
  {
    var p := s.pending[id];
    if Decide(s.core, p.handle) == CancelOnEntry {
      OweKept(s, TakeIn(s, id), Named(p.runID), p.hook, r);
    }
  }

  lemma CancelClearKept(s: State, r: RunID)
    requires r != "" && Inv(s, r)
    ensures Kept(s, DoCancelClear(s), r)
  {
    OccIsMembership(s.core.queue, r);
    OweKept(s, s.(core := s.core.(queue := []), lock := Free), RunIDs(s.core.queue), false, r);
  }

  lemma DrainEndKept(s: State, r: RunID)
    requires r != "" && Inv(s, r) && s.lock.Draining?
    ensures Kept(s, DoDrainEnd(s), r)
  {
    OccIsMembership(s.lock.drops, r);
    OweKept(s, s.(core := s.core.(queue := s.lock.keep), lock := Free), RunIDs(s.lock.drops), false, r);
  }

  lemma HandoffFilterKept(s: State, t: nat, r: RunID)
    requires r != "" && Inv(s, r) && t in s.frames
    ensures Kept(s, DoHandoffFilter(s, t), r)
  {
    OccFilter(s.core.mark, s.core.queue, r);
    OccIsMembership(Drops(s.core.mark, s.core.queue), r);
    OweKept(s, s, RunIDs(Drops(s.core.mark, s.core.queue)), false, r);
    if Survivors(s.core.mark, s.core.queue) != [] { HandoffMoves(s, r, t); }
  }

  lemma EndTurnKept(s: State, t: nat, p: Phase, r: RunID)
    requires r != "" && Inv(s, r) && t in s.frames && Alive(s.frames[t])
    ensures Kept(s, EndTurn(s, t, p), r)
  {
    OweKept(s, SetPhase(s, t, p), Named(s.frames[t].runID), s.frames[t].hook, r);
  }

  lemma HandoffClearKept(s: State, r: RunID)
    requires r != "" && Inv(s, r) && s.lock.HandoffRead?
    ensures Kept(s, DoHandoffClear(s), r)
  {
    var u := s.(core := if s.lock.idle then s.core.(mark := 0) else s.core, lock := Free);
    OweKept(s, SetPhase(u, s.lock.token, Handed), Named(s.frames[s.lock.token].runID), s.frames[s.lock.token].hook, r);
  }

  lemma HandoffAcceptKept(s: State, r: RunID)
    requires r != "" && Inv(s, r) && s.lock.HandoffNext?
    ensures Kept(s, DoHandoffAccept(s), r)
  {
    var u := Readmit(s, s.lock.next);
    assert Kept(s, u, r);
    ReadmitKeeps(s, r);
    if s.lock.owes { EndTurnKept(u, s.lock.token, Handed, r); }
  }

  lemma TurnKept(s: State, e: Event, r: RunID)
    requires r != "" && Inv(s, r) && Enabled(s, e)
    requires e.TurnFail? || e.TurnRelease? || e.Cleanup? || e.HandoffClear? || e.HandoffAccept?
    ensures Kept(s, Apply(s, e), r)
  {
    match e
    case TurnFail(t) => EndTurnKept(s, t, Failed, r);
    case HandoffClear => HandoffClearKept(s, r);
    case HandoffAccept => HandoffAcceptKept(s, r);
    case _ =>
  }

  lemma EmitKept(s: State, q: RunID, r: RunID)
    requires r != "" && Inv(s, r) && q in s.owed
    ensures Kept(s, DoEmit(s, q), r)
  {
  }

  lemma ReturnKept(s: State, q: RunID, failed: bool, r: RunID)
    requires r != "" && Inv(s, r) && q in s.awaiting && Returned(s, q)
    ensures Kept(s, DoCoordReturn(s, q, failed), r)
  {
    if q == r { ReturnHasLatest(s, r); }
  }

  lemma PreFailAccounted(s: State, id: nat, canceled: bool, r: RunID)
    requires r != "" && Inv(s, r) && id in s.pending
    ensures Accounted(s, PreFail(id, canceled), DoPreFail(s, id, canceled), r)
  {
    if s.pending[id].runID == r {
      assert At(s, r, AtPending(id));
    } else {
      OtherPreFailKept(s, id, canceled, r);
    }
  }

  lemma OtherPreFailKept(s: State, id: nat, canceled: bool, r: RunID)
    requires id in s.pending && s.pending[id].runID != r
    ensures Kept(s, DoPreFail(s, id, canceled), r)
  {
  }

  lemma SubmitAccounted(s: State, q: RunID, h: nat, r: RunID)
    requires r != "" && (q == "" || q !in s.place)
    ensures Accounted(s, Submit(q, h), DoSubmit(s, q, h), r)
  {
  }

  lemma OtherKept(s: State, e: Event, r: RunID)
    requires Enabled(s, e)
    requires e.Begin? || e.OtherBegin? || e.Refuse? || e.CloseUnentered? || e.EnterClose? || e.EndAccepted? ||
             e.CancelStart? || e.CancelMark? || e.DrainStart? || e.DrainOne? || e.HandoffCount?
    ensures Kept(s, Apply(s, e), r)
  {
  }

  lemma StepAccounted(s: State, e: Event, r: RunID)
    requires r != "" && Inv(s, r) && Enabled(s, e)
    ensures Accounted(s, e, Apply(s, e), r)
  {
    match e
    case EnterRun(id) => EntryKept(s, id, r);
    case CancelClear => CancelClearKept(s, r);
    case DrainEnd => DrainEndKept(s, r);
    case HandoffFilter(t) => HandoffFilterKept(s, t, r);
    case TurnFail(_) | TurnRelease(_) | Cleanup(_) | HandoffClear | HandoffAccept => TurnKept(s, e, r);
    case Submit(q, h) => SubmitAccounted(s, q, h, r);
    case PreFail(id, canceled) => PreFailAccounted(s, id, canceled, r);
    case Emit(q) => EmitKept(s, q, r);
    case CoordReturn(q, failed) => ReturnKept(s, q, failed, r);
    case _ => OtherKept(s, e, r);
  }

  ghost predicate SubmittedBy(es: seq<Event>, n: nat, r: RunID) {
    exists k: nat :: k < n && k < |es| && es[k].Submit? && es[k].runID == r
  }

  ghost predicate LostBy(es: seq<Event>, n: nat, r: RunID) {
    exists k: nat :: k < n && k < |es| && After(es[..k]).Some? && Loses(After(es[..k]).value, es[k], r)
  }

  lemma OneMoreStep(es: seq<Event>, m: nat, r: RunID)
    requires m < |es| && After(es[..m]).Some?
    ensures SubmittedBy(es, m + 1, r) <==> SubmittedBy(es, m, r) || (es[m].Submit? && es[m].runID == r)
    ensures LostBy(es, m + 1, r) <==> LostBy(es, m, r) || Loses(After(es[..m]).value, es[m], r)
  {
  }

  lemma {:induction false} PlacesTellTheRun(es: seq<Event>, n: nat, r: RunID)
    requires n <= |es| && After(es[..n]).Some? && r != ""
    ensures r in After(es[..n]).value.place <==> SubmittedBy(es, n, r)
    ensures At(After(es[..n]).value, r, Lost) <==> LostBy(es, n, r)
  {
    if n == 0 {
      assert es[..n] == [];
    } else {
      Cancel.StepAt(es, n - 1);
      PlacesTellTheRun(es, n - 1, r);
      InvAlways(es[..n - 1], r);
      StepAccounted(After(es[..n - 1]).value, es[n - 1], r);
      OneMoreStep(es, n - 1, r);
    }
  }

  /** r was submitted in the run, and no coordinator failed it silently before Run. */
  ghost predicate Due(es: seq<Event>, r: RunID) {
    SubmittedBy(es, |es|, r) && !LostBy(es, |es|, r)
  }

  /**
  Exactly one terminal event, read off the run: when nothing is on its way any more, the log
  holds each submitted RunID once, except those whose coordinator failed before Run with
  context.Canceled or without a dispatcher, for which it holds none.
  */
  lemma ExactlyOneTerminalEvent(es: seq<Event>, s: State, r: RunID)
    requires After(es) == Some(s) && Quiescent(s) && r != ""
    ensures multiset(s.log)[r] == One(Due(es, r))
  {
    assert es[..|es|] == es;
    PlacesTellTheRun(es, |es|, r);
    ExactlyOneHome(s, r);
    InvAlways(es, r);
  }

  /* ---- A run that loses a RunID ---- */

  /** Accepted and submitted, and the coordinator fails before Run with context.Canceled. */
  function LosingRun(r: RunID): seq<Event> {
    [Begin, Submit(r, 1)] + ([PreFail(1, true), CloseUnentered(1)] + [EndAccepted(1)])
  }

  lemma AcceptAndSubmit(r: RunID) returns (t: State)
    requires r != ""
    ensures Queue.Leads(INITIAL, [Begin, Submit(r, 1)], t)
    ensures t == INITIAL.(core := Core(1, 1, 0, [], None), handles := map[1 := Attached], awaiting := {r}, nextId := 2,
                          pending := map[1 := Pending(r, 1, true)], place := map[r := AtPending(1)])
  {
    var s1 := INITIAL.(core := Core(1, 1, 0, [], None), handles := map[1 := Reserved]);
    t := DoSubmit(s1, r, 1);
    assert s1.handles[1 := Attached] == map[1 := Attached] && {} + Named(r) == {r};
    assert Move(s1, Named(r), AtPending(1)) == map[r := AtPending(1)];
    Queue.TwoSteps(INITIAL, Begin, s1, Submit(r, 1), t);
  }

  lemma FailAndClose(s: State, r: RunID) returns (t: State)
    requires r != "" && s.lock == Free && s.handles == map[1 := Attached] && s.awaiting == {r}
    requires s.pending == map[1 := Pending(r, 1, true)] && s.place == map[r := AtPending(1)]
    ensures Queue.Leads(s, [PreFail(1, true), CloseUnentered(1)], t)
    ensures t == s.(handles := map[1 := Closing], awaiting := {}, pending := map[], place := map[r := Lost])
  {
    var u := DoPreFail(s, 1, true);
    t := s.(handles := map[1 := Closing], awaiting := {}, pending := map[], place := map[r := Lost]);
    assert s.pending - {1} == map[] && s.awaiting - Named(r) == {};
    assert Move(Abandon(s, 1), {r}, Lost) == map[r := Lost] && u.handles[1 := Closing] == t.handles;
    Queue.TwoSteps(s, PreFail(1, true), u, CloseUnentered(1), t);
  }

  lemma CanceledBeforeRun(r: RunID) returns (t: State)
    requires r != ""
    ensures Queue.Leads(INITIAL, LosingRun(r), t)
    ensures t.place == map[r := Lost] && t.log == [] && t.awaiting == {} && Quiescent(t)
  {
    var s2 := AcceptAndSubmit(r);
    var s4 := FailAndClose(s2, r);
    t := DoEndAccepted(s4, 1);
    Queue.OneStep(s4, EndAccepted(1), t);
    Queue.Joined(s2, [PreFail(1, true), CloseUnentered(1)], s4, [EndAccepted(1)], t);
    Queue.Joined(INITIAL, [Begin, Submit(r, 1)], s2, [PreFail(1, true), CloseUnentered(1)] + [EndAccepted(1)], t);
  }

  /** A reachable state in which nothing is on its way, a submitted RunID has no event and none will come. */
  lemma LossIsReachable(r: RunID) returns (t: State)
    requires r != ""
    ensures Reachable(t) && Quiescent(t) && At(t, r, Lost) && r !in t.log && t.awaiting == {}
  {
    t := CanceledBeforeRun(r);
    assert After([]) == Some(INITIAL);
    Queue.ReachesOn(INITIAL, LosingRun(r));
  }
}
