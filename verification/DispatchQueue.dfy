/**
The prompt queue against the cancel mark, and the single active run of a session.
*/
module DispatchQueue {
  import opened Common
  import opened Dispatch
  import Cancel = DispatchCancel

  /* ---- Tracked calls in the queue are above the mark ---- */

  ghost predicate Clear(mark: nat, queue: seq<Call>) {
    forall q | q in queue && q.acceptSeq > 0 :: mark < q.acceptSeq
  }

  ghost predicate QueueInv(s: State) {
    && (s.lock != CancelMarked ==> Clear(s.core.mark, s.core.queue))
    && (s.lock.Draining? ==> Clear(s.core.mark, s.lock.todo) && Clear(s.core.mark, s.lock.keep))
  }

  lemma {:induction false} SelectedAreQueued(vs: set<Verdict>, mark: nat, queue: seq<Call>)
    ensures forall q :: q in Select(vs, mark, queue) <==> q in queue && Judge(mark, q) in vs
  {
    if queue != [] {
      SelectedAreQueued(vs, mark, queue[1..]);
      assert queue == [queue[0]] + queue[1..];
    }
  }

  lemma QueueStepKeepsQueueInv(s: State, e: Event)
    requires QueueInv(s) && Enabled(s, e)
    requires e.CancelClear? || e.DrainStart? || e.DrainOne? || e.DrainEnd? || e.HandoffFilter?
    ensures QueueInv(Apply(s, e))
  {
    SelectedAreQueued({Fold, Keep}, s.core.mark, s.core.queue);
  }

  lemma EnterKeepsQueueInv(s: State, id: nat)
    requires QueueInv(s) && s.lock == Free && id in s.pending
    ensures QueueInv(DoEnter(s, id))
  {
  }

  lemma AccountingKeepsQueueInv(s: State, e: Event)
    requires QueueInv(s) && Enabled(s, e) && Cancel.Accounting(e)
    ensures QueueInv(Apply(s, e))
  {
    if e.EnterRun? { EnterKeepsQueueInv(s, e.id); }
  }

  lemma {:induction false} QueueInvAlways(es: seq<Event>)
    requires After(es).Some?
    ensures QueueInv(After(es).value)
  {
    if es != [] {
      var s, e := After(es[..|es| - 1]).value, es[|es| - 1];
      QueueInvAlways(es[..|es| - 1]);
      if Cancel.Accounting(e) {
        AccountingKeepsQueueInv(s, e);
      } else if e.CancelClear? || e.DrainStart? || e.DrainOne? || e.DrainEnd? || e.HandoffFilter? {
        QueueStepKeepsQueueInv(s, e);
      } else {
        Cancel.TurnStepsKeepControl(s, e);
      }
    }
  }

  /**
  Whenever the dispatch mutex is free, a drain or a handoff would drop a queued call iff the
  call is untracked and some mark is present. A tracked call queued after the last cancel is
  never dropped; an untracked one has no such protection.
  */
  lemma DroppedIffUntracked(s: State, q: Call)
    requires Reachable(s) && s.lock == Free && q in s.core.queue
    ensures Dropped(s.core.mark, q) <==> q.acceptSeq == 0 && s.core.mark != 0
  {
    var es :| After(es) == Some(s);
    QueueInvAlways(es);
  }

  /** The same verdict at every iteration of the drain, while releases interleave with it. */
  lemma DrainDropsOnlyUntracked(s: State)
    requires Reachable(s) && s.lock.Draining? && s.lock.todo != []
    ensures Dropped(s.core.mark, s.lock.todo[0]) <==> s.lock.todo[0].acceptSeq == 0 && s.core.mark != 0
  {
    var es :| After(es) == Some(s);
    QueueInvAlways(es);
    assert s.lock.todo[0] in s.lock.todo;
  }

  /* ---- A mark nobody is left to clear ---- */

  /** A run that continues from s. */
  function From(s: State, es: seq<Event>): Option<State>
    decreases |es|
  {
    if es == [] then Some(s) else if Enabled(s, es[0]) then From(Apply(s, es[0]), es[1..]) else None
  }

  lemma {:induction false} ReachesOn(s: State, es: seq<Event>)
    requires Reachable(s) && From(s, es).Some?
    ensures Reachable(From(s, es).value)
    decreases |es|
  {
    if es != [] {
      var run :| After(run) == Some(s);
      assert (run + [es[0]])[..|run + [es[0]]| - 1] == run;
      assert After(run + [es[0]]) == Some(Apply(s, es[0]));
      ReachesOn(Apply(s, es[0]), es[1..]);
    }
  }

  /** A mark for which no reservation is counted any more. */
  predicate Stale(c: Core) {
    c.count == 0 && c.mark != 0
  }

  /** Cancel's write, when what it read as in flight has been released by now. */
  predicate WritesLate(s: State, e: Event) {
    e.CancelMark? && s.lock.CancelRead? && s.lock.inFlight && s.core.count == 0
  }

  /** What Cancel read as in flight has a sequence. */
  ghost predicate ReadSound(s: State) {
    s.lock.CancelRead? && s.lock.inFlight ==> s.lock.upto > 0
  }

  lemma ReadIsSound(s: State)
    requires Cancel.Inv(s) && s.core.count > 0
    ensures s.core.gen > 0
  {
    var h :| h in Cancel.Counted(s.handles);
    assert h in s.handles;
  }

  lemma OthersLeaveReads(s: State, e: Event)
    requires Enabled(s, e) && !e.CancelStart?
    ensures Apply(s, e).lock.CancelRead? ==> Apply(s, e).lock == s.lock
  {
    if e.CancelClear? || e.DrainStart? || e.DrainOne? || e.DrainEnd? || e.HandoffFilter? {
      Cancel.QueueStepsKeepAccounts(s, e);
    } else if !Cancel.Accounting(e) {
      Cancel.TurnStepsKeepControl(s, e);
    } else if e.EnterRun? {
      Cancel.BranchKeepsAccounts(s, e.id);
    }
  }

  lemma {:induction false} ReadSoundAlways(es: seq<Event>)
    requires After(es).Some?
    ensures ReadSound(After(es).value)
  {
    if es != [] {
      var s, e := After(es[..|es| - 1]).value, es[|es| - 1];
      ReadSoundAlways(es[..|es| - 1]);
      Cancel.InvAlways(es[..|es| - 1]);
      if e.CancelStart? {
        if s.core.count > 0 { ReadIsSound(s); }
      } else {
        OthersLeaveReads(s, e);
      }
    }
  }

  /**
  Exactly how a mark becomes stale: a step leaves one where there was none iff it is Cancel's
  write, the read before it saw something in flight, and all of that has been released since.
  */
  lemma StaleMarkIff(s: State, e: Event)
    requires Reachable(s) && Enabled(s, e) && !Stale(s.core)
    ensures Stale(Apply(s, e).core) <==> WritesLate(s, e)
  {
    var es :| After(es) == Some(s);
    ReadSoundAlways(es);
    if e.CancelClear? || e.DrainStart? || e.DrainOne? || e.DrainEnd? || e.HandoffFilter? {
      Cancel.QueueStepsKeepAccounts(s, e);
    } else if !Cancel.Accounting(e) {
      Cancel.TurnStepsKeepControl(s, e);
    } else if e.EnterRun? {
      Cancel.BranchKeepsAccounts(s, e.id);
    }
  }

  /** A refused accept whose release runs between Cancel's read and Cancel's write. */
  const STALE_MARK_RUN: seq<Event> :=
    [Begin, CancelStart] + ([Refuse(1), EndAccepted(1)] + [CancelMark, CancelClear])

  const STALE_MARK := INITIAL.(core := Core(1, 0, 1, [], None), handles := map[1 := Closed], seenByCancel := {1})

  /** es is a run from s to t. */
  ghost predicate Leads(s: State, es: seq<Event>, t: State) {
    From(s, es) == Some(t)
  }

  lemma {:induction false} Joined(s: State, a: seq<Event>, t: State, b: seq<Event>, u: State)
    requires Leads(s, a, t) && Leads(t, b, u)
    ensures Leads(s, a + b, u)
    decreases |a|
  {
    if a == [] {
      assert a + b == b;
    } else {
      assert (a + b)[1..] == a[1..] + b;
      Joined(Apply(s, a[0]), a[1..], t, b, u);
    }
  }

  lemma OneStep(s: State, e: Event, t: State)
    requires Enabled(s, e) && Apply(s, e) == t
    ensures Leads(s, [e], t)
  {
    assert From(t, [e][1..]) == Some(t);
  }

  lemma TwoSteps(s: State, e: Event, t: State, f: Event, u: State)
    requires Enabled(s, e) && Apply(s, e) == t && Enabled(t, f) && Apply(t, f) == u
    ensures Leads(s, [e, f], u)
  {
    OneStep(s, e, t);
    OneStep(t, f, u);
    Joined(s, [e], t, [f], u);
    assert [e] + [f] == [e, f];
  }

  /**
  The mark can stay although no reservation is counted: a release outside the dispatch mutex
  runs between Cancel's read of the count and its write of the mark.
  */
  lemma StaleMarkIsReachable()
    ensures Reachable(STALE_MARK) && Leads(INITIAL, STALE_MARK_RUN, STALE_MARK)
    ensures STALE_MARK.core.count == 0 && STALE_MARK.core.mark != 0 && STALE_MARK.lock == Free
  {
    var s1 := INITIAL.(core := Core(1, 1, 0, [], None), handles := map[1 := Reserved]);
    var s2 := s1.(lock := CancelRead(true, 1), seenByCancel := {1});
    var s3 := s2.(handles := map[1 := Closing]);
    var s4 := s3.(core := Core(1, 0, 0, [], None), handles := map[1 := Closed]);
    var s5 := s4.(core := Core(1, 0, 1, [], None), lock := CancelMarked);
    assert s1.handles.Keys == {1};
    TwoSteps(INITIAL, Begin, s1, CancelStart, s2);
    assert s2.handles[1 := Closing] == map[1 := Closing];
    assert s3.handles[1 := Closed] == map[1 := Closed];
    TwoSteps(s2, Refuse(1), s3, EndAccepted(1), s4);
    assert Apply(s5, CancelClear) == STALE_MARK;
    TwoSteps(s4, CancelMark, s5, CancelClear, STALE_MARK);
    Joined(s2, [Refuse(1), EndAccepted(1)], s4, [CancelMark, CancelClear], STALE_MARK);
    Joined(INITIAL, [Begin, CancelStart], s2, [Refuse(1), EndAccepted(1)] + [CancelMark, CancelClear], STALE_MARK);
    assert After([]) == Some(INITIAL);
    ReachesOn(INITIAL, STALE_MARK_RUN);
  }

  /** An in-process call that is submitted and enters Run while the mutex is free. */
  function Arrival(id: nat, r: RunID): seq<Event> {
    [Submit(r, 0), EnterRun(id)]
  }

  function OneDrain(token: nat): seq<Event> {
    [DrainStart(token), DrainOne] + [DrainEnd]
  }

  lemma InProcessSubmit(s: State, r: RunID) returns (t: State)
    requires r != "" && r !in s.place
    ensures Enabled(s, Submit(r, 0)) && Apply(s, Submit(r, 0)) == t
    ensures t == s.(pending := s.pending[s.nextId := Pending(r, 0, true)], awaiting := s.awaiting + {r},
                    nextId := s.nextId + 1, place := t.place)
    ensures t.place.Keys == s.place.Keys + {r}
  {
    t := DoSubmit(s, r, 0);
  }

  lemma InProcessEntry(s: State, id: nat, r: RunID) returns (t: State)
    requires s.lock == Free && id in s.pending && s.pending[id] == Pending(r, 0, true) && r != "" && r in s.place
    ensures Enabled(s, EnterRun(id)) && Apply(s, EnterRun(id)) == t
    ensures t.lock == Free && t.core == Enter(s.core, r, 0, s.nextId) && t.place.Keys == s.place.Keys
    ensures s.core.active.None? ==> FrameIs(t, s.nextId, Streaming) && t.nextId == s.nextId + 1
    ensures s.core.active.Some? ==> t.frames == s.frames
  {
    t := DoEnter(s, id);
  }

  lemma InProcessCall(s: State, r: RunID) returns (t: State)
    requires s.lock == Free && r != "" && r !in s.place
    ensures Leads(s, Arrival(s.nextId, r), t)
    ensures t.lock == Free && t.core == Enter(s.core, r, 0, s.nextId + 1)
    ensures t.place.Keys == s.place.Keys + {r}
    ensures s.core.active.None? ==> FrameIs(t, s.nextId + 1, Streaming) && t.nextId == s.nextId + 2
    ensures s.core.active.Some? ==> t.frames == s.frames
  {
    var u := InProcessSubmit(s, r);
    t := InProcessEntry(u, s.nextId, r);
    TwoSteps(s, Submit(r, 0), u, EnterRun(s.nextId), t);
  }

  lemma DrainOfOne(s: State, token: nat, b: Call) returns (t: State)
    requires s.lock == Free && FrameIs(s, token, Streaming) && s.core.queue == [b]
    requires Dropped(s.core.mark, b) && b.runID != ""
    ensures Leads(s, OneDrain(token), t)
    ensures t.core.queue == [] && b.runID in t.owed && !t.owed[b.runID]
  {
    var s1, s2 := s.(lock := Draining([b], [], [])), s.(lock := Draining([], [], [b]));
    assert [b][1..] == [] && [] + [b] == [b] && b in [b];
    TwoSteps(s, DrainStart(token), s1, DrainOne, s2);
    t := DoDrainEnd(s2);
    OneStep(s2, DrainEnd, t);
    Joined(s, [DrainStart(token), DrainOne], s2, [DrainEnd], t);
  }

  /**
  What a stale mark does: an untracked call submitted after it is queued behind another one and
  dropped as cancelled by that one's drain, though no Cancel follows its submission.
  StaleMarkIsReachable gives a state to start from.
  */
  lemma StaleMarkDropsLateCall(s: State, first: RunID, late: RunID) returns (t: State)
    requires Reachable(s) && s.lock == Free && s.core.active == None && s.core.queue == [] && s.core.mark != 0
    requires first != "" && late != "" && first != late && first !in s.place && late !in s.place
    ensures Leads(s, Arrival(s.nextId, first) + (Arrival(s.nextId + 2, late) + OneDrain(s.nextId + 1)), t)
    ensures Reachable(t) && t.core.queue == [] && late in t.owed && !t.owed[late]
  {
    var u := InProcessCall(s, first);
    var v := InProcessCall(u, late);
    assert [] + [Call(late, 0)] == [Call(late, 0)];
    t := DrainOfOne(v, s.nextId + 1, Call(late, 0));
    Joined(u, Arrival(u.nextId, late), v, OneDrain(s.nextId + 1), t);
    Joined(s, Arrival(s.nextId, first), u, Arrival(u.nextId, late) + OneDrain(s.nextId + 1), t);
    ReachesOn(s, Arrival(s.nextId, first) + (Arrival(u.nextId, late) + OneDrain(s.nextId + 1)));
  }

  /* ---- One active run, and ABA-safe cleanup ---- */

  /** The active entry is exactly the token of the run that registered and has not released. */
  ghost predicate ActiveInv(s: State) {
    && (forall t | t in s.frames :: t < s.nextId)
    && (forall t | t in s.frames :: s.frames[t].phase in {Streaming, Failed} <==> s.core.active == Some(t))
    && (s.core.active.Some? ==> s.core.active.value in s.frames)
    && (s.lock.HandoffEmpty? || s.lock.HandoffRead? || s.lock.HandoffNext? ==> FrameIs(s, s.lock.token, Released))
  }

  lemma PhaseStepKeepsActiveInv(s: State, e: Event)
    requires ActiveInv(s) && Enabled(s, e) && (e.TurnFail? || e.TurnRelease? || e.Cleanup?)
    ensures ActiveInv(Apply(s, e))
  {
  }

  lemma HandedKeepsActiveInv(s: State, e: Event)
    requires ActiveInv(s) && Enabled(s, e) && (e.HandoffClear? || e.HandoffAccept?)
    ensures ActiveInv(Apply(s, e))
  {
  }

  lemma EnterKeepsActiveInv(s: State, id: nat)
    requires ActiveInv(s) && s.lock == Free && id in s.pending
    ensures ActiveInv(DoEnter(s, id))
  {
  }

  ghost predicate SameRuns(s: State, t: State) {
    t.frames == s.frames && t.core.active == s.core.active && t.nextId >= s.nextId
  }

  lemma LockedStepKeepsRuns(s: State, e: Event)
    requires Enabled(s, e)
    requires e.CancelStart? || e.CancelMark? || e.CancelClear? || e.DrainStart? || e.DrainOne? || e.DrainEnd?
    ensures SameRuns(s, Apply(s, e)) && !InHandoff(Apply(s, e).lock)
  {
  }

  predicate InHandoff(l: Lock) {
    l.HandoffEmpty? || l.HandoffRead? || l.HandoffNext?
  }

  lemma HandoffStepKeepsRuns(s: State, e: Event)
    requires Enabled(s, e) && (e.HandoffFilter? || e.HandoffCount?)
    ensures SameRuns(s, Apply(s, e)) && InHandoff(Apply(s, e).lock)
    ensures Apply(s, e).lock.token == if e.HandoffFilter? then e.token else s.lock.token
  {
  }

  lemma AcceptStepKeepsRuns(s: State, e: Event)
    requires Enabled(s, e)
    requires e.Begin? || e.OtherBegin? || e.Refuse? || e.CloseUnentered? || e.Submit? || e.PreFail?
    ensures SameRuns(s, Apply(s, e)) && Apply(s, e).lock == s.lock
  {
  }

  lemma CloseStepKeepsRuns(s: State, e: Event)
    requires Enabled(s, e) && (e.EnterClose? || e.EndAccepted?)
    ensures SameRuns(s, Apply(s, e)) && (Apply(s, e).lock == s.lock || !InHandoff(Apply(s, e).lock))
  {
  }

  /** The steps that neither start nor end a run leave frames and the active entry alone. */
  predicate RunStep(e: Event) {
    e.TurnFail? || e.TurnRelease? || e.Cleanup? || e.HandoffClear? || e.HandoffAccept? || e.EnterRun?
  }

  lemma OtherStepKeepsRuns(s: State, e: Event)
    requires Enabled(s, e) && !RunStep(e)
    ensures SameRuns(s, Apply(s, e))
    ensures InHandoff(Apply(s, e).lock) ==>
              (InHandoff(s.lock) && Apply(s, e).lock.token == s.lock.token) ||
              (e.HandoffFilter? && Apply(s, e).lock.token == e.token)
  {
    match e
    case CancelStart | CancelMark | CancelClear | DrainStart(_) | DrainOne | DrainEnd => LockedStepKeepsRuns(s, e);
    case HandoffFilter(_) | HandoffCount => HandoffStepKeepsRuns(s, e);
    case Begin | OtherBegin | Refuse(_) | CloseUnentered(_) | Submit(_, _) | PreFail(_, _) => AcceptStepKeepsRuns(s, e);
    case EnterClose | EndAccepted(_) => CloseStepKeepsRuns(s, e);
    case Emit(_) | CoordReturn(_, _) => Cancel.TurnStepsKeepControl(s, e);
  }

  lemma SameRunsKeepActiveInv(s: State, t: State)
    requires ActiveInv(s) && SameRuns(s, t)
    requires InHandoff(t.lock) ==>
               (InHandoff(s.lock) && t.lock.token == s.lock.token) || FrameIs(s, t.lock.token, Released)
    ensures ActiveInv(t)
  {
  }

  lemma StepKeepsActiveInv(s: State, e: Event)
    requires ActiveInv(s) && Enabled(s, e)
    ensures ActiveInv(Apply(s, e))
  {
    if !RunStep(e) {
      OtherStepKeepsRuns(s, e);
      SameRunsKeepActiveInv(s, Apply(s, e));
    } else if e.EnterRun? {
      EnterKeepsActiveInv(s, e.id);
    } else if e.HandoffClear? || e.HandoffAccept? {
      HandedKeepsActiveInv(s, e);
    } else {
      PhaseStepKeepsActiveInv(s, e);
    }
  }

  lemma {:induction false} ActiveInvAlways(es: seq<Event>)
    requires After(es).Some?
    ensures ActiveInv(After(es).value)
  {
    if es != [] {
      ActiveInvAlways(es[..|es| - 1]);
      StepKeepsActiveInv(After(es[..|es| - 1]).value, es[|es| - 1]);
    }
  }

  /**
  From registration until its own release a run's token is the active entry: no step but that
  run's own release or its own deferred cleanup takes it away, and none replaces it.
  */
  lemma OnlyTheOwnerReleases(s: State, e: Event, t: nat)
    requires Reachable(s) && Enabled(s, e)
    requires s.core.active == Some(t) && Apply(s, e).core.active != Some(t)
    ensures e == TurnRelease(t) || e == Cleanup(t)
    ensures Apply(s, e).core.active == None
  {
    var es :| After(es) == Some(s);
    ActiveInvAlways(es);
    if !RunStep(e) {
      OtherStepKeepsRuns(s, e);
    }
  }

  /** Two invocations of Run never both hold the session. */
  lemma OneActiveRun(s: State, t: nat, u: nat)
    requires Reachable(s) && FrameIs(s, t, Streaming) && FrameIs(s, u, Streaming)
    ensures t == u && s.core.active == Some(t)
  {
    var es :| After(es) == Some(s);
    ActiveInvAlways(es);
  }
}
