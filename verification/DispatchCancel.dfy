/**
Exact cancel coverage: which accepted handles take the cancel-on-entry branch, over all
interleavings of the dispatch mutex with the releases that run outside it.
*/
module DispatchCancel {
  import opened Common
  import opened Dispatch

  /** A handle still counted by acceptedRuns. */
  predicate Counts(h: Handle) {
    h != Closed
  }

  function Counted(handles: map<nat, Handle>): set<nat> {
    set h | h in handles && Counts(handles[h])
  }

  /** What acceptedRuns counts, and how the generation bounds every sequence. */
  ghost predicate Counting(s: State) {
    && (forall h | h in s.handles :: 1 <= h <= s.core.gen)
    && s.core.count == |Counted(s.handles)|
    && s.core.mark <= s.core.gen
    && s.seenByCancel <= s.handles.Keys
  }

  /** Every handle has one owner. */
  ghost predicate Ownership(s: State) {
    && (s.lock.Entering? ==> s.lock.handle in s.handles && s.handles[s.lock.handle] == Entered)
    && (s.lock.Leaving? ==> s.lock.handle in s.handles && s.handles[s.lock.handle] == Closing)
    && (forall id | id in s.pending :: id < s.nextId)
    && (forall id | id in s.pending && s.pending[id].handle != 0 ::
          s.pending[id].handle in s.handles && s.handles[s.pending[id].handle] == Attached)
    && (forall i, j | i in s.pending && j in s.pending && i != j && s.pending[i].handle != 0 ::
          s.pending[i].handle != s.pending[j].handle)
  }

  /** A handle is at or below the mark iff a Cancel has seen it, for every counted handle. */
  ghost predicate Coverage(s: State) {
    && (forall h | h in s.handles && h <= s.core.mark :: h in s.seenByCancel)
    && (!s.lock.CancelRead? ==>
          forall h | h in s.seenByCancel && h in s.handles && Counts(s.handles[h]) :: h <= s.core.mark)
    && (s.lock.CancelRead? ==>
          && s.core.mark <= s.lock.upto <= s.core.gen
          && (forall h | h in s.handles :: h <= s.lock.upto <==> h in s.seenByCancel)
          && (!s.lock.inFlight ==> forall h | h in s.handles && Counts(s.handles[h]) :: s.lock.upto < h))
    && (s.lock.HandoffRead? && s.lock.idle ==>
          forall h | h in s.handles && Counts(s.handles[h]) :: h !in s.seenByCancel)
  }

  ghost predicate Inv(s: State) {
    Counting(s) && Ownership(s) && Coverage(s)
  }

  lemma CountedAfter(handles: map<nat, Handle>, h: nat, v: Handle)
    ensures Counted(handles[h := v]) ==
            if Counts(v) then Counted(handles) + {h} else Counted(handles) - {h}
    ensures h in handles && Counts(handles[h]) && Counts(v) ==> Counted(handles[h := v]) == Counted(handles)
  {
  }

  lemma TwoCounted(handles: map<nat, Handle>, g: nat, h: nat)
    requires g in handles && h in handles && Counts(handles[g]) && Counts(handles[h]) && g != h
    ensures |Counted(handles)| >= 2
  {
    var rest := Counted(handles) - {g};
    assert h in rest && |rest| == |Counted(handles)| - 1;
  }

  /**
  The part of a state these invariants speak of. A step either leaves it alone, or is one of
  the steps handled below.
  */
  ghost predicate SameAccounts(s: State, t: State) {
    && t.core.mark == s.core.mark && t.core.gen == s.core.gen && t.core.count == s.core.count
    && t.seenByCancel == s.seenByCancel
    && t.handles == s.handles
    && (t.lock == s.lock || !(s.lock.CancelRead? || t.lock.CancelRead? || t.lock.HandoffRead? || t.lock.Entering? || t.lock.Leaving?))
    && t.nextId >= s.nextId
  }

  lemma SameAccountsKeepInv(s: State, t: State)
    requires Inv(s) && SameAccounts(s, t) && t.pending == s.pending
    ensures Inv(t)
  {
  }

  /** A step that only moves handle h from one counted phase to another. */
  lemma MoveKeepsCounting(s: State, t: State, h: nat, v: Handle)
    requires Inv(s) && h in s.handles && Counts(s.handles[h]) && Counts(v)
    requires t.handles == s.handles[h := v] && t.seenByCancel == s.seenByCancel
    requires t.core.mark == s.core.mark && t.core.gen == s.core.gen && t.core.count == s.core.count
    requires t.lock == s.lock || !(s.lock.CancelRead? || t.lock.CancelRead? || t.lock.HandoffRead?)
    ensures Counting(t) && Coverage(t)
  {
    CountedAfter(s.handles, h, v);
  }

  /** A step that stamps a new handle: no Cancel has seen it, and it is above the mark. */
  lemma AcceptKeepsCounting(s: State, t: State, v: Handle)
    requires Inv(s) && Counts(v)
    requires t.core.gen == s.core.gen + 1 && t.core.count == s.core.count + 1 && t.core.mark == s.core.mark
    requires t.handles == s.handles[t.core.gen := v] && t.seenByCancel == s.seenByCancel
    requires t.lock == s.lock || (t.lock == Free && !s.lock.CancelRead?)
    ensures Counting(t) && Coverage(t)
  {
    CountedAfter(s.handles, t.core.gen, v);
  }

  lemma BeginKeepsInv(s: State, t: State)
    requires Inv(s)
    requires t == s.(core := Accept(s.core), handles := s.handles[s.core.gen + 1 := Reserved])
    ensures Inv(t)
  {
    AcceptKeepsCounting(s, t, Reserved);
  }

  lemma ClosingKeepsInv(s: State, t: State, h: nat)
    requires Inv(s) && h in s.handles && s.handles[h] in {Reserved, Abandoned}
    requires t == s.(handles := s.handles[h := Closing])
    ensures Inv(t)
  {
    MoveKeepsCounting(s, t, h, Closing);
  }

  lemma EnterCloseKeepsInv(s: State, t: State)
    requires Inv(s) && s.lock.Entering?
    requires t == s.(handles := s.handles[s.lock.handle := Closing], lock := Leaving(s.lock.handle))
    ensures Inv(t)
  {
    MoveKeepsCounting(s, t, s.lock.handle, Closing);
  }

  lemma SubmitKeepsInv(s: State, r: RunID, h: nat)
    requires Inv(s) && (h != 0 ==> h in s.handles && s.handles[h] == Reserved)
    ensures Inv(DoSubmit(s, r, h))
  {
    if h != 0 { MoveKeepsCounting(s, DoSubmit(s, r, h), h, Attached); }
  }

  /** Taking a call out of pending, and moving its handle on. */
  lemma TakenKeepsOwnership(s: State, t: State, id: nat, v: Handle)
    requires Ownership(s) && id in s.pending && v != Attached
    requires t.pending == s.pending - {id} && t.nextId >= s.nextId
    requires t.handles == if s.pending[id].handle == 0 then s.handles else s.handles[s.pending[id].handle := v]
    requires t.lock == s.lock || t.lock == Free || (v == Entered && s.pending[id].handle != 0 && t.lock == Entering(s.pending[id].handle))
    ensures Ownership(t)
  {
  }

  lemma AbandonKeepsInv(s: State, id: nat)
    requires Inv(s) && id in s.pending
    ensures Inv(Abandon(s, id))
  {
    var h := s.pending[id].handle;
    TakenKeepsOwnership(s, Abandon(s, id), id, Abandoned);
    if h != 0 { MoveKeepsCounting(s, Abandon(s, id), h, Abandoned); }
  }

  lemma PreFailKeepsInv(s: State, id: nat, canceled: bool)
    requires Inv(s) && id in s.pending
    ensures Inv(DoPreFail(s, id, canceled))
  {
    AbandonKeepsInv(s, id);
    SameAccountsKeepInv(Abandon(s, id), DoPreFail(s, id, canceled));
  }

  lemma TakeInKeepsInv(s: State, id: nat)
    requires Inv(s) && s.lock == Free && id in s.pending
    ensures Inv(TakeIn(s, id))
  {
    var h := s.pending[id].handle;
    TakenKeepsOwnership(s, TakeIn(s, id), id, Entered);
    if h != 0 { MoveKeepsCounting(s, TakeIn(s, id), h, Entered); }
  }

  lemma BranchKeepsAccounts(s: State, id: nat)
    requires s.lock == Free && id in s.pending
    ensures SameAccounts(TakeIn(s, id), DoEnter(s, id)) && DoEnter(s, id).pending == TakeIn(s, id).pending
  {
  }

  lemma EnterRunKeepsInv(s: State, id: nat)
    requires Inv(s) && s.lock == Free && id in s.pending
    ensures Inv(DoEnter(s, id))
  {
    TakeInKeepsInv(s, id);
    BranchKeepsAccounts(s, id);
    SameAccountsKeepInv(TakeIn(s, id), DoEnter(s, id));
  }

  /** The last release drops the mark; then no counted handle is left for it to cover. */
  lemma LastReleaseIsAlone(s: State, h: nat)
    requires Counting(s) && h in s.handles && Counts(s.handles[h]) && s.core.count <= 1
    ensures forall g | g in s.handles && Counts(s.handles[g]) :: g == h
  {
    forall g | g in s.handles && Counts(s.handles[g]) ensures g == h {
      if g != h { TwoCounted(s.handles, g, h); }
    }
  }

  lemma ReleaseKeepsCounting(s: State, h: nat)
    requires Inv(s) && h in s.handles && s.handles[h] == Closing
    ensures Counting(DoEndAccepted(s, h))
  {
    CountedAfter(s.handles, h, Closed);
    assert h in Counted(s.handles);
  }

  lemma ReleaseKeepsCoverage(s: State, h: nat)
    requires Inv(s) && h in s.handles && s.handles[h] == Closing
    ensures Coverage(DoEndAccepted(s, h))
  {
    if s.core.count <= 1 { LastReleaseIsAlone(s, h); }
  }

  lemma ReleaseKeepsOwnership(s: State, h: nat)
    requires Ownership(s) && h in s.handles && s.handles[h] == Closing
    ensures Ownership(DoEndAccepted(s, h))
  {
  }

  /** count > 0 whenever a counted handle exists, so a Cancel that reads 0 misses nobody. */
  lemma CountSeesHandles(s: State)
    requires Counting(s)
    ensures forall h | h in s.handles && Counts(s.handles[h]) :: s.core.count > 0
  {
    forall h | h in s.handles && Counts(s.handles[h]) ensures s.core.count > 0 {
      assert h in Counted(s.handles);
    }
  }

  lemma CancelStartKeepsInv(s: State, t: State)
    requires Inv(s)
    requires t == s.(lock := CancelRead(s.core.count > 0, s.core.gen), seenByCancel := s.handles.Keys)
    ensures Inv(t)
  {
    CountSeesHandles(s);
  }

  lemma CancelMarkKeepsInv(s: State, t: State)
    requires Inv(s) && s.lock.CancelRead?
    requires t == s.(core := RaiseMark(s.core, s.lock.inFlight, s.lock.upto), lock := CancelMarked)
    ensures Inv(t)
  {
  }

  lemma HandoffCountKeepsInv(s: State, t: State)
    requires Inv(s) && s.lock.HandoffEmpty?
    requires t == s.(lock := HandoffRead(s.lock.token, s.core.count == 0))
    ensures Inv(t)
  {
    CountSeesHandles(s);
  }

  lemma HandoffClearKeepsInv(s: State)
    requires Inv(s) && s.lock.HandoffRead? && s.lock.token in s.frames
    ensures Inv(DoHandoffClear(s))
  {
  }

  lemma ReadmitKeepsInv(s: State, c: Call)
    requires Inv(s) && s.lock.HandoffNext?
    ensures Inv(Readmit(s, c))
  {
    AcceptKeepsCounting(s, Readmit(s, c), Attached);
  }

  lemma HandoffAcceptKeepsInv(s: State)
    requires Inv(s) && s.lock.HandoffNext? && s.lock.token in s.frames
    ensures Inv(DoHandoffAccept(s))
  {
    ReadmitKeepsInv(s, s.lock.next);
    SameAccountsKeepInv(Readmit(s, s.lock.next), DoHandoffAccept(s));
  }

  /** The steps that touch the accounts. */
  predicate Accounting(e: Event) {
    e.Begin? || e.OtherBegin? || e.Refuse? || e.CloseUnentered? || e.Submit? || e.PreFail? || e.EnterRun? ||
    e.EnterClose? || e.EndAccepted? || e.CancelStart? || e.CancelMark? || e.HandoffCount? || e.HandoffClear? ||
    e.HandoffAccept?
  }

  lemma AccountingKeepsInv(s: State, e: Event)
    requires Inv(s) && Enabled(s, e) && Accounting(e)
    ensures Inv(Apply(s, e))
  {
    var t := Apply(s, e);
    match e
    case Begin => BeginKeepsInv(s, t);
    case OtherBegin =>
    case Refuse(h) => ClosingKeepsInv(s, t, h);
    case CloseUnentered(h) => ClosingKeepsInv(s, t, h);
    case Submit(r, h) => SubmitKeepsInv(s, r, h);
    case PreFail(id, canceled) => PreFailKeepsInv(s, id, canceled);
    case EnterRun(id) => EnterRunKeepsInv(s, id);
    case EnterClose => EnterCloseKeepsInv(s, t);
    case EndAccepted(h) =>
      ReleaseKeepsCounting(s, h);
      ReleaseKeepsCoverage(s, h);
      ReleaseKeepsOwnership(s, h);
    case CancelStart => CancelStartKeepsInv(s, t);
    case CancelMark => CancelMarkKeepsInv(s, t);
    case HandoffCount => HandoffCountKeepsInv(s, t);
    case HandoffClear => HandoffClearKeepsInv(s);
    case HandoffAccept => HandoffAcceptKeepsInv(s);
  }

  lemma QueueStepsKeepAccounts(s: State, e: Event)
    requires Enabled(s, e) && (e.CancelClear? || e.DrainStart? || e.DrainOne? || e.DrainEnd? || e.HandoffFilter?)
    ensures SameAccounts(s, Apply(s, e)) && Apply(s, e).pending == s.pending
  {
  }

  /** Steps of a turn or a report: they touch neither the accounts nor the lock nor the queue. */
  ghost predicate SameControl(s: State, t: State) {
    && SameAccounts(s, t) && t.lock == s.lock && t.pending == s.pending
    && t.core.queue == s.core.queue && t.nextId == s.nextId
  }

  lemma EndTurnKeepsControl(s: State, t: nat, p: Phase)
    requires t in s.frames
    ensures SameControl(s, EndTurn(s, t, p))
  {
  }

  lemma EmitKeepsControl(s: State, r: RunID)
    requires r in s.owed
    ensures SameControl(s, DoEmit(s, r))
    ensures DoEmit(s, r).frames == s.frames && DoEmit(s, r).core == s.core
  {
  }

  lemma ReturnKeepsControl(s: State, r: RunID, failed: bool)
    ensures SameControl(s, DoCoordReturn(s, r, failed))
    ensures DoCoordReturn(s, r, failed).frames == s.frames && DoCoordReturn(s, r, failed).core == s.core
  {
  }

  lemma TurnStepsKeepControl(s: State, e: Event)
    requires Enabled(s, e)
    requires e.TurnFail? || e.TurnRelease? || e.Cleanup? || e.Emit? || e.CoordReturn?
    ensures SameControl(s, Apply(s, e))
    ensures e.Emit? || e.CoordReturn? ==> Apply(s, e).frames == s.frames && Apply(s, e).core == s.core
  {
    match e
    case TurnFail(t) => EndTurnKeepsControl(s, t, Failed);
    case Emit(r) => EmitKeepsControl(s, r);
    case CoordReturn(r, failed) => ReturnKeepsControl(s, r, failed);
    case _ =>
  }

  lemma StepKeepsInv(s: State, e: Event)
    requires Inv(s) && Enabled(s, e)
    ensures Inv(Apply(s, e))
  {
    if Accounting(e) {
      AccountingKeepsInv(s, e);
    } else {
      if e.CancelClear? || e.DrainStart? || e.DrainOne? || e.DrainEnd? || e.HandoffFilter? {
        QueueStepsKeepAccounts(s, e);
      } else {
        TurnStepsKeepControl(s, e);
      }
      SameAccountsKeepInv(s, Apply(s, e));
    }
  }

  lemma {:induction false} InvAlways(es: seq<Event>)
    requires After(es).Some?
    ensures Inv(After(es).value)
  {
    if es != [] {
      InvAlways(es[..|es| - 1]);
      StepKeepsInv(After(es[..|es| - 1]).value, es[|es| - 1]);
    }
  }

  /* ---- What a run shows from outside ---- */

  /** Step i of the run stamps handle h of this session. */
  ghost predicate Born(es: seq<Event>, i: nat, h: nat) {
    i < |es| && (es[i].Begin? || es[i].HandoffAccept?) &&
    After(es[..i]).Some? && h == After(es[..i]).value.core.gen + 1
  }

  /** Before step n, some Cancel read the generation after h was stamped. */
  ghost predicate CanceledBefore(es: seq<Event>, n: nat, h: nat) {
    exists i: nat, k: nat :: i < k < n && k < |es| && Born(es, i, h) && es[k].CancelStart?
  }

  ghost predicate BornBefore(es: seq<Event>, n: nat, h: nat) {
    exists i: nat :: i < n && Born(es, i, h)
  }

  lemma StepAt(es: seq<Event>, n: nat)
    requires n < |es| && After(es[..n + 1]).Some?
    ensures After(es[..n]).Some? && Enabled(After(es[..n]).value, es[n])
    ensures After(es[..n + 1]).value == Apply(After(es[..n]).value, es[n])
  {
    assert es[..n + 1][..n] == es[..n];
  }

  /** What step m adds to the handles and to those a Cancel has seen. */
  lemma StepAdds(es: seq<Event>, m: nat, h: nat) returns (s: State)
    requires m < |es| && After(es[..m + 1]).Some?
    ensures After(es[..m]) == Some(s)
    ensures h in After(es[..m + 1]).value.handles <==> h in s.handles || Born(es, m, h)
    ensures h in After(es[..m + 1]).value.seenByCancel <==> if es[m].CancelStart? then h in s.handles else h in s.seenByCancel
  {
    StepAt(es, m);
    InvAlways(es[..m]);
    s := After(es[..m]).value;
    KeysAndSeenStep(s, es[m]);
  }

  lemma {:induction false} HandlesAreBorn(es: seq<Event>, n: nat, h: nat, s: State)
    requires n <= |es| && After(es[..n]) == Some(s)
    ensures h in s.handles <==> BornBefore(es, n, h)
  {
    if n == 0 {
      assert es[..n] == [];
    } else {
      var u := StepAdds(es, n - 1, h);
      HandlesAreBorn(es, n - 1, h, u);
      OneMoreBirth(es, n - 1, h);
    }
  }

  lemma {:induction false} SeenAreCanceled(es: seq<Event>, n: nat, h: nat, s: State)
    requires n <= |es| && After(es[..n]) == Some(s)
    ensures h in s.seenByCancel <==> CanceledBefore(es, n, h)
  {
    if n == 0 {
      assert es[..n] == [];
    } else {
      var u := StepAdds(es, n - 1, h);
      HandlesAreBorn(es, n - 1, h, u);
      SeenAreCanceled(es, n - 1, h, u);
      OneMoreCancel(es, n - 1, h);
    }
  }

  /** The history variables say what the run shows. */
  lemma HistoryIsTrue(es: seq<Event>, n: nat)
    requires n <= |es| && After(es[..n]).Some?
    ensures forall h :: h in After(es[..n]).value.handles <==> BornBefore(es, n, h)
    ensures forall h :: h in After(es[..n]).value.seenByCancel <==> CanceledBefore(es, n, h)
  {
    var s := After(es[..n]).value;
    forall h ensures h in s.handles <==> BornBefore(es, n, h) { HandlesAreBorn(es, n, h, s); }
    forall h ensures h in s.seenByCancel <==> CanceledBefore(es, n, h) { SeenAreCanceled(es, n, h, s); }
  }

  ghost predicate KeysAndSeen(s: State, e: Event, t: State) {
    && t.handles.Keys == s.handles.Keys + (if e.Begin? || e.HandoffAccept? then {s.core.gen + 1} else {})
    && t.seenByCancel == if e.CancelStart? then s.handles.Keys else s.seenByCancel
  }

  lemma PendingKeysAndSeen(s: State, e: Event)
    requires Ownership(s) && Enabled(s, e) && (e.Submit? || e.PreFail? || e.EnterRun?)
    ensures KeysAndSeen(s, e, Apply(s, e))
  {
    if e.EnterRun? { BranchKeepsAccounts(s, e.id); }
  }

  lemma AccountingKeysAndSeen(s: State, e: Event)
    requires Ownership(s) && Enabled(s, e) && Accounting(e) && !(e.Submit? || e.PreFail? || e.EnterRun?)
    ensures KeysAndSeen(s, e, Apply(s, e))
  {
  }

  lemma KeysAndSeenStep(s: State, e: Event)
    requires Ownership(s) && Enabled(s, e)
    ensures KeysAndSeen(s, e, Apply(s, e))
  {
    if e.Submit? || e.PreFail? || e.EnterRun? {
      PendingKeysAndSeen(s, e);
    } else if Accounting(e) {
      AccountingKeysAndSeen(s, e);
    } else if e.CancelClear? || e.DrainStart? || e.DrainOne? || e.DrainEnd? || e.HandoffFilter? {
      QueueStepsKeepAccounts(s, e);
    } else {
      TurnStepsKeepControl(s, e);
    }
  }

  lemma OneMoreBirth(es: seq<Event>, m: nat, h: nat)
    ensures BornBefore(es, m + 1, h) <==> BornBefore(es, m, h) || Born(es, m, h)
  {
  }

  lemma OneMoreCancel(es: seq<Event>, m: nat, h: nat)
    requires m < |es|
    ensures CanceledBefore(es, m + 1, h) <==>
            CanceledBefore(es, m, h) || (es[m].CancelStart? && BornBefore(es, m, h))
  {
    if CanceledBefore(es, m, h) {
      var i: nat, k: nat :| i < k < m && k < |es| && Born(es, i, h) && es[k].CancelStart?;
      assert i < k < m + 1;
    }
    if es[m].CancelStart? && BornBefore(es, m, h) {
      var i: nat :| i < m && Born(es, i, h);
      assert i < m < m + 1;
    }
  }

  /**
  Exact cancel coverage. At the moment a tracked call enters Run, it takes the cancel-on-entry
  branch iff some Cancel of its session read the generation after the call's accept: one Cancel
  covers every call in flight, and no call accepted later is poisoned.
  */
  lemma ExactCancelCoverage(es: seq<Event>, id: nat)
    requires After(es).Some? && Enabled(After(es).value, EnterRun(id))
    requires After(es).value.pending[id].handle != 0
    ensures var s := After(es).value; var h := s.pending[id].handle;
            Decide(s.core, h) == CancelOnEntry <==> CanceledBefore(es, |es|, h)
  {
    InvAlways(es);
    assert es[..|es|] == es;
    SeenAreCanceled(es, |es|, After(es).value.pending[id].handle, After(es).value);
  }

  /** No step lowers the mark while a handle it covers is open. */
  lemma MarkOutlivesItsHandles(s: State, e: Event, h: nat)
    requires Reachable(s) && Enabled(s, e)
    requires Apply(s, e).core.mark < s.core.mark
    requires h in s.handles && s.handles[h] in {Reserved, Attached, Entered, Abandoned}
    ensures s.core.mark < h
  {
    var es :| After(es) == Some(s);
    InvAlways(es);
    match e
    case EndAccepted(g) => LastReleaseIsAlone(s, g);
    case HandoffClear =>
    case _ => MarkFalls(s, e);
  }

  /** Only the last release and the handoff's idle branch can lower the mark. */
  lemma MarkFalls(s: State, e: Event)
    requires Enabled(s, e) && !e.EndAccepted? && !e.HandoffClear?
    ensures Apply(s, e).core.mark >= s.core.mark
  {
    if e.CancelClear? || e.DrainStart? || e.DrainOne? || e.DrainEnd? || e.HandoffFilter? {
      QueueStepsKeepAccounts(s, e);
    } else if !Accounting(e) {
      TurnStepsKeepControl(s, e);
    }
  }
}
