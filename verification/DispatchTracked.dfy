/** What the queue does with a call that was submitted with a reservation, and how a stale mark ends. */
module DispatchTracked {
  import opened Common
  import opened Dispatch
  import Cancel = DispatchCancel
  import Queue = DispatchQueue
  import Terminal = DispatchTerminal

  /* ---- The verdicts, read off the call ---- */

  /** A mark covers a call that was accepted no later, or never. */
  lemma VerdictsOnFields(mark: nat, q: Call)
    ensures var covered := mark > 0 && q.acceptSeq <= mark;
            && (Judge(mark, q) == Fold <==> !covered && q.runID == "")
            && (Judge(mark, q) == Keep <==> !covered && q.runID != "")
            && (Judge(mark, q) == Report <==> covered && q.runID != "")
            && (Judge(mark, q) == Discard <==> covered && q.runID == "")
  {
  }

  lemma {:induction false} SelectedTimes(vs: set<Verdict>, mark: nat, queue: seq<Call>, q: Call)
    ensures multiset(Select(vs, mark, queue))[q] == if Judge(mark, q) in vs then multiset(queue)[q] else 0
  {
    if queue != [] {
      var head, rest := if Judge(mark, queue[0]) in vs then [queue[0]] else [], Select(vs, mark, queue[1..]);
      SelectedTimes(vs, mark, queue[1..], q);
      assert queue == [queue[0]] + queue[1..];
      assert multiset(head + rest) == multiset(head) + multiset(rest);
    }
  }

  /* ---- Calls submitted with a reservation ---- */

  /** The calls named r carry a sequence, and none of them was dropped by the drain under way. */
  ghost predicate Tracked(s: State, r: RunID) {
    && (forall id | id in s.pending && s.pending[id].runID == r :: s.pending[id].handle != 0)
    && Sequenced(s.core.queue, r)
    && (s.lock.Draining? ==>
          Sequenced(s.lock.todo, r) && Sequenced(s.lock.keep, r) && forall q | q in s.lock.drops :: q.runID != r)
  }

  predicate Sequenced(queue: seq<Call>, r: RunID) {
    forall q | q in queue && q.runID == r :: q.acceptSeq != 0
  }

  lemma AbsentIn(queue: seq<Call>, r: RunID)
    requires r != "" && Terminal.Occ(queue, r) == 0
    ensures forall q | q in queue :: q.runID != r
  {
    Terminal.OccIsMembership(queue, r);
  }

  /** Before it is submitted a RunID is nowhere. */
  lemma NotYetSubmitted(s: State, r: RunID)
    requires Terminal.Inv(s, r) && r != "" && r !in s.place
    ensures Tracked(s, r) && forall id | id in s.pending :: s.pending[id].runID != r
  {
    AbsentIn(s.core.queue, r);
    if s.lock.Draining? {
      AbsentIn(s.lock.keep, r);
      AbsentIn(s.lock.drops, r);
      AbsentIn(s.lock.todo, r);
    }
  }

  lemma SubmitTracks(s: State, r: RunID, h: nat)
    requires Terminal.Inv(s, r) && r != "" && r !in s.place && h != 0
    ensures Tracked(DoSubmit(s, r, h), r)
  {
    NotYetSubmitted(s, r);
  }

  lemma EntryKeepsTracked(s: State, id: nat, r: RunID)
    requires Tracked(s, r) && s.lock == Free && id in s.pending
    ensures Tracked(DoEnter(s, id), r)
  {
  }

  /** Steps outside the queue. */
  lemma AcceptKeepsTracked(s: State, e: Event, r: RunID)
    requires Tracked(s, r) && Enabled(s, e) && Cancel.Accounting(e) && !e.EnterRun? && !e.HandoffAccept?
    requires e.Submit? ==> e.runID != r
    ensures Tracked(Apply(s, e), r)
  {
  }

  lemma HandoffKeepsTracked(s: State, r: RunID)
    requires Tracked(s, r) && s.lock.HandoffNext? && s.lock.token in s.frames
    ensures Tracked(DoHandoffAccept(s), r)
  {
  }

  /** A drain does not drop it: the mark is below the sequence of every tracked call in the queue. */
  lemma QueueStepKeepsTracked(s: State, e: Event, r: RunID)
    requires Tracked(s, r) && Queue.QueueInv(s) && Enabled(s, e)
    requires e.CancelClear? || e.DrainStart? || e.DrainOne? || e.DrainEnd? || e.HandoffFilter?
    ensures Tracked(Apply(s, e), r)
  {
    Queue.SelectedAreQueued({Fold, Keep}, s.core.mark, s.core.queue);
    if e.DrainOne? { VerdictsOnFields(s.core.mark, s.lock.todo[0]); }
  }

  lemma StepKeepsTracked(s: State, e: Event, r: RunID)
    requires Tracked(s, r) && Queue.QueueInv(s) && Enabled(s, e) && (e.Submit? ==> e.runID != r)
    ensures Tracked(Apply(s, e), r)
  {
    if e.EnterRun? {
      EntryKeepsTracked(s, e.id, r);
    } else if e.HandoffAccept? {
      HandoffKeepsTracked(s, r);
    } else if Cancel.Accounting(e) {
      AcceptKeepsTracked(s, e, r);
    } else if e.CancelClear? || e.DrainStart? || e.DrainOne? || e.DrainEnd? || e.HandoffFilter? {
      QueueStepKeepsTracked(s, e, r);
    } else {
      Cancel.TurnStepsKeepControl(s, e);
    }
  }

  /** From its submission under a reservation on, a call stays tracked, wherever it is queued and dequeued. */
  lemma {:induction false} TrackedAlways(es: seq<Event>, n: nat, r: RunID)
    requires After(es).Some? && n < |es| && es[n].Submit? && es[n].runID == r && es[n].handle != 0 && r != ""
    ensures Tracked(After(es).value, r) && r in After(es).value.place
  {
    var m := |es| - 1;
    var s := After(es[..m]).value;
    Terminal.InvAlways(es[..m], r);
    Terminal.StepAccounted(s, es[m], r);
    if n == m {
      SubmitTracks(s, r, es[m].handle);
    } else {
      assert es[..m][n] == es[n];
      TrackedAlways(es[..m], n, r);
      Queue.QueueInvAlways(es[..m]);
      StepKeepsTracked(s, es[m], r);
    }
  }

  lemma AcceptOwesNothing(s: State, e: Event)
    requires Enabled(s, e) && Cancel.Accounting(e) && !e.EnterRun? && !e.HandoffClear? && !e.HandoffAccept?
    ensures Apply(s, e).owed == s.owed
  {
  }

  lemma RestOwesNothing(s: State, e: Event)
    requires Enabled(s, e) && (e.DrainStart? || e.DrainOne? || e.TurnRelease? || e.Cleanup? || e.Emit? || e.CoordReturn?)
    ensures Apply(s, e).owed.Keys <= s.owed.Keys
  {
  }

  lemma EntryOwesItsOwn(s: State, id: nat, r: RunID)
    requires id in s.pending && r in DoEnter(s, id).owed
    ensures r in s.owed || s.pending[id].runID == r
  {
  }

  lemma EndTurnOwesItsOwn(s: State, t: nat, p: Phase, r: RunID)
    requires t in s.frames && r in EndTurn(s, t, p).owed
    ensures r in s.owed || s.frames[t].runID == r
  {
  }

  /** A turn that ends owes its own event only, and its RunID is not queued. */
  lemma TurnsLeaveQueued(s: State, e: Event, r: RunID)
    requires Terminal.Inv(s, r) && r != "" && Enabled(s, e) && Terminal.At(s, r, AtQueue)
    requires e.TurnFail? || e.HandoffClear? || e.HandoffAccept?
    ensures r !in Apply(s, e).owed
  {
    if r in Apply(s, e).owed {
      match e
      case TurnFail(t) => EndTurnOwesItsOwn(s, t, Failed, r);
      case HandoffClear =>
        EndTurnOwesItsOwn(s.(core := if s.lock.idle then s.core.(mark := 0) else s.core, lock := Free), s.lock.token, Handed, r);
      case HandoffAccept => EndTurnOwesItsOwn(Readmit(s, s.lock.next), s.lock.token, Handed, r);
    }
  }

  /** The steps that commit to an event for a call that is queued. */
  lemma OnlyQueueStepsReport(s: State, e: Event, r: RunID)
    requires Terminal.Inv(s, r) && r != "" && Enabled(s, e) && Terminal.At(s, r, AtQueue) && r in Apply(s, e).owed
    ensures e.CancelClear? || e.DrainEnd? || e.HandoffFilter?
  {
    match e
    case TurnFail(_) | HandoffClear | HandoffAccept => TurnsLeaveQueued(s, e, r);
    case EnterRun(id) => EntryOwesItsOwn(s, id, r);
    case CancelClear | DrainEnd | HandoffFilter(_) =>
    case DrainStart(_) | DrainOne | TurnRelease(_) | Cleanup(_) | Emit(_) | CoordReturn(_, _) => RestOwesNothing(s, e);
    case _ => AcceptOwesNothing(s, e);
  }

  lemma DrainOwes(s: State, r: RunID)
    requires s.lock.Draining? && r in DoDrainEnd(s).owed
    ensures r in s.owed || exists q :: q in s.lock.drops && q.runID == r
  {
  }

  lemma HandoffOwes(s: State, t: nat, r: RunID)
    requires t in s.frames && r in DoHandoffFilter(s, t).owed
    ensures r in s.owed || exists q :: q in Drops(s.core.mark, s.core.queue) && q.runID == r
  {
  }

  lemma DrainReportsNoTracked(s: State, e: Event, r: RunID)
    requires Tracked(s, r) && Queue.QueueInv(s) && Enabled(s, e) && r !in s.owed && (e.DrainEnd? || e.HandoffFilter?)
    ensures r !in Apply(s, e).owed
  {
    if r in Apply(s, e).owed {
      if e.DrainEnd? {
        DrainOwes(s, r);
      } else {
        HandoffOwes(s, e.token, r);
        Queue.SelectedAreQueued({Report}, s.core.mark, s.core.queue);
      }
    }
  }

  /**
  Over every run: a call submitted with a reservation is dropped from the queue as cancelled by nothing
  but a Cancel that clears the queue. No drain and no handoff drops it, whatever mark is present.
  */
  lemma OnlyCancelDropsATracked(es: seq<Event>, n: nat, r: RunID, s: State, e: Event)
    requires After(es) == Some(s) && n < |es| && es[n].Submit? && es[n].runID == r && es[n].handle != 0 && r != ""
    requires Enabled(s, e) && Terminal.At(s, r, AtQueue) && r in Apply(s, e).owed
    ensures e.CancelClear?
  {
    TrackedAlways(es, n, r);
    Queue.QueueInvAlways(es);
    Terminal.InvAlways(es, r);
    OnlyQueueStepsReport(s, e, r);
    if e.DrainEnd? || e.HandoffFilter? { DrainReportsNoTracked(s, e, r); }
  }

  /* ---- How a stale mark ends ---- */

  /** An open handle is counted. */
  lemma CountSees(s: State, h: nat)
    requires Cancel.Counting(s) && h in s.handles && s.handles[h] == Closing
    ensures s.core.count > 0
  {
    assert h in Cancel.Counted(s.handles);
  }

  /**
  A mark that covers nothing in flight stays until something is accepted again, which it then does not
  cover, or until a handoff that found nothing in flight removes it.
  */
  lemma StaleMarkEndsIff(s: State, e: Event)
    requires Reachable(s) && Enabled(s, e) && Queue.Stale(s.core)
    ensures !Queue.Stale(Apply(s, e).core) <==> e.Begin? || e.HandoffAccept? || (e.HandoffClear? && s.lock.idle)
  {
    var es :| After(es) == Some(s);
    Cancel.InvAlways(es);
    match e
    case EndAccepted(h) => CountSees(s, h);
    case EnterRun(id) => Cancel.BranchKeepsAccounts(s, id);
    case CancelClear | DrainStart(_) | DrainOne | DrainEnd | HandoffFilter(_) => Cancel.QueueStepsKeepAccounts(s, e);
    case TurnFail(_) | TurnRelease(_) | Cleanup(_) | Emit(_) | CoordReturn(_, _) => Cancel.TurnStepsKeepControl(s, e);
    case Submit(_, _) | PreFail(_, _) | Refuse(_) | CloseUnentered(_) | EnterClose | OtherBegin => HandlesKeepTheMark(s, e);
    case _ =>
  }

  lemma HandlesKeepTheMark(s: State, e: Event)
    requires Enabled(s, e)
    requires e.Submit? || e.PreFail? || e.Refuse? || e.CloseUnentered? || e.EnterClose? || e.OtherBegin?
    ensures Apply(s, e).core.mark == s.core.mark && Apply(s, e).core.count == s.core.count
  {
  }
}
