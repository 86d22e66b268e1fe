/**
`sessionAgent` itself: the maps it updates in place and its critical sections, each proved to
act on one session as the functions of module Dispatch do, and to leave other sessions alone.
*/
module SessionAgents {
  import opened Common
  import opened Dispatch
  import Tracked = DispatchTracked

  type SessionID = string

  /** An accept reservation; done is the atomic flag that makes Close idempotent. */
  class AcceptedRun {
    const sessionID: SessionID
    const acceptSeq: nat
    var done: bool

    constructor (sessionID: SessionID, acceptSeq: nat)
      ensures this.sessionID == sessionID && this.acceptSeq == acceptSeq && !done
    {
      this.sessionID, this.acceptSeq, done := sessionID, acceptSeq, false;
    }
  }

  class SessionAgent {
    var acceptedRuns: map<SessionID, nat>
    var cancelMark: map<SessionID, nat>
    var acceptSeqGen: nat
    var messageQueue: map<SessionID, seq<Call>>
    var activeRequests: map<SessionID, nat>

    /** The session's data as the state machine sees it. */
    ghost function View(s: SessionID): Core
      reads this
    {
      Core(acceptSeqGen,
           if s in acceptedRuns then acceptedRuns[s] else 0,
           if s in cancelMark then cancelMark[s] else 0,
           if s in messageQueue then messageQueue[s] else [],
           if s in activeRequests then Some(activeRequests[s]) else None)
    }

    constructor ()
      ensures forall s :: View(s) == INITIAL.core
    {
      acceptedRuns, cancelMark, messageQueue, activeRequests := map[], map[], map[], map[];
      acceptSeqGen := 0;
    }

    /** Every other session sees at most the generation move. */
    twostate predicate OthersKept(s: SessionID)
      reads this
    {
      forall o: SessionID :: o != s ==> View(o) == old(View(o)).(gen := acceptSeqGen)
    }

    method BeginAccepted(s: SessionID) returns (r: AcceptedRun)
      modifies this`acceptedRuns, this`acceptSeqGen
      ensures fresh(r) && r.sessionID == s && r.acceptSeq == acceptSeqGen && !r.done
      ensures View(s) == Accept(old(View(s))) && OthersKept(s)
    {
      var count := if s in acceptedRuns then acceptedRuns[s] else 0;
      acceptedRuns := acceptedRuns[s := count + 1];
      acceptSeqGen := acceptSeqGen + 1;
      r := new AcceptedRun(s, acceptSeqGen);
    }

    method EndAccepted(s: SessionID)
      modifies this`acceptedRuns, this`cancelMark
      ensures View(s) == Release(old(View(s))) && OthersKept(s)
    {
      if s !in acceptedRuns || acceptedRuns[s] <= 1 {
        acceptedRuns := acceptedRuns - {s};
        cancelMark := cancelMark - {s};
        return;
      }
      acceptedRuns := acceptedRuns[s := acceptedRuns[s] - 1];
    }

    /** Only the first Close of a reservation releases it. */
    method Close(r: AcceptedRun)
      modifies r, this`acceptedRuns, this`cancelMark
      ensures r.done && OthersKept(r.sessionID)
      ensures View(r.sessionID) == if old(r.done) then old(View(r.sessionID)) else Release(old(View(r.sessionID)))
    {
      if r.done { return; }
      r.done := true;
      EndAccepted(r.sessionID);
    }

    method CanceledBySeq(s: SessionID, acceptSeq: nat) returns (covered: bool)
      ensures covered == Covered(View(s).mark, acceptSeq)
    {
      if s !in cancelMark || cancelMark[s] == 0 { return false; }
      covered := acceptSeq == 0 || acceptSeq <= cancelMark[s];
    }

    method EnqueueCall(s: SessionID, runID: RunID, accepted: AcceptedRun?)
      modifies this`messageQueue
      ensures var c := Call(runID, if accepted == null then 0 else accepted.acceptSeq);
              View(s) == old(View(s)).(queue := old(View(s)).queue + [c])
      ensures OthersKept(s)
    {
      var existing := if s in messageQueue then messageQueue[s] else [];
      messageQueue := messageQueue[s := existing + [Call(runID, if accepted == null then 0 else accepted.acceptSeq)]];
    }

    /**
    The three-way dispatch of Run, from taking the session mutex to dropping it: the decision is
    Decide's, the effect is Enter's, and the reservation is released exactly once.
    */
    method Dispatch(s: SessionID, runID: RunID, accepted: AcceptedRun?, token: nat) returns (branch: Branch)
      requires accepted != null ==> accepted.sessionID == s && accepted.acceptSeq > 0 && !accepted.done
      modifies this, accepted
      ensures var h := if accepted == null then 0 else accepted.acceptSeq;
              var entered := Enter(old(View(s)), runID, h, token);
              && branch == Decide(old(View(s)), h)
              && View(s) == if accepted == null then entered else Release(entered)
      ensures OthersKept(s) && (accepted != null ==> accepted.done)
    {
      if accepted != null {
        var covered := CanceledBySeq(s, accepted.acceptSeq);
        if covered {
          Close(accepted);
          return CancelOnEntry;
        }
      }
      if s in activeRequests {
        EnqueueCall(s, runID, accepted);
        branch := Enqueue;
      } else {
        activeRequests := activeRequests[s := token];
        branch := Activate;
      }
      if accepted != null { Close(accepted); }
    }

    /**
    Cancel, run without interleaving: cancel the active run's context, read, raise, clear. The run
    whose context is cancelled and the dropped calls are returned.
    */
    method Cancel(s: SessionID) returns (canceled: Option<nat>, dropped: seq<Call>)
      modifies this`cancelMark, this`messageQueue
      ensures canceled == old(View(s)).active && View(s).active == old(View(s)).active
      ensures var was := old(View(s));
              View(s) == RaiseMark(was, was.count > 0, was.gen).(queue := []) && dropped == was.queue
      ensures OthersKept(s)
    {
      canceled := if s in activeRequests then Some(activeRequests[s]) else None;
      var count := if s in acceptedRuns then acceptedRuns[s] else 0;
      var mark := acceptSeqGen;
      if s in acceptedRuns && count > 0 {
        var existing := if s in cancelMark then cancelMark[s] else 0;
        cancelMark := cancelMark[s := Max(existing, mark)];
      }
      dropped := if s in messageQueue then messageQueue[s] else [];
      if |dropped| > 0 {
        messageQueue := messageQueue - {s};
      }
    }

    /** The loop of the drain. */
    method SortQueue(s: SessionID, queued: seq<Call>) returns (fold: seq<Call>, keep: seq<Call>, drops: seq<Call>)
      ensures var mark := View(s).mark;
              && fold == Select({Fold}, mark, queued) && keep == Select({Keep}, mark, queued) && drops == Drops(mark, queued)
      ensures DrainedInto(View(s).mark, queued, fold, keep, drops)
    {
      ghost var mark := View(s).mark;
      fold, keep, drops := [], [], [];
      for i := 0 to |queued|
        invariant fold == Select({Fold}, mark, queued[..i]) && keep == Select({Keep}, mark, queued[..i])
        invariant drops == Drops(mark, queued[..i])
      {
        SelectNext({Fold}, mark, queued, i);
        SelectNext({Keep}, mark, queued, i);
        SelectNext({Report}, mark, queued, i);
        var covered := CanceledBySeq(s, queued[i].acceptSeq);
        if covered {
          if queued[i].runID != "" { drops := drops + [queued[i]]; }
        } else if queued[i].runID != "" {
          keep := keep + [queued[i]];
        } else {
          fold := fold + [queued[i]];
        }
      }
      assert queued[..|queued|] == queued;
      DrainSorts(mark, queued);
    }

    /**
    The per-step drain: one pass that folds the calls nobody waits for into the running turn, leaves
    those with a RunID in the queue, and drops the cancelled ones, reporting those with a RunID.
    */
    method DrainQueueForStep(s: SessionID) returns (fold: seq<Call>, canceledWithRunID: seq<Call>)
      modifies this`messageQueue
      ensures var was := old(View(s));
              && fold == Select({Fold}, was.mark, was.queue)
              && canceledWithRunID == Drops(was.mark, was.queue)
              && View(s) == was.(queue := Select({Keep}, was.mark, was.queue))
      ensures DrainedInto(old(View(s)).mark, old(View(s)).queue, fold, View(s).queue, canceledWithRunID)
      ensures OthersKept(s)
    {
      var queued := if s in messageQueue then messageQueue[s] else [];
      var keep;
      fold, keep, canceledWithRunID := SortQueue(s, queued);
      if |keep| == 0 {
        messageQueue := messageQueue - {s};
      } else {
        messageQueue := messageQueue[s := keep];
      }
      assert View(s).queue == keep;
    }

    /** The loop of the end-of-turn filter: covered calls go, and those with a RunID are reported. */
    static method FilterCovered(mark: nat, queued: seq<Call>) returns (kept: seq<Call>, dropped: seq<Call>)
      requires mark > 0
      ensures kept == Survivors(mark, queued) && dropped == Drops(mark, queued)
    {
      kept, dropped := [], [];
      for i := 0 to |queued|
        invariant kept == Survivors(mark, queued[..i]) && dropped == Drops(mark, queued[..i])
      {
        SelectNext({Fold, Keep}, mark, queued, i);
        SelectNext({Report}, mark, queued, i);
        var q := queued[i];
        if q.acceptSeq == 0 || q.acceptSeq <= mark {
          if q.runID != "" { dropped := dropped + [q]; }
        } else {
          kept := kept + [q];
        }
      }
      assert queued[..|queued|] == queued;
    }

    /** The end-of-turn filter and dequeue: None when nothing is left to run. */
    method TakeNext(s: SessionID) returns (next: Option<Call>, dropped: seq<Call>)
      modifies this`messageQueue
      ensures var was := old(View(s));
              var kept := Survivors(was.mark, was.queue);
              && dropped == Drops(was.mark, was.queue)
              && next == (if kept == [] then None else Some(kept[0]))
              && View(s) == was.(queue := if kept == [] then [] else kept[1..])
      ensures OthersKept(s)
    {
      var queued := if s in messageQueue then messageQueue[s] else [];
      dropped := [];
      if s in cancelMark && cancelMark[s] > 0 && |queued| > 0 {
        queued, dropped := FilterCovered(cancelMark[s], queued);
        messageQueue := messageQueue[s := queued];
      } else {
        NothingDropped(queued);
      }
      if |queued| == 0 {
        messageQueue := messageQueue - {s};
        return None, dropped;
      }
      next := Some(queued[0]);
      messageQueue := messageQueue[s := queued[1..]];
    }

    /** Deferred cleanup of a run: it removes the entry only while the entry is its own token. */
    method DeferredCleanup(s: SessionID, token: nat) returns (deleted: bool)
      modifies this`activeRequests
      ensures View(s) == old(View(s)).(active := CompareAndDelete(old(View(s)).active, token))
      ensures deleted <==> old(View(s)).active == Some(token)
      ensures OthersKept(s)
    {
      if s !in activeRequests || activeRequests[s] != token { return false; }
      activeRequests := activeRequests - {s};
      deleted := true;
    }
  }

  lemma {:induction false} SelectAppend(vs: set<Verdict>, mark: nat, queue: seq<Call>, q: Call)
    ensures Select(vs, mark, queue + [q]) == Select(vs, mark, queue) + if Judge(mark, q) in vs then [q] else []
  {
    if queue == [] {
      assert (queue + [q])[1..] == [] && Select(vs, mark, []) == [];
    } else {
      HeadOfJoin(queue, [q]);
      SelectAppend(vs, mark, queue[1..], q);
      Reassociate(if Judge(mark, queue[0]) in vs then [queue[0]] else [], Select(vs, mark, queue[1..]),
                  if Judge(mark, q) in vs then [q] else []);
    }
  }

  lemma SelectNext(vs: set<Verdict>, mark: nat, queue: seq<Call>, i: nat)
    requires i < |queue|
    ensures Select(vs, mark, queue[..i + 1]) ==
            Select(vs, mark, queue[..i]) + if Judge(mark, queue[i]) in vs then [queue[i]] else []
  {
    assert queue[..i + 1] == queue[..i] + [queue[i]];
    SelectAppend(vs, mark, queue[..i], queue[i]);
  }

  /** Without a mark the filter is the identity, which is why the handoff may skip it. */
  lemma {:induction false} NothingDropped(queue: seq<Call>)
    ensures Survivors(0, queue) == queue && Drops(0, queue) == []
  {
    if queue != [] { NothingDropped(queue[1..]); }
  }

  /* ---- The drain is an order-preserving partition ---- */

  lemma {:induction false} SelectKeepsOrder(vs: set<Verdict>, mark: nat, queue: seq<Call>)
    ensures Subsequence(Select(vs, mark, queue), queue)
  {
    if queue != [] {
      var rest := Select(vs, mark, queue[1..]);
      SelectKeepsOrder(vs, mark, queue[1..]);
      assert ([queue[0]] + rest)[1..] == rest && [] + rest == rest;
    }
  }

  /** Where the calls of a queue go when the cancel mark is mark, each as often as it is queued, in queue order. */
  ghost predicate DrainedInto(mark: nat, queue: seq<Call>, fold: seq<Call>, keep: seq<Call>, report: seq<Call>) {
    && Subsequence(fold, queue) && Subsequence(keep, queue) && Subsequence(report, queue)
    && forall q: Call ::
         var covered := mark != 0 && (q.acceptSeq == 0 || q.acceptSeq <= mark);
         && multiset(fold)[q] == (if !covered && q.runID == "" then multiset(queue)[q] else 0)
         && multiset(keep)[q] == (if !covered && q.runID != "" then multiset(queue)[q] else 0)
         && multiset(report)[q] == (if covered && q.runID != "" then multiset(queue)[q] else 0)
  }

  /** The same for the filter of the handoff, which keeps what is not covered. */
  ghost predicate FilteredInto(mark: nat, queue: seq<Call>, kept: seq<Call>, report: seq<Call>) {
    && Subsequence(kept, queue) && Subsequence(report, queue)
    && forall q: Call ::
         var covered := mark != 0 && (q.acceptSeq == 0 || q.acceptSeq <= mark);
         && multiset(kept)[q] == (if !covered then multiset(queue)[q] else 0)
         && multiset(report)[q] == (if covered && q.runID != "" then multiset(queue)[q] else 0)
  }

  /** How often a queued call is in each of the selections. */
  lemma SortedTimes(mark: nat, queue: seq<Call>, q: Call)
    ensures var covered := mark != 0 && (q.acceptSeq == 0 || q.acceptSeq <= mark);
            && multiset(Select({Fold}, mark, queue))[q] == (if !covered && q.runID == "" then multiset(queue)[q] else 0)
            && multiset(Select({Keep}, mark, queue))[q] == (if !covered && q.runID != "" then multiset(queue)[q] else 0)
            && multiset(Survivors(mark, queue))[q] == (if !covered then multiset(queue)[q] else 0)
            && multiset(Drops(mark, queue))[q] == (if covered && q.runID != "" then multiset(queue)[q] else 0)
  {
    Tracked.SelectedTimes({Fold}, mark, queue, q);
    Tracked.SelectedTimes({Keep}, mark, queue, q);
    Tracked.SelectedTimes({Fold, Keep}, mark, queue, q);
    Tracked.SelectedTimes({Report}, mark, queue, q);
  }

  /** The drain's three parts. */
  lemma DrainSorts(mark: nat, queue: seq<Call>)
    ensures DrainedInto(mark, queue, Select({Fold}, mark, queue), Select({Keep}, mark, queue), Drops(mark, queue))
  {
    SelectKeepsOrder({Fold}, mark, queue);
    SelectKeepsOrder({Keep}, mark, queue);
    SelectKeepsOrder({Report}, mark, queue);
    forall q: Call { SortedTimes(mark, queue, q); }
  }

  /** The handoff keeps, in order, every call that the mark does not cover, and reports the covered ones with a RunID. */
  lemma FilterSorts(mark: nat, queue: seq<Call>)
    ensures FilteredInto(mark, queue, Survivors(mark, queue), Drops(mark, queue))
  {
    SelectKeepsOrder({Fold, Keep}, mark, queue);
    SelectKeepsOrder({Report}, mark, queue);
    forall q: Call { SortedTimes(mark, queue, q); }
  }

  /** The selection when the mark may differ from call to call: marks[i] is the mark that call i meets. */
  function SelectBy(vs: set<Verdict>, marks: seq<nat>, queue: seq<Call>): seq<Call>
    requires |marks| == |queue|
  {
    if queue == [] then []
    else (if Judge(marks[0], queue[0]) in vs then [queue[0]] else []) + SelectBy(vs, marks[1..], queue[1..])
  }

  lemma {:induction false} SelectByKeepsOrder(vs: set<Verdict>, marks: seq<nat>, queue: seq<Call>)
    requires |marks| == |queue|
    ensures Subsequence(SelectBy(vs, marks, queue), queue)
  {
    if queue != [] {
      var rest := SelectBy(vs, marks[1..], queue[1..]);
      SelectByKeepsOrder(vs, marks[1..], queue[1..]);
      assert ([queue[0]] + rest)[1..] == rest && [] + rest == rest;
    }
  }

  /** The four parts of a queue taken together. */
  function Parts(marks: seq<nat>, queue: seq<Call>): multiset<Call>
    requires |marks| == |queue|
  {
    multiset(SelectBy({Fold}, marks, queue)) + multiset(SelectBy({Keep}, marks, queue)) +
    multiset(SelectBy({Report}, marks, queue)) + multiset(SelectBy({Discard}, marks, queue))
  }

  lemma FirstPart(v: Verdict, marks: seq<nat>, queue: seq<Call>)
    requires |marks| == |queue| && queue != []
    ensures multiset(SelectBy({v}, marks, queue)) ==
            if Judge(marks[0], queue[0]) == v then multiset(SelectBy({v}, marks[1..], queue[1..])) + multiset{queue[0]}
            else multiset(SelectBy({v}, marks[1..], queue[1..]))
  {
    assert [] + SelectBy({v}, marks[1..], queue[1..]) == SelectBy({v}, marks[1..], queue[1..]);
  }

  lemma OneIsAdded(a: multiset<Call>, b: multiset<Call>, c: multiset<Call>, d: multiset<Call>, x: multiset<Call>)
    ensures (a + x) + b + c + d == a + b + c + d + x && a + (b + x) + c + d == a + b + c + d + x
    ensures a + b + (c + x) + d == a + b + c + d + x && a + b + c + (d + x) == a + b + c + d + x
  {
  }

  lemma FirstPartAdds(marks: seq<nat>, queue: seq<Call>)
    requires |marks| == |queue| && queue != []
    ensures Parts(marks, queue) == Parts(marks[1..], queue[1..]) + multiset{queue[0]}
  {
    var m, q := marks[1..], queue[1..];
    FirstPart(Fold, marks, queue);
    FirstPart(Keep, marks, queue);
    FirstPart(Report, marks, queue);
    FirstPart(Discard, marks, queue);
    OneIsAdded(multiset(SelectBy({Fold}, m, q)), multiset(SelectBy({Keep}, m, q)), multiset(SelectBy({Report}, m, q)),
               multiset(SelectBy({Discard}, m, q)), multiset{queue[0]});
  }

  lemma HeadAndRest(queue: seq<Call>)
    requires queue != []
    ensures multiset(queue) == multiset(queue[1..]) + multiset{queue[0]}
  {
    assert queue == [queue[0]] + queue[1..];
  }

  lemma {:induction false} PartsAreAll(marks: seq<nat>, queue: seq<Call>)
    requires |marks| == |queue|
    ensures multiset(queue) == Parts(marks, queue)
  {
    if queue != [] {
      PartsAreAll(marks[1..], queue[1..]);
      FirstPartAdds(marks, queue);
      HeadAndRest(queue);
    }
  }

  /**
  The drain is an order-preserving partition, whatever mark each call meets, so also when a release
  drops the mark in the middle of it: every queued call is folded, kept, reported as cancelled
  or discarded, exactly once, and each part is in queue order.
  */
  lemma DrainIsAPartition(marks: seq<nat>, queue: seq<Call>)
    requires |marks| == |queue|
    ensures multiset(queue) == Parts(marks, queue)
    ensures forall v :: Subsequence(SelectBy({v}, marks, queue), queue)
  {
    PartsAreAll(marks, queue);
    forall v ensures Subsequence(SelectBy({v}, marks, queue), queue) {
      SelectByKeepsOrder({v}, marks, queue);
    }
  }

  /** With one mark throughout, that is what DrainQueueForStep's loop selects. */
  lemma {:induction false} OneMark(vs: set<Verdict>, mark: nat, marks: seq<nat>, queue: seq<Call>)
    requires |marks| == |queue| && forall i | 0 <= i < |marks| :: marks[i] == mark
    ensures SelectBy(vs, marks, queue) == Select(vs, mark, queue)
  {
    if queue != [] { OneMark(vs, mark, marks[1..], queue[1..]); }
  }

  /** The machine's drain, when call i meets mark marks[i]. */
  function Drained(s: State, marks: seq<nat>): State
    decreases |marks|
  {
    if marks != [] && s.lock.Draining? && s.lock.todo != []
    then Drained(DoDrainOne(s.(core := s.core.(mark := marks[0]))), marks[1..]) else s
  }

  /** The machine's step-by-step drain computes those parts, whatever mark each step meets. */
  lemma {:induction false} DrainStepsAgree(s: State, marks: seq<nat>)
    requires s.lock.Draining? && |marks| == |s.lock.todo|
    ensures var l := s.lock;
            Drained(s, marks).lock == Draining([], l.keep + SelectBy({Keep}, marks, l.todo), l.drops + SelectBy({Report}, marks, l.todo))
    decreases |marks|
  {
    if marks != [] {
      var q, rest, m := s.lock.todo[0], s.lock.todo[1..], marks[1..];
      DrainStepsAgree(DoDrainOne(s.(core := s.core.(mark := marks[0]))), m);
      Reassociate(s.lock.keep, [q], SelectBy({Keep}, m, rest));
      Reassociate(s.lock.drops, [q], SelectBy({Report}, m, rest));
      assert [] + SelectBy({Keep}, m, rest) == SelectBy({Keep}, m, rest) && [] + SelectBy({Report}, m, rest) == SelectBy({Report}, m, rest);
    } else {
      assert s.lock.todo == [] && s.lock.keep + [] == s.lock.keep && s.lock.drops + [] == s.lock.drops;
    }
  }
}
