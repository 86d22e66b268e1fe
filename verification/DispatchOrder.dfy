/** The queue is first in, first out: over every run no step reorders it, not even a drain that releases interleave with. */
module DispatchOrder {
  import opened Common
  import opened Dispatch
  import Cancel = DispatchCancel
  import Agents = SessionAgents

  /** What a drain has kept and what it has still to look at are, in order, a part of the queue. */
  ghost predicate DrainOrdered(s: State) {
    s.lock.Draining? ==> Subsequence(s.lock.keep + s.lock.todo, s.core.queue)
  }

  lemma DrainStartOrders(s: State)
    requires s.lock == Free
    ensures DrainOrdered(s.(lock := Draining(s.core.queue, [], [])))
  {
    assert [] + s.core.queue == s.core.queue;
    SubsequenceRefl(s.core.queue);
  }

  lemma DrainOneOrders(s: State)
    requires DrainOrdered(s) && s.lock.Draining? && s.lock.todo != []
    ensures DrainOrdered(DoDrainOne(s))
  {
    var q, rest, keep := s.lock.todo[0], s.lock.todo[1..], s.lock.keep;
    assert s.lock.todo == [q] + rest;
    Reassociate(keep, [q], rest);
    SubsequenceWithout(keep, q, rest, s.core.queue);
  }

  /** While a drain holds the mutex, the queue and what the drain has found change by its own steps only. */
  lemma DrainIsUndisturbed(s: State, e: Event)
    requires Enabled(s, e) && !e.DrainStart? && !e.DrainOne? && !e.DrainEnd?
    ensures Apply(s, e).lock.Draining? ==> s.lock.Draining? && Apply(s, e).lock == s.lock && Apply(s, e).core.queue == s.core.queue
  {
    if !Cancel.Accounting(e) && !e.CancelClear? && !e.HandoffFilter? {
      Cancel.TurnStepsKeepControl(s, e);
    } else if e.EnterRun? {
      EntryLeavesTheDrain(s, e.id);
    }
  }

  lemma EntryLeavesTheDrain(s: State, id: nat)
    requires s.lock == Free && id in s.pending
    ensures !DoEnter(s, id).lock.Draining?
  {
  }

  lemma {:induction false} DrainOrderedAlways(es: seq<Event>)
    requires After(es).Some?
    ensures DrainOrdered(After(es).value)
  {
    if es != [] {
      var s, e := After(es[..|es| - 1]).value, es[|es| - 1];
      DrainOrderedAlways(es[..|es| - 1]);
      match e
      case DrainStart(_) => DrainStartOrders(s);
      case DrainOne => DrainOneOrders(s);
      case DrainEnd =>
      case _ => DrainIsUndisturbed(s, e);
    }
  }

  /** Run's decision for a call, on the data it is about: only a second call on a busy session is queued, at the end. */
  lemma EntryQueues(s: State, id: nat)
    requires Enabled(s, EnterRun(id))
    ensures var p, c := s.pending[id], s.core;
            var covered := p.handle != 0 && c.mark != 0 && p.handle <= c.mark;
            && DoEnter(s, id).core.queue == (if !covered && c.active.Some? then c.queue + [Call(p.runID, p.handle)] else c.queue)
            && DoEnter(s, id).core.active == (if !covered && c.active.None? then Some(s.nextId) else c.active)
  {
  }

  lemma HandoffTakesTheFirst(s: State, t: nat)
    requires t in s.frames
    ensures var u := DoHandoffFilter(s, t);
            if u.lock.HandoffNext? then Subsequence([u.lock.next] + u.core.queue, s.core.queue) else u.core.queue == []
  {
    var kept := Survivors(s.core.mark, s.core.queue);
    Agents.SelectKeepsOrder({Fold, Keep}, s.core.mark, s.core.queue);
    assert kept != [] ==> [kept[0]] + kept[1..] == kept;
  }

  lemma OthersLeaveTheQueue(s: State, e: Event)
    requires Enabled(s, e) && !e.EnterRun? && !e.CancelClear? && !e.DrainEnd? && !e.HandoffFilter?
    ensures Apply(s, e).core.queue == s.core.queue
  {
    if !Cancel.Accounting(e) && !e.DrainStart? && !e.DrainOne? { Cancel.TurnStepsKeepControl(s, e); }
  }

  /**
  Over every run: a call joins the queue at its end; every other step leaves, in order, a part of the
  queue; and the call that a handoff takes stood before all that it leaves.
  */
  lemma QueueIsInOrder(s: State, e: Event)
    requires Reachable(s) && Enabled(s, e)
    ensures var q, t := s.core.queue, Apply(s, e);
            && (e.EnterRun? ==> t.core.queue == q || t.core.queue == q + [Call(s.pending[e.id].runID, s.pending[e.id].handle)])
            && (!e.EnterRun? ==> Subsequence(t.core.queue, q))
            && (e.HandoffFilter? && t.lock.HandoffNext? ==> Subsequence([t.lock.next] + t.core.queue, q))
  {
    var es :| After(es) == Some(s);
    DrainOrderedAlways(es);
    match e
    case EnterRun(id) => EntryQueues(s, id);
    case HandoffFilter(t) =>
      HandoffTakesTheFirst(s, t);
      LeavesTail(DoHandoffFilter(s, t), s.core.queue);
    case DrainEnd => assert s.lock.keep + [] == s.lock.keep;
    case CancelClear =>
    case _ =>
      OthersLeaveTheQueue(s, e);
      SubsequenceRefl(s.core.queue);
  }

  lemma LeavesTail(u: State, queue: seq<Call>)
    requires if u.lock.HandoffNext? then Subsequence([u.lock.next] + u.core.queue, queue) else u.core.queue == []
    ensures Subsequence(u.core.queue, queue)
  {
    if u.lock.HandoffNext? {
      assert [] + ([u.lock.next] + u.core.queue) == [u.lock.next] + u.core.queue && [] + u.core.queue == u.core.queue;
      SubsequenceWithout([], u.lock.next, u.core.queue, queue);
    }
  }
}
