/** FlushAll over every message of the service, while updates, flushes and timers go on. */
module FlushAlls {
  import opened Common
  import opened Messages
  import W = Writers
  import R = WriterResults

  type ID = string

  /**
  A FlushAll under way: the versions when it was called, the messages it still has to flush, the
  flush it waits for, and whether one came back with an error.
  */
  datatype Drain = Drain(need: map<ID, nat>, todo: set<ID>, current: Option<(ID, nat)>, failed: bool)

  datatype World = World(immediate: bool, messages: map<ID, W.State>, drains: map<nat, Drain>, nextDrain: nat)

  datatype Event =
    | Create(id: ID, parts: seq<Part>)
    | On(id: ID, step: W.Event)
    | FlushAll
    | Next(drain: nat, id: ID)
    | Collect(drain: nat)

  predicate Pending(c: W.Cell) {
    c.dirty || c.flushing
  }

  /** The flush a drain waits for is back. */
  predicate IsBack(w: World, d: Drain) {
    && d.current.Some? && d.current.value.0 in w.messages
    && d.current.value.1 in w.messages[d.current.value.0].flushers
    && w.messages[d.current.value.0].flushers[d.current.value.1].phase.Returned?
  }

  predicate Enabled(w: World, e: Event) {
    match e
    case Create(id, _) => id !in w.messages
    case On(id, step) => id in w.messages && W.Enabled(w.messages[id], step)
    case FlushAll => true
    case Next(d, id) => d in w.drains && w.drains[d].current.None? && id in w.drains[d].todo && id in w.messages
    case Collect(d) => d in w.drains && IsBack(w, w.drains[d])
  }

  function Begun(w: World): Drain {
    Drain(map id | id in w.messages :: w.messages[id].cell.latest.version,
          (set id | id in w.messages && Pending(w.messages[id].cell)), None, false)
  }

  function Apply(w: World, e: Event): World
    requires Enabled(w, e)
  {
    match e
    case Create(id, parts) => w.(messages := w.messages[id := W.Initial(w.immediate, parts)])
    case On(id, step) => w.(messages := w.messages[id := W.Apply(w.messages[id], step)])
    case FlushAll => w.(drains := w.drains[w.nextDrain := Begun(w)], nextDrain := w.nextDrain + 1)
    case Next(d, id) =>
      var x := w.drains[d];
      w.(messages := w.messages[id := W.Start(w.messages[id], true)],
         drains := w.drains[d := x.(todo := x.todo - {id}, current := Some((id, w.messages[id].nextId)))])
    case Collect(d) =>
      var x := w.drains[d];
      var ok := w.messages[x.current.value.0].flushers[x.current.value.1].phase.ok;
      w.(drains := w.drains[d := x.(current := None, failed := x.failed || !ok)])
  }

  /** The flush of message id that a drain waits for started late enough. */
  ghost predicate Waits(w: World, x: Drain, id: ID)
    requires id in w.messages && id in x.need
  {
    x.current.Some? && x.current.value.0 == id && x.current.value.1 in w.messages[id].flushers &&
    var f := w.messages[id].flushers[x.current.value.1]; f.sync && f.start >= x.need[id]
  }

  ghost predicate DrainInv(w: World, x: Drain, id: ID) {
    id in x.need ==>
      && id in w.messages && x.need[id] <= w.messages[id].cell.latest.version
      && (x.failed || id in x.todo || Waits(w, x, id) || w.messages[id].cell.row.version >= x.need[id])
  }

  ghost predicate Inv(w: World) {
    && (forall id | id in w.messages :: W.Inv(w.messages[id]))
    && (forall d | d in w.drains :: d < w.nextDrain)
    && (forall d, id | d in w.drains :: DrainInv(w, w.drains[d], id))
  }

  /** Steps on messages: versions grow, and every flusher stays the one it was. */
  ghost predicate Grown(s: W.State, t: W.State) {
    && s.cell.row.version <= t.cell.row.version && s.cell.latest.version <= t.cell.latest.version
    && (forall f | f in s.flushers ::
          f in t.flushers && t.flushers[f].start == s.flushers[f].start && t.flushers[f].sync == s.flushers[f].sync)
  }

  lemma StepGrows(s: W.State, e: W.Event)
    requires W.Inv(s) && W.Enabled(s, e)
    ensures Grown(s, W.Apply(s, e))
  {
    forall f | f in s.flushers ensures f in W.Apply(s, e).flushers { R.SameFlusher(s, e, f); }
    assert e.Land? ==> W.IsWriting(s, e.flusher);
  }

  lemma GrownKeepsDrain(w: World, t: World, x: Drain, id: ID)
    requires DrainInv(w, x, id) && w.messages.Keys <= t.messages.Keys
    requires id in w.messages ==> Grown(w.messages[id], t.messages[id])
    ensures DrainInv(t, x, id)
  {
  }

  lemma OnKeeps(w: World, id: ID, step: W.Event)
    requires Inv(w) && Enabled(w, On(id, step))
    ensures Inv(Apply(w, On(id, step)))
  {
    var t := Apply(w, On(id, step));
    W.StepKeeps(w.messages[id], step);
    StepGrows(w.messages[id], step);
    forall d, i | d in t.drains ensures DrainInv(t, t.drains[d], i) { GrownKeepsDrain(w, t, w.drains[d], i); }
  }

  lemma CreateKeeps(w: World, id: ID, parts: seq<Part>)
    requires Inv(w) && id !in w.messages
    ensures Inv(Apply(w, Create(id, parts)))
  {
    var t := Apply(w, Create(id, parts));
    forall d, i | d in t.drains ensures DrainInv(t, t.drains[d], i) { GrownKeepsDrain(w, t, w.drains[d], i); }
  }

  lemma FlushAllKeeps(w: World)
    requires Inv(w)
    ensures Inv(Apply(w, FlushAll))
  {
    var t := Apply(w, FlushAll);
    forall d, i | d in t.drains ensures DrainInv(t, t.drains[d], i) {
      if d == w.nextDrain {
        assert i in w.messages ==> W.Inv(w.messages[i]);
      } else {
        GrownKeepsDrain(w, t, w.drains[d], i);
      }
    }
  }

  lemma NextKeeps(w: World, d: nat, id: ID)
    requires Inv(w) && Enabled(w, Next(d, id))
    ensures Inv(Apply(w, Next(d, id)))
  {
    var t := Apply(w, Next(d, id));
    W.StepKeeps(w.messages[id], W.Flush);
    StepGrows(w.messages[id], W.Flush);
    forall c, i | c in t.drains ensures DrainInv(t, t.drains[c], i) {
      assert DrainInv(w, w.drains[c], i);
      GrownKeepsDrain(w, t, w.drains[c], i);
    }
  }

  lemma CollectKeeps(w: World, d: nat)
    requires Inv(w) && Enabled(w, Collect(d))
    ensures Inv(Apply(w, Collect(d)))
  {
    var t := Apply(w, Collect(d));
    forall c, i | c in t.drains ensures DrainInv(t, t.drains[c], i) {
      assert DrainInv(w, w.drains[c], i);
      if c == d && i in w.messages { assert W.Barrier(w.messages[i], w.drains[d].current.value.1); }
    }
  }

  lemma StepKeeps(w: World, e: Event)
    requires Inv(w) && Enabled(w, e)
    ensures Inv(Apply(w, e))
  {
    match e
    case Create(id, parts) => CreateKeeps(w, id, parts);
    case On(id, step) => OnKeeps(w, id, step);
    case FlushAll => FlushAllKeeps(w);
    case Next(d, id) => NextKeeps(w, d, id);
    case Collect(d) => CollectKeeps(w, d);
  }

  function After(immediate: bool, es: seq<Event>): Option<World> {
    if es == [] then Some(World(immediate, map[], map[], 0))
    else
      var prev := After(immediate, es[..|es| - 1]);
      if prev.Some? && Enabled(prev.value, es[|es| - 1])
      then Some(Apply(prev.value, es[|es| - 1])) else None
  }

  ghost predicate Run(immediate: bool, es: seq<Event>) {
    After(immediate, es).Some?
  }

  lemma {:induction false} InvAlways(immediate: bool, es: seq<Event>)
    requires Run(immediate, es)
    ensures Inv(After(immediate, es).value)
  {
    if es != [] {
      InvAlways(immediate, es[..|es| - 1]);
      StepKeeps(After(immediate, es[..|es| - 1]).value, es[|es| - 1]);
    }
  }

  lemma NeedStep(w: World, e: Event, d: nat)
    requires Inv(w) && Enabled(w, e) && d in w.drains
    ensures d in Apply(w, e).drains && Apply(w, e).drains[d].need == w.drains[d].need
  {
  }

  /** A drain keeps the versions it has to reach. */
  lemma {:induction false} NeedStays(immediate: bool, es: seq<Event>, n: nat, d: nat)
    requires Run(immediate, es) && n <= |es| && Run(immediate, es[..n]) && d in After(immediate, es[..n]).value.drains
    ensures var x, y := After(immediate, es).value.drains, After(immediate, es[..n]).value.drains;
            d in x && x[d].need == y[d].need
  {
    if n == |es| {
      assert es[..n] == es;
    } else {
      var fs := es[..|es| - 1];
      assert fs[..n] == es[..n];
      NeedStays(immediate, fs, n, d);
      InvAlways(immediate, fs);
      NeedStep(After(immediate, fs).value, es[|es| - 1], d);
    }
  }

  lemma {:induction false} RunBeginning(immediate: bool, es: seq<Event>, n: nat)
    requires Run(immediate, es) && n <= |es|
    ensures Run(immediate, es[..n])
  {
    if n == |es| {
      assert es[..n] == es;
    } else {
      RunBeginning(immediate, es[..|es| - 1], n);
      assert es[..|es| - 1][..n] == es[..n];
    }
  }

  /**
  FlushAll was called at step n and is back without an error. Then the row of every message is at
  least the version that was latest when FlushAll was called: whatever was buffered or being
  written then, by whomever, has landed or was superseded there.
  */
  lemma FlushAllBarrier(immediate: bool, es: seq<Event>, n: nat, id: ID)
    requires Run(immediate, es) && n < |es| && es[n] == FlushAll && Run(immediate, es[..n])
    requires id in After(immediate, es[..n]).value.messages
    ensures var w, t := After(immediate, es[..n]).value, After(immediate, es).value;
            && w.nextDrain in t.drains && id in t.messages
            && var x := t.drains[w.nextDrain];
               (x.todo == {} && x.current.None? && !x.failed ==>
                  t.messages[id].cell.row.version >= w.messages[id].cell.latest.version)
  {
    var w := After(immediate, es[..n]).value;
    RunBeginning(immediate, es, n + 1);
    assert es[..n + 1][..n] == es[..n];
    NeedStays(immediate, es, n + 1, w.nextDrain);
    InvAlways(immediate, es);
    var t := After(immediate, es).value;
    assert DrainInv(t, t.drains[w.nextDrain], id);
  }
}
