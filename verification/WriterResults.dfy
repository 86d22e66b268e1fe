/** What the debounced writer guarantees over whole runs, for one message and for FlushAll. */
module WriterResults {
  import opened Common
  import opened Messages
  import opened Writers

  /* ---- Write-behind coherence ---- */

  /**
  At most one write is in flight; a clean idle entry is on the row; a clean entry with a write in
  flight is being written in its latest version.
  */
  lemma WriteBehindCoherence(s: State, f: nat, g: nat)
    requires Reachable(s)
    ensures IsWriting(s, f) && IsWriting(s, g) ==> f == g
    ensures !s.cell.dirty && !s.cell.flushing && s.cell.present ==> s.cell.row == s.cell.lastFlushed == s.cell.latest
    ensures !s.cell.dirty && IsWriting(s, f) ==> s.flushers[f].phase.snap == s.cell.latest
    ensures s.cell.flushing <==> exists h :: IsWriting(s, h)
  {
    ReachableInv(s);
  }

  /** The row never goes back to an older version, and never gets ahead of what was passed to Update. */
  lemma RowNeverGoesBack(s: State, e: Event)
    requires Reachable(s) && Enabled(s, e)
    ensures s.cell.row.version <= Apply(s, e).cell.row.version <= Apply(s, e).cell.latest.version
  {
    ReachableInv(s);
    StepKeeps(s, e);
  }

  /* ---- The flush barrier ---- */

  /** When a synchronous flush returns without error, the row is the latest version. */
  lemma CleanAtReturn(s: State, e: Event, f: nat)
    requires Reachable(s) && Enabled(s, e) && f in s.flushers && s.flushers[f].sync && !s.flushers[f].phase.Returned?
    requires var t := Apply(s, e); f in t.flushers && t.flushers[f].phase == Returned(true)
    ensures var t := Apply(s, e); t.cell.row == t.cell.latest && !t.cell.dirty && !t.cell.flushing
  {
    ReachableInv(s);
    StepKeeps(s, e);
  }

  ghost predicate Run(immediate: bool, parts: seq<Part>, es: seq<Event>) {
    After(immediate, parts, es).Some?
  }

  lemma {:induction false} RunBeginning(immediate: bool, parts: seq<Part>, es: seq<Event>, n: nat)
    requires Run(immediate, parts, es) && n <= |es|
    ensures Run(immediate, parts, es[..n])
  {
    if n == |es| {
      assert es[..n] == es;
    } else {
      RunBeginning(immediate, parts, es[..|es| - 1], n);
      assert es[..|es| - 1][..n] == es[..n];
    }
  }

  lemma SameFlusher(s: State, e: Event, f: nat)
    requires Inv(s) && Enabled(s, e) && f in s.flushers
    ensures var t := Apply(s, e);
            f in t.flushers && t.flushers[f].start == s.flushers[f].start && t.flushers[f].sync == s.flushers[f].sync
  {
  }

  lemma {:induction false} FlusherStays(immediate: bool, parts: seq<Part>, es: seq<Event>, n: nat, f: nat)
    requires Run(immediate, parts, es) && n <= |es| && Run(immediate, parts, es[..n])
    requires f in After(immediate, parts, es[..n]).value.flushers
    ensures var x, y := After(immediate, parts, es).value.flushers, After(immediate, parts, es[..n]).value.flushers[f];
            f in x && x[f].start == y.start && x[f].sync == y.sync
  {
    if n == |es| {
      assert es[..n] == es;
    } else {
      var fs := es[..|es| - 1];
      assert fs[..n] == es[..n];
      InvAlways(immediate, parts, fs);
      FlusherStays(immediate, parts, fs, n, f);
      SameFlusher(After(immediate, parts, fs).value, es[|es| - 1], f);
    }
  }

  /**
  Step n calls Flush, or an Update that flushes at once. If that call is back without error at the
  end of the run, the row is at least the version that was latest when it was called, its own
  update included.
  */
  lemma FlushBarrier(immediate: bool, parts: seq<Part>, es: seq<Event>, n: nat)
    requires Run(immediate, parts, es) && n < |es| && Run(immediate, parts, es[..n])
    requires var s := After(immediate, parts, es[..n]).value;
             es[n] == Flush || (es[n].Update? && FlushesAtOnce(s.cell, es[n].parts, immediate))
    ensures var s, t := After(immediate, parts, es[..n]).value, After(immediate, parts, es).value;
            && s.nextId in t.flushers
            && (t.flushers[s.nextId].phase == Returned(true) ==>
                  t.cell.row.version >= s.cell.latest.version + if es[n].Update? then 1 else 0)
  {
    var s := After(immediate, parts, es[..n]).value;
    RunBeginning(immediate, parts, es, n + 1);
    assert es[..n + 1][..n] == es[..n];
    SameMode(immediate, parts, es[..n]);
    FlusherStays(immediate, parts, es, n + 1, s.nextId);
    InvAlways(immediate, parts, es);
    assert Barrier(After(immediate, parts, es).value, s.nextId);
  }

  lemma {:induction false} SameMode(immediate: bool, parts: seq<Part>, es: seq<Event>)
    requires Run(immediate, parts, es)
    ensures After(immediate, parts, es).value.immediate == immediate
  {
    if es != [] { SameMode(immediate, parts, es[..|es| - 1]); }
  }

  /* ---- Stranded deltas ---- */

  /**
  A buffered version that nothing is going to write: no write in flight, no timer, no flusher about
  to look, and no callback outstanding of a timer that was stopped too late.
  */
  ghost predicate Stranded(s: State) {
    s.cell.dirty && !s.cell.flushing && !s.cell.timer && s.callbacks == 0 && !SomeTop(s)
  }

  ghost predicate SomeTop(s: State) {
    exists f :: IsTop(s, f)
  }

  /** What leaves a version stranded: a failed write, or a delta that arrived during a timer's write. */
  predicate Strands(s: State, e: Event) {
    e.Done? && e.flusher in s.flushers && (!e.ok || (!s.flushers[e.flusher].sync && s.cell.dirty))
  }

  lemma LookNeverStrands(s: State, f: nat, stopped: bool)
    requires Inv(s) && Enabled(s, Look(f, stopped))
    ensures !Stranded(Apply(s, Look(f, stopped)))
  {
    assert Choose(s.cell, s.flushers[f].sync) == Wait ==> IsTop(Apply(s, Look(f, stopped)), f);
  }

  lemma StartNeverStrands(s: State, e: Event)
    requires Inv(s) && Enabled(s, e) && (e.Update? || e.Flush? || e.TimerFire?)
    ensures !Stranded(Apply(s, e))
  {
    var t := Apply(s, e);
    if t.nextId != s.nextId { assert IsTop(t, s.nextId); }
  }

  lemma DoneStrands(s: State, f: nat, ok: bool)
    requires Inv(s) && Enabled(s, Done(f, ok))
    ensures Stranded(Apply(s, Done(f, ok))) <==> Strands(s, Done(f, ok)) && !SomeTop(s) && s.callbacks == 0
  {
    var t := Apply(s, Done(f, ok));
    assert forall g | g != f :: IsTop(t, g) <==> IsTop(s, g);
    assert !IsTop(s, f);
    assert !Strands(s, Done(f, ok)) && t.cell.dirty ==> IsTop(t, f);
  }

  /**
  A step leaves a version stranded that was not exactly if it ends a write that failed, or a
  timer's write during which a delta arrived, while no other flusher is about to look and no timer
  callback is outstanding.
  */
  lemma StrandedIff(s: State, e: Event)
    requires Reachable(s) && Enabled(s, e) && !Stranded(s)
    ensures Stranded(Apply(s, e)) <==> Strands(s, e) && !SomeTop(s) && s.callbacks == 0
  {
    ReachableInv(s);
    match e
    case Look(f, stopped) => LookNeverStrands(s, f, stopped);
    case Land(f) => assert forall g :: IsTop(s, g) <==> IsTop(Apply(s, e), g);
    case Done(f, ok) => DoneStrands(s, f, ok);
    case _ => StartNeverStrands(s, e);
  }

  lemma NextUpdateRescues(s: State, e: Event)
    requires Reachable(s) && Enabled(s, e) && (e.Update? || e.Flush?)
    ensures !Stranded(Apply(s, e))
  {
    ReachableInv(s);
    StartNeverStrands(s, e);
  }

  /** Nothing else ever happens to a stranded version: only an Update or a Flush can come next, and picks it up. */
  lemma OnlyACallRescues(s: State, e: Event)
    requires Reachable(s) && Enabled(s, e) && Stranded(s)
    ensures (e.Update? || e.Flush?) && !Stranded(Apply(s, e))
  {
    ReachableInv(s);
    if e.Update? || e.Flush? { StartNeverStrands(s, e); }
  }

  /** A version that is not on the row and not stranded has something that will write it. */
  lemma NotStrandedIsServed(s: State)
    requires Reachable(s) && s.cell.row != s.cell.latest
    ensures Stranded(s) || (exists f :: IsWriting(s, f)) || SomeTop(s) || Enabled(s, TimerFire)
  {
    ReachableInv(s);
  }

  ghost predicate Steps(s: State, e: Event, t: State) {
    Enabled(s, e) && Apply(s, e) == t
  }

  lemma RunExtends(immediate: bool, parts: seq<Part>, es: seq<Event>, s: State, e: Event)
    requires After(immediate, parts, es) == Some(s) && Enabled(s, e)
    ensures After(immediate, parts, es + [e]) == Some(Apply(s, e))
  {
    assert (es + [e])[..|es + [e]| - 1] == es;
  }

  lemma StepReaches(s: State, e: Event, t: State)
    requires Reachable(s) && Steps(s, e, t)
    ensures Reachable(t)
  {
    var parts, es :| After(s.immediate, parts, es) == Some(s);
    RunExtends(s.immediate, parts, es, s, e);
    assert t.immediate == s.immediate;
  }

  lemma PlainTextWaits(parts: seq<Part>, prev: Option<seq<Part>>)
    requires |parts| == 1 && parts[0].Text? && prev == None
    ensures !ShouldFlushNow(prev, parts)
  {
    assert parts[1..] == [];
  }

  /** A text buffered under a timer. */
  lemma TextWaits(a: string) returns (s: State)
    ensures Reachable(s) && s == State(false, Cell(true, Snap(1, [Text(a)]), true, false, true, Snap(0, []), false, Snap(0, [])), map[], 1, 0)
  {
    var s0 := Initial(false, []);
    assert After(false, [], []) == Some(s0);
    PlainTextWaits([Text(a)], None);
    s := ApplyUpdate(s0, [Text(a)], true);
    StepReaches(s0, Update([Text(a)], true), s);
  }

  /** A text that a timer's flusher is writing. */
  lemma TimerWrites(a: string) returns (s: State)
    ensures Reachable(s) && !s.immediate && s.callbacks == 0 && s.cell.flushing && !s.cell.dirty && !s.cell.timer
    ensures !s.cell.hasFlushed && s.flushers == map[0 := Flusher(false, 1, Writing(s.cell.latest, false))]
    ensures s.cell.latest.parts == [Text(a)]
  {
    var s1 := TextWaits(a);
    var s2 := s1.(callbacks := 0, flushers := map[0 := Flusher(false, 1, Top)], nextId := 1);
    StepReaches(s1, TimerFire, s2);
    s := ApplyLook(s2, 0, true);
    StepReaches(s2, Look(0, true), s);
  }

  /** A run in which the end of a streamed text stays in the cache although nobody failed. */
  lemma StrandedIsReachable(a: string, b: string) returns (s: State)
    ensures Reachable(s) && Stranded(s) && s.cell.row.parts == [Text(a)] && s.cell.latest.parts == [Text(b)]
    ensures forall f | f in s.flushers :: s.flushers[f].phase == Returned(true)
  {
    var s3 := TimerWrites(a);
    PlainTextWaits([Text(b)], None);
    var s4 := Apply(s3, Update([Text(b)], true));
    StepReaches(s3, Update([Text(b)], true), s4);
    var s5 := Apply(s4, Land(0));
    StepReaches(s4, Land(0), s5);
    s := Apply(s5, Done(0, true));
    StepReaches(s5, Done(0, true), s);
  }
}
