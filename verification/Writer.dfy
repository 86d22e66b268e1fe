/**
The debounced message writer for one message: a cache entry, the row it is written behind to, and
the goroutines that flush it. A step is one critical section under service.mu, or the moment a
write lands on the row. Every Update gives the message a new version.
*/
module Writers {
  import opened Common
  import opened Messages

  datatype Snap = Snap(version: nat, parts: seq<Part>)

  /** pendingState, whether the service knows it, and the row. */
  datatype Cell = Cell(present: bool, latest: Snap, dirty: bool, flushing: bool, timer: bool,
                       lastFlushed: Snap, hasFlushed: bool, row: Snap)

  /* ---- The sections ---- */

  /** The finished flags of the tool calls. */
  function CallFlags(parts: seq<Part>): seq<bool> {
    if parts == [] then []
    else (if parts[0].ToolCall? then [parts[0].finished] else []) + CallFlags(parts[1..])
  }

  function ReasoningEnd(parts: seq<Part>): int {
    var i := FirstReasoning(parts);
    if i < |parts| then parts[i].finishedAt else 0
  }

  /**
  shouldFlushNow: the message finished, the tool calls differ in number or in which are
  finished, or reasoning just finished.
  */
  predicate ShouldFlushNow(prev: Option<seq<Part>>, next: seq<Part>) {
    var was := if prev.Some? then prev.value else [];
    || First(next, FinishSlot) < |next|
    || CallFlags(next) != CallFlags(was)
    || (ReasoningEnd(next) > 0 && ReasoningEnd(was) == 0)
  }

  function Baseline(c: Cell): Option<seq<Part>> {
    if c.hasFlushed then Some(c.lastFlushed.parts) else None
  }

  function Buffered(c: Cell, parts: seq<Part>): Cell {
    c.(present := true, latest := Snap(c.latest.version + 1, parts), dirty := true)
  }

  /** Update flushes synchronously. */
  predicate FlushesAtOnce(c: Cell, parts: seq<Part>, immediate: bool) {
    immediate || ShouldFlushNow(Baseline(c), parts)
  }

  function DoUpdate(c: Cell, parts: seq<Part>, immediate: bool): Cell {
    var u := Buffered(c, parts);
    if immediate then u
    else if ShouldFlushNow(Baseline(c), parts) then u.(timer := false)
    else u.(timer := c.timer || !c.flushing)
  }

  datatype Choice = Return | Wait | Take

  /** What flushOne's first section decides. */
  function Choose(c: Cell, sync: bool): Choice {
    if !c.present then Return
    else if c.flushing then (if sync then Wait else Return)
    else if !c.dirty then Return
    else Take
  }

  function DoTake(c: Cell): Cell {
    c.(timer := false, flushing := true, dirty := false)
  }

  /** Its second section: the write of snap succeeded or not. */
  function DoFinish(c: Cell, snap: Snap, ok: bool): Cell {
    if ok then c.(flushing := false, lastFlushed := snap, hasFlushed := true)
    else c.(flushing := false, dirty := true)
  }

  /* ---- The machine ---- */

  /** A flushOne: about to look, writing, or back with its result. */
  datatype Phase = Top | Writing(snap: Snap, landed: bool) | Returned(ok: bool)

  /** start is the version when it was called. */
  datatype Flusher = Flusher(sync: bool, start: nat, phase: Phase)

  datatype State = State(immediate: bool, cell: Cell, flushers: map<nat, Flusher>, callbacks: nat, nextId: nat)

  function Initial(immediate: bool, parts: seq<Part>): State {
    var s := Snap(0, parts);
    State(immediate, Cell(false, s, false, false, false, s, false, s), map[], 0, 0)
  }

  /** stopped: the timer, if armed, is stopped in time. A failed write may have landed. */
  datatype Event =
    | Update(parts: seq<Part>, stopped: bool)
    | Flush
    | TimerFire
    | Look(flusher: nat, stopped: bool)
    | Land(flusher: nat)
    | Done(flusher: nat, ok: bool)

  predicate IsWriting(s: State, f: nat) {
    f in s.flushers && s.flushers[f].phase.Writing?
  }

  predicate IsTop(s: State, f: nat) {
    f in s.flushers && s.flushers[f].phase == Top
  }

  predicate Enabled(s: State, e: Event) {
    match e
    case TimerFire => s.callbacks > 0
    case Look(f, _) => IsTop(s, f)
    case Land(f) => IsWriting(s, f)
    case Done(f, ok) => IsWriting(s, f) && (ok ==> s.flushers[f].phase.landed)
    case _ => true
  }

  function Start(s: State, sync: bool): State {
    s.(flushers := s.flushers[s.nextId := Flusher(sync, s.cell.latest.version, Top)], nextId := s.nextId + 1)
  }

  function Go(s: State, f: nat, p: Phase): State
    requires f in s.flushers
  {
    s.(flushers := s.flushers[f := s.flushers[f].(phase := p)])
  }

  /** Callbacks left after Stop on the timer, if it was armed. */
  function Left(s: State, stopped: bool): nat {
    if s.cell.timer && stopped && s.callbacks > 0 then s.callbacks - 1 else s.callbacks
  }

  function ApplyUpdate(s: State, parts: seq<Part>, stopped: bool): State {
    var c := DoUpdate(s.cell, parts, s.immediate);
    var n := if s.cell.timer && !c.timer then Left(s, stopped)
             else if !s.cell.timer && c.timer then s.callbacks + 1 else s.callbacks;
    var t := s.(cell := c, callbacks := n);
    if FlushesAtOnce(s.cell, parts, s.immediate) then Start(t, true) else t
  }

  function ApplyLook(s: State, f: nat, stopped: bool): State
    requires IsTop(s, f)
  {
    match Choose(s.cell, s.flushers[f].sync)
    case Return => Go(s, f, Returned(true))
    case Wait => s
    case Take => Go(s.(cell := DoTake(s.cell), callbacks := Left(s, stopped)), f, Writing(s.cell.latest, false))
  }

  function ApplyDone(s: State, f: nat, ok: bool): State
    requires IsWriting(s, f)
  {
    var c := DoFinish(s.cell, s.flushers[f].phase.snap, ok);
    Go(s.(cell := c), f, if !ok then Returned(false) else if c.dirty && s.flushers[f].sync then Top else Returned(true))
  }

  function Apply(s: State, e: Event): State
    requires Enabled(s, e)
  {
    match e
    case Update(parts, stopped) => ApplyUpdate(s, parts, stopped)
    case Flush => Start(s, true)
    case TimerFire => Start(s.(callbacks := s.callbacks - 1), false)
    case Look(f, stopped) => ApplyLook(s, f, stopped)
    case Land(f) =>
      var snap := s.flushers[f].phase.snap;
      Go(s.(cell := s.cell.(row := snap)), f, Writing(snap, true))
    case Done(f, ok) => ApplyDone(s, f, ok)
  }

  /* ---- The invariant ---- */

  /** Versions, and what the flags say about them. */
  ghost predicate Coherent(c: Cell) {
    && c.row.version <= c.latest.version
    && (!c.dirty && !c.flushing ==> c.row == c.latest && (c.present ==> c.hasFlushed && c.lastFlushed == c.latest))
    && (!c.present ==> !c.dirty && !c.flushing && !c.timer)
    && (c.timer ==> c.dirty && !c.flushing)
  }

  /** The write in flight, if any. */
  ghost predicate OneWriter(s: State) {
    && (s.cell.flushing ==> exists f :: IsWriting(s, f))
    && (forall f | IsWriting(s, f) ::
          var w := s.flushers[f].phase;
          && s.cell.flushing && w.snap.version <= s.cell.latest.version
          && (if w.landed then s.cell.row == w.snap else s.cell.row.version <= w.snap.version)
          && (!s.cell.dirty ==> w.snap == s.cell.latest))
    && (forall f, g | IsWriting(s, f) && IsWriting(s, g) :: f == g)
  }

  /** A synchronous flush that came back without error left nothing older than its start. */
  ghost predicate Barrier(s: State, f: nat) {
    f in s.flushers ==>
      && s.flushers[f].start <= s.cell.latest.version
      && (s.flushers[f].sync && s.flushers[f].phase == Returned(true) ==> s.flushers[f].start <= s.cell.row.version)
  }

  /** An armed timer's callback is coming, or has come and is about to look. */
  ghost predicate TimerLive(s: State) {
    && (forall f | f in s.flushers :: f < s.nextId)
    && (s.cell.timer ==> s.callbacks > 0 || exists f :: IsTop(s, f))
  }

  ghost predicate Inv(s: State) {
    Coherent(s.cell) && OneWriter(s) && (forall f :: Barrier(s, f)) && TimerLive(s)
  }

  lemma BufferKeeps(s: State, parts: seq<Part>, t: State)
    requires Inv(s) && t == s.(cell := DoUpdate(s.cell, parts, s.immediate), callbacks := t.callbacks)
    requires t.cell.timer ==> t.callbacks >= s.callbacks && (!s.cell.timer ==> t.callbacks > 0)
    ensures Inv(t)
  {
    assert forall f :: IsWriting(s, f) <==> IsWriting(t, f);
    assert forall f :: IsTop(s, f) <==> IsTop(t, f);
    forall f ensures Barrier(t, f) { assert Barrier(s, f); }
  }

  /** A new flusher; a timer that has just lost its callback is looked after by it. */
  lemma StartKeeps(s: State, u: State, sync: bool)
    requires Inv(s) && u == s.(callbacks := u.callbacks)
    ensures Inv(Start(u, sync))
  {
    var t := Start(u, sync);
    assert IsTop(t, s.nextId) && s.nextId !in s.flushers;
    assert forall f :: IsWriting(s, f) <==> IsWriting(t, f);
    forall f ensures Barrier(t, f) { assert Barrier(s, f); }
  }

  lemma UpdateKeeps(s: State, parts: seq<Part>, stopped: bool)
    requires Inv(s)
    ensures Inv(ApplyUpdate(s, parts, stopped))
  {
    var t := ApplyUpdate(s, parts, stopped);
    var u := s.(cell := t.cell, callbacks := t.callbacks);
    BufferKeeps(s, parts, u);
    StartKeeps(u, u, true);
  }

  lemma TakeKeeps(s: State, f: nat, stopped: bool)
    requires Inv(s) && IsTop(s, f) && Choose(s.cell, s.flushers[f].sync) == Take
    ensures Inv(ApplyLook(s, f, stopped))
  {
    var t := ApplyLook(s, f, stopped);
    assert IsWriting(t, f);
    assert forall g :: IsWriting(t, g) ==> g == f;
    forall g ensures Barrier(t, g) { assert Barrier(s, g); }
  }

  lemma ReturnKeeps(s: State, f: nat, stopped: bool)
    requires Inv(s) && IsTop(s, f) && Choose(s.cell, s.flushers[f].sync) == Return
    ensures Inv(ApplyLook(s, f, stopped))
  {
    var t := ApplyLook(s, f, stopped);
    assert forall g :: IsWriting(s, g) <==> IsWriting(t, g);
    forall g ensures Barrier(t, g) { assert Barrier(s, g); }
  }

  lemma LandKeeps(s: State, f: nat)
    requires Inv(s) && IsWriting(s, f)
    ensures Inv(Apply(s, Land(f)))
  {
    var t := Apply(s, Land(f));
    assert forall g :: IsWriting(s, g) <==> IsWriting(t, g);
    assert forall g :: IsTop(s, g) ==> IsTop(t, g);
    forall g ensures Barrier(t, g) { assert Barrier(s, g); }
  }

  lemma DoneKeeps(s: State, f: nat, ok: bool)
    requires Inv(s) && Enabled(s, Done(f, ok))
    ensures Inv(ApplyDone(s, f, ok))
  {
    var t := ApplyDone(s, f, ok);
    assert forall g :: IsWriting(t, g) ==> IsWriting(s, g) && g != f;
    assert forall g :: IsTop(s, g) ==> IsTop(t, g);
    forall g ensures Barrier(t, g) { assert Barrier(s, g); }
  }

  lemma StepKeeps(s: State, e: Event)
    requires Inv(s) && Enabled(s, e)
    ensures Inv(Apply(s, e))
  {
    match e
    case Update(parts, stopped) => UpdateKeeps(s, parts, stopped);
    case Flush => StartKeeps(s, s, true);
    case TimerFire => StartKeeps(s, s.(callbacks := s.callbacks - 1), false);
    case Look(f, stopped) =>
      match Choose(s.cell, s.flushers[f].sync) {
        case Return => ReturnKeeps(s, f, stopped);
        case Wait =>
        case Take => TakeKeeps(s, f, stopped);
      }
    case Land(f) => LandKeeps(s, f);
    case Done(f, ok) => DoneKeeps(s, f, ok);
  }

  function After(immediate: bool, parts: seq<Part>, es: seq<Event>): Option<State> {
    if es == [] then Some(Initial(immediate, parts))
    else
      var prev := After(immediate, parts, es[..|es| - 1]);
      if prev.Some? && Enabled(prev.value, es[|es| - 1])
      then Some(Apply(prev.value, es[|es| - 1])) else None
  }

  ghost predicate Reachable(s: State) {
    exists parts, es :: After(s.immediate, parts, es) == Some(s)
  }

  lemma {:induction false} InvAlways(immediate: bool, parts: seq<Part>, es: seq<Event>)
    requires After(immediate, parts, es).Some?
    ensures Inv(After(immediate, parts, es).value)
  {
    if es != [] {
      InvAlways(immediate, parts, es[..|es| - 1]);
      StepKeeps(After(immediate, parts, es[..|es| - 1]).value, es[|es| - 1]);
    }
  }

  lemma ReachableInv(s: State)
    requires Reachable(s)
    ensures Inv(s)
  {
    var parts, es :| After(s.immediate, parts, es) == Some(s);
    InvAlways(s.immediate, parts, es);
  }
}
