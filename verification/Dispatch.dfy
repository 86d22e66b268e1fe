/**
The dispatch and cancel protocol of one session of `sessionAgent`, as a state
machine whose steps are the critical sections of the program.

Two locks exist: the session's dispatch mutex (`Lock` says who holds it and how
far that holder has come) and the agent-wide `acceptedMu`, under which accept
sequences are assigned and released. A step that needs only `acceptedMu` is
enabled whatever `Lock` says, which is where the interesting interleavings are.
*/
module Dispatch {
  import opened Common

  /** The empty RunID means "no caller waits for a terminal event". */
  type RunID = string

  /** A queued call: the hook and the accept handle have been stripped. */
  datatype Call = Call(runID: RunID, acceptSeq: nat)

  /** The agent's own data for one session; 0 stands for an absent map entry. */
  datatype Core = Core(gen: nat, count: nat, mark: nat, queue: seq<Call>, active: Option<nat>)

  /* ---- The critical sections, as functions of the session's data ---- */

  /** BeginAccepted: the new handle carries the returned generation. */
  function Accept(c: Core): Core {
    c.(gen := c.gen + 1, count := c.count + 1)
  }

  /** endAccepted: the last release also drops the cancel mark. */
  function Release(c: Core): Core {
    if c.count <= 1 then c.(count := 0, mark := 0) else c.(count := c.count - 1)
  }

  /** canceledBySeq. */
  predicate Covered(mark: nat, acceptSeq: nat) {
    mark != 0 && (acceptSeq == 0 || acceptSeq <= mark)
  }

  /** Cancel's write of the high-water mark, given what it read under acceptedMu. */
  function RaiseMark(c: Core, inFlight: bool, upto: nat): Core {
    if inFlight then c.(mark := Max(c.mark, upto)) else c
  }

  /** Which of its three branches Run takes. */
  datatype Branch = CancelOnEntry | Enqueue | Activate

  function Decide(c: Core, handle: nat): Branch {
    if handle != 0 && Covered(c.mark, handle) then CancelOnEntry
    else if c.active.Some? then Enqueue
    else Activate
  }

  /** The effect of that branch on the session's data; token is the new run's identity. */
  function Enter(c: Core, runID: RunID, handle: nat, token: nat): Core {
    match Decide(c, handle)
    case CancelOnEntry => c
    case Enqueue => c.(queue := c.queue + [Call(runID, handle)])
    case Activate => c.(active := Some(token))
  }

  function CompareAndDelete(active: Option<nat>, token: nat): Option<nat> {
    if active == Some(token) then None else active
  }

  /**
  What becomes of a queued call: dropped ones are reported when a caller waits for them; the
  others are folded into the running turn by the drain, or kept as turns of their own.
  */
  datatype Verdict = Fold | Keep | Report | Discard

  predicate Dropped(mark: nat, q: Call) {
    Covered(mark, q.acceptSeq)
  }

  function Judge(mark: nat, q: Call): Verdict {
    if Dropped(mark, q) then (if q.runID != "" then Report else Discard)
    else if q.runID != "" then Keep else Fold
  }

  /** The queued calls with one of these verdicts, in queue order. */
  function Select(vs: set<Verdict>, mark: nat, queue: seq<Call>): seq<Call> {
    if queue == [] then []
    else (if Judge(mark, queue[0]) in vs then [queue[0]] else []) + Select(vs, mark, queue[1..])
  }

  function Survivors(mark: nat, queue: seq<Call>): seq<Call> {
    Select({Fold, Keep}, mark, queue)
  }

  function Drops(mark: nat, queue: seq<Call>): seq<Call> {
    Select({Report}, mark, queue)
  }

  function RunIDs(queue: seq<Call>): set<RunID> {
    set q | q in queue && q.runID != "" :: q.runID
  }

  /* ---- The machine ---- */

  /**
  Where the single owner of an accept handle is. Reserved: SendMessage holds it.
  Attached: it belongs to a dispatched call. Entered: Run has decided under the
  dispatch mutex and is about to Close it. Abandoned: its owner failed before Run
  and is about to Close it. Closing: the done flag is set but endAccepted has not run.
  */
  datatype Handle = Reserved | Attached | Entered | Abandoned | Closing | Closed

  /** A call on its way to Run. hook: the coordinator's OnComplete is set. */
  datatype Pending = Pending(runID: RunID, handle: nat, hook: bool)

  /**
  A Run invocation that became the active run. Failed: it ended with an error and its
  deferred cleanup is outstanding. Released: it deleted its entry and is before or in
  the handoff. Handed: the handoff is done, the deferred cleanup is outstanding.
  */
  datatype Phase = Streaming | Failed | Released | Handed | Gone
  datatype Frame = Frame(runID: RunID, hook: bool, phase: Phase)

  datatype Lock =
    | Free
    | Entering(handle: nat)                          // Run has decided, its Close is next
    | Leaving(handle: nat)                           // that Close has set the done flag
    | CancelRead(inFlight: bool, upto: nat)          // Cancel has read count and generation
    | CancelMarked                                   // Cancel is about to clear the queue
    | Draining(todo: seq<Call>, keep: seq<Call>, drops: seq<Call>)
    | HandoffEmpty(token: nat)                       // nothing queued; count not read yet
    | HandoffRead(token: nat, idle: bool)            // count read under acceptedMu
    | HandoffNext(token: nat, next: Call, owes: bool) // a call was dequeued

  /** The single place a RunID-bearing call is at. */
  datatype Stage =
    | AtPending(id: nat) | AtQueue | AtRun(token: nat) | AtHandoff
    | AtOwed | AtHook | Terminated | Lost

  datatype State = State(
    core: Core,
    lock: Lock,
    handles: map<nat, Handle>,
    pending: map<nat, Pending>,
    frames: map<nat, Frame>,
    owed: map<RunID, bool>,      // terminal events a frame has committed to; true: to its hook
    awaiting: set<RunID>,        // coordinator.run has not returned
    hooked: set<RunID>,          // OnComplete has delivered a payload (hasLatest)
    log: seq<RunID>,             // published RunComplete events that carry a RunID
    nextId: nat,
    place: map<RunID, Stage>,    // history: where each submitted RunID is
    seenByCancel: set<nat>       // history: handles issued before the latest Cancel's read
  )

  datatype Event =
    | Begin                      // SendMessage: BeginAccepted
    | OtherBegin                 // BeginAccepted of another session
    | Refuse(handle: nat)        // SendMessage: workspace closing
    | Submit(runID: RunID, handle: nat)  // dispatched (handle 0: in-process, untracked)
    | PreFail(id: nat, canceled: bool)   // coordinator.run fails before Run
    | EnterRun(id: nat)
    | EnterClose                 // Run's Close: done flag
    | EndAccepted(handle: nat)   // endAccepted
    | CloseUnentered(handle: nat)
    | CancelStart | CancelMark | CancelClear
    | DrainStart(token: nat) | DrainOne | DrainEnd
    | TurnFail(token: nat) | TurnRelease(token: nat)
    | HandoffFilter(token: nat) | HandoffCount | HandoffClear | HandoffAccept
    | Cleanup(token: nat)        // deferred CompareAndDelete
    | Emit(runID: RunID)         // publishRunComplete
    | CoordReturn(runID: RunID, failed: bool)

  const INITIAL := State(Core(0, 0, 0, [], None), Free, map[], map[], map[], map[], {}, {}, [], 1, map[], {})

  predicate Returned(s: State, r: RunID) {
    && (forall id | id in s.pending :: s.pending[id].runID != r)
    && (forall t | t in s.frames && s.frames[t].runID == r :: s.frames[t].phase in {Handed, Gone})
    && r !in s.owed
  }

  predicate FrameIs(s: State, t: nat, p: Phase) {
    t in s.frames && s.frames[t].phase == p
  }

  predicate Enabled(s: State, e: Event) {
    match e
    case Begin => true
    case OtherBegin => true
    case Refuse(h) => h in s.handles && s.handles[h] == Reserved
    case Submit(r, h) => (r == "" || r !in s.place) && (h != 0 ==> h in s.handles && s.handles[h] == Reserved)
    case PreFail(id, _) => id in s.pending && s.pending[id].hook
    case EnterRun(id) => s.lock == Free && id in s.pending
    case EnterClose => s.lock.Entering?
    case EndAccepted(h) => h in s.handles && s.handles[h] == Closing
    case CloseUnentered(h) => h in s.handles && s.handles[h] == Abandoned
    case CancelStart => s.lock == Free
    case CancelMark => s.lock.CancelRead?
    case CancelClear => s.lock == CancelMarked
    case DrainStart(t) => s.lock == Free && FrameIs(s, t, Streaming)
    case DrainOne => s.lock.Draining? && s.lock.todo != []
    case DrainEnd => s.lock.Draining? && s.lock.todo == []
    case TurnFail(t) => FrameIs(s, t, Streaming)
    case TurnRelease(t) => FrameIs(s, t, Streaming)
    case HandoffFilter(t) => s.lock == Free && FrameIs(s, t, Released)
    case HandoffCount => s.lock.HandoffEmpty?
    case HandoffClear => s.lock.HandoffRead? && s.lock.token in s.frames
    case HandoffAccept => s.lock.HandoffNext? && s.lock.token in s.frames
    case Cleanup(t) => FrameIs(s, t, Failed) || FrameIs(s, t, Handed)
    case Emit(r) => r in s.owed
    case CoordReturn(r, _) => r in s.awaiting && Returned(s, r)
  }

  /** Moves the RunIDs in rs to stage st. */
  function Move(s: State, rs: set<RunID>, st: Stage): map<RunID, Stage> {
    s.place + map r | r in rs :: st
  }

  function Named(r: RunID): set<RunID> {
    if r == "" then {} else {r}
  }

  /** Commits to publishing a terminal event for each RunID in rs. */
  function Owe(s: State, rs: set<RunID>, hook: bool): State {
    s.(owed := s.owed + (map r | r in rs :: hook), place := Move(s, rs, AtOwed))
  }

  function Publish(s: State, r: RunID): State {
    s.(log := s.log + [r], place := s.place[r := Terminated])
  }

  function DoSubmit(s: State, r: RunID, h: nat): State {
    s.(pending := s.pending[s.nextId := Pending(r, h, true)],
       handles := if h == 0 then s.handles else s.handles[h := Attached],
       awaiting := s.awaiting + Named(r),
       nextId := s.nextId + 1,
       place := Move(s, Named(r), AtPending(s.nextId)))
  }

  /** The call leaves the coordinator without having entered Run; its reservation is abandoned. */
  function Abandon(s: State, id: nat): State
    requires id in s.pending
  {
    var p := s.pending[id];
    s.(pending := s.pending - {id},
       handles := if p.handle == 0 then s.handles else s.handles[p.handle := Abandoned],
       awaiting := s.awaiting - Named(p.runID))
  }

  /**
  coordinator.run returns an error before Run. runAgent publishes the fallback unless the
  error is context.Canceled; the in-process path has no runAgent and returns the error.
  */
  function DoPreFail(s: State, id: nat, canceled: bool): State
    requires id in s.pending
  {
    var p := s.pending[id];
    var t := Abandon(s, id);
    if p.runID == "" then t
    else if canceled || p.handle == 0 then t.(place := Move(t, {p.runID}, Lost))
    else Publish(t, p.runID)
  }

  /** Run's decision under the dispatch mutex; closing the reservation is the next step. */
  function TakeIn(s: State, id: nat): State
    requires id in s.pending
  {
    var p := s.pending[id];
    s.(core := Enter(s.core, p.runID, p.handle, s.nextId),
       pending := s.pending - {id},
       handles := if p.handle == 0 then s.handles else s.handles[p.handle := Entered],
       lock := if p.handle == 0 then Free else Entering(p.handle))
  }

  function DoEnter(s: State, id: nat): State
    requires id in s.pending
  {
    var p := s.pending[id];
    var t := TakeIn(s, id);
    match Decide(s.core, p.handle)
    case CancelOnEntry => Owe(t, Named(p.runID), p.hook)
    case Enqueue =>
      t.(awaiting := t.awaiting - Named(p.runID), place := Move(t, Named(p.runID), AtQueue))
    case Activate =>
      t.(frames := t.frames[t.nextId := Frame(p.runID, p.hook, Streaming)],
         nextId := t.nextId + 1,
         place := Move(t, Named(p.runID), AtRun(t.nextId)))
  }

  function DoEndAccepted(s: State, h: nat): State {
    s.(core := Release(s.core),
       handles := s.handles[h := Closed],
       lock := if s.lock == Leaving(h) then Free else s.lock)
  }

  function DoCancelClear(s: State): State {
    var rs := RunIDs(s.core.queue);
    Owe(s.(core := s.core.(queue := []), lock := Free), rs, false)
  }

  function DoDrainOne(s: State): State
    requires s.lock.Draining? && s.lock.todo != []
  {
    var q := s.lock.todo[0];
    s.(lock := Draining(
      s.lock.todo[1..],
      if Judge(s.core.mark, q) == Keep then s.lock.keep + [q] else s.lock.keep,
      if Judge(s.core.mark, q) == Report then s.lock.drops + [q] else s.lock.drops))
  }

  function DoDrainEnd(s: State): State
    requires s.lock.Draining?
  {
    Owe(s.(core := s.core.(queue := s.lock.keep), lock := Free), RunIDs(s.lock.drops), false)
  }

  function SetPhase(s: State, t: nat, p: Phase): State
    requires t in s.frames
  {
    s.(frames := s.frames[t := s.frames[t].(phase := p)])
  }

  /** The completion defer: the turn owes its terminal event. */
  function EndTurn(s: State, t: nat, p: Phase): State
    requires t in s.frames
  {
    Owe(SetPhase(s, t, p), Named(s.frames[t].runID), s.frames[t].hook)
  }

  function DoHandoffFilter(s: State, t: nat): State
    requires t in s.frames
  {
    var kept := Survivors(s.core.mark, s.core.queue);
    var owing := Owe(s, RunIDs(Drops(s.core.mark, s.core.queue)), false);
    var r := s.frames[t].runID;
    if kept == [] then owing.(core := s.core.(queue := []), lock := HandoffEmpty(t))
    else owing.(core := s.core.(queue := kept[1..]),
                lock := HandoffNext(t, kept[0], r != "" && r !in RunIDs(kept)),
                place := Move(owing, Named(kept[0].runID), AtHandoff))
  }

  function DoHandoffClear(s: State): State
    requires s.lock.HandoffRead? && s.lock.token in s.frames
  {
    EndTurn(s.(core := if s.lock.idle then s.core.(mark := 0) else s.core, lock := Free), s.lock.token, Handed)
  }

  /** The dequeued call gets a fresh reservation before the mutex is dropped. */
  function Readmit(s: State, c: Call): State {
    s.(core := Accept(s.core), lock := Free,
       handles := s.handles[s.core.gen + 1 := Attached],
       pending := s.pending[s.nextId := Pending(c.runID, s.core.gen + 1, false)],
       nextId := s.nextId + 1,
       place := Move(s, Named(c.runID), AtPending(s.nextId)))
  }

  function DoHandoffAccept(s: State): State
    requires s.lock.HandoffNext? && s.lock.token in s.frames
  {
    var u := Readmit(s, s.lock.next);
    if s.lock.owes then EndTurn(u, s.lock.token, Handed) else SetPhase(u, s.lock.token, Handed)
  }

  function DoEmit(s: State, r: RunID): State
    requires r in s.owed
  {
    var u := s.(owed := s.owed - {r});
    if s.owed[r] then u.(hooked := u.hooked + {r}, place := Move(u, {r}, AtHook))
    else Publish(u, r)
  }

  /** coordinator.run publishes what it coalesced; runAgent falls back only if nothing was published. */
  function DoCoordReturn(s: State, r: RunID, failed: bool): State {
    var u := s.(awaiting := s.awaiting - {r}, hooked := s.hooked - {r});
    if r in s.hooked || failed then Publish(u, r) else u
  }

  function Apply(s: State, e: Event): State
    requires Enabled(s, e)
  {
    match e
    case Begin => s.(core := Accept(s.core), handles := s.handles[s.core.gen + 1 := Reserved])
    case OtherBegin => s.(core := s.core.(gen := s.core.gen + 1))
    case Refuse(h) => s.(handles := s.handles[h := Closing])
    case Submit(r, h) => DoSubmit(s, r, h)
    case PreFail(id, canceled) => DoPreFail(s, id, canceled)
    case EnterRun(id) => DoEnter(s, id)
    case EnterClose => s.(handles := s.handles[s.lock.handle := Closing], lock := Leaving(s.lock.handle))
    case EndAccepted(h) => DoEndAccepted(s, h)
    case CloseUnentered(h) => s.(handles := s.handles[h := Closing])
    case CancelStart =>
      s.(lock := CancelRead(s.core.count > 0, s.core.gen), seenByCancel := s.handles.Keys)
    case CancelMark => s.(core := RaiseMark(s.core, s.lock.inFlight, s.lock.upto), lock := CancelMarked)
    case CancelClear => DoCancelClear(s)
    case DrainStart(t) => s.(lock := Draining(s.core.queue, [], []))
    case DrainOne => DoDrainOne(s)
    case DrainEnd => DoDrainEnd(s)
    case TurnFail(t) => EndTurn(s, t, Failed)
    case TurnRelease(t) => SetPhase(s.(core := s.core.(active := None)), t, Released)
    case HandoffFilter(t) => DoHandoffFilter(s, t)
    case HandoffCount => s.(lock := HandoffRead(s.lock.token, s.core.count == 0))
    case HandoffClear => DoHandoffClear(s)
    case HandoffAccept => DoHandoffAccept(s)
    case Cleanup(t) => SetPhase(s.(core := s.core.(active := CompareAndDelete(s.core.active, t))), t, Gone)
    case Emit(r) => DoEmit(s, r)
    case CoordReturn(r, failed) => DoCoordReturn(s, r, failed)
  }

  /* ---- Runs ---- */

  /** The state after a run, when every step of the run was enabled. */
  function After(es: seq<Event>): Option<State> {
    if es == [] then Some(INITIAL)
    else
      var prev := After(es[..|es| - 1]);
      if prev.Some? && Enabled(prev.value, es[|es| - 1])
      then Some(Apply(prev.value, es[|es| - 1])) else None
  }

  ghost predicate Reachable(s: State) {
    exists es :: After(es) == Some(s)
  }
}
