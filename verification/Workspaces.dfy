/**
The life of workspaces under client claims, as `Backend` decides it. Each step is one critical
section under `Backend.mu` or `Workspace.clientsMu`. Whatever the program leaves outstanding
between sections is explicit: creates inside their unlocked initialization, teardowns that were
decided but have not taken `Backend.mu`, and timer callbacks that may still run, including
callbacks of timers that were stopped too late.
*/
module Workspaces {
  import opened Common

  type Client = string
  type Path = string

  /** clientState. id is the identity of the object, which expireHold compares. */
  datatype Claim = Claim(id: nat, streams: nat, timer: Option<nat>, released: bool)

  datatype Workspace = Workspace(path: Path, clients: map<Client, Claim>)

  /** What a grace timer's callback has captured. */
  datatype Hold = Hold(ws: nat, client: Client, claim: nat)

  /** Every workspace ever registered (removed ones are still referenced), and what clientsMu guards. */
  datatype Claims = Claims(
    all: map<nat, Workspace>,
    holds: map<nat, Hold>,        // grace callbacks that may still run
    teardowns: multiset<nat>,     // decided, not yet run
    nextId: nat)

  /** A create past its first section: still initializing, or with only its deferred part left. */
  datatype Create = Initializing(client: Client, path: Path) | Settling

  /** What Backend.mu guards. */
  datatype Server = Server(
    live: set<nat>,               // the keys of Backend.workspaces
    pathIndex: map<Path, nat>,
    pending: nat,
    closing: bool,
    timer: Option<nat>,           // shutdownTimer
    retired: set<Client>,
    creates: map<nat, Create>,
    idles: set<nat>,              // idle-shutdown callbacks that may still run
    nextId: nat)

  /** History variables: the program does not have them and no step depends on them. */
  datatype History = History(
    slow: bool,                   // some create reached its slow path
    back: set<Client>,            // clients that attached after they retired
    open: map<(nat, Client), nat>, // attaches minus detaches
    paired: bool,                 // every detach had its attach
    shutdowns: multiset<nat>)     // invocations of a workspace's shutdown

  /** hook: a shutdown function is set. linger, grace: those windows are not zero. */
  datatype Config = Config(hook: bool, linger: bool, grace: bool)

  datatype State = State(cfg: Config, claims: Claims, server: Server, history: History)

  function Initial(cfg: Config): State {
    State(cfg,
          Claims(map[], map[], multiset{}, 0),
          Server({}, map[], 0, false, None, {}, map[], {}, 0),
          History(false, {}, map[], true, multiset{}))
  }

  /* ---- Claims of one workspace, under clientsMu ---- */

  function Put(k: Claims, w: nat, c: Client, x: Claim): (t: Claims)
    requires w in k.all
    ensures t.all.Keys == k.all.Keys && t.nextId >= k.nextId
  {
    k.(all := k.all[w := k.all[w].(clients := k.all[w].clients[c := x])])
  }

  /** The entry goes; the last one to go leaves a teardown behind. */
  function Drop(k: Claims, w: nat, c: Client): (t: Claims)
    requires w in k.all
    ensures t.all.Keys == k.all.Keys && t.nextId >= k.nextId
  {
    var rest := k.all[w].clients - {c};
    k.(all := k.all[w := k.all[w].(clients := rest)],
       teardowns := if rest == map[] then k.teardowns + multiset{w} else k.teardowns)
  }

  /** Timer.Stop; when it comes too late the callback is still going to run. */
  function Stop(k: Claims, timer: Option<nat>, stopped: bool): Claims {
    if timer.Some? && stopped then k.(holds := k.holds - {timer.value}) else k
  }

  /** newHeldClient: a fresh claim held by a timer alone. */
  function NewHeld(k: Claims, w: nat, c: Client): (t: Claims)
    requires w in k.all
    ensures t.all.Keys == k.all.Keys && t.nextId >= k.nextId
  {
    Put(k, w, c, Claim(k.nextId, 0, Some(k.nextId + 1), false)).(
      holds := k.holds[k.nextId + 1 := Hold(w, c, k.nextId)], nextId := k.nextId + 2)
  }

  /** registerClient. */
  function Register(k: Claims, w: nat, c: Client, stopped: bool): (t: Claims)
    requires w in k.all
    ensures t.all.Keys == k.all.Keys && t.nextId >= k.nextId
  {
    if c !in k.all[w].clients then NewHeld(k, w, c)
    else
      var x := k.all[w].clients[c];
      if x.timer == None then Put(k, w, c, x.(released := false))
      else NewHeld(Stop(k, x.timer, stopped), w, c)
  }

  /** AttachClient, once the workspace was found. */
  function AddStream(k: Claims, w: nat, c: Client, stopped: bool): (t: Claims)
    requires w in k.all
    ensures t.all.Keys == k.all.Keys && t.nextId >= k.nextId
  {
    if c !in k.all[w].clients then Put(k, w, c, Claim(k.nextId, 1, None, false)).(nextId := k.nextId + 1)
    else
      var x := k.all[w].clients[c];
      Put(Stop(k, x.timer, stopped), w, c, x.(timer := None, streams := x.streams + 1))
  }

  /** detachStream. A dropped stream re-arms the same claim object. */
  function DropStream(k: Claims, grace: bool, w: nat, c: Client): (t: Claims)
    requires w in k.all
    ensures t.all.Keys == k.all.Keys && t.nextId >= k.nextId
  {
    if c !in k.all[w].clients then k
    else
      var x := k.all[w].clients[c];
      var left := if x.streams > 0 then x.streams - 1 else 0;
      if left > 0 || x.timer != None then Put(k, w, c, x.(streams := left))
      else if grace && !x.released then
        Put(k, w, c, x.(streams := 0, timer := Some(k.nextId))).(
          holds := k.holds[k.nextId := Hold(w, c, x.id)], nextId := k.nextId + 1)
      else Drop(k, w, c)
  }

  /** releaseHoldLocked. */
  function GiveUp(k: Claims, w: nat, c: Client, stopped: bool): (t: Claims)
    requires w in k.all
    ensures t.all.Keys == k.all.Keys && t.nextId >= k.nextId
  {
    if c !in k.all[w].clients then k
    else
      var x := k.all[w].clients[c];
      var u := Stop(k, x.timer, stopped);
      if x.streams == 0 then Drop(u, w, c) else Put(u, w, c, x.(timer := None, released := true))
  }

  /** expireHold's test: the entry is the captured object, held by a timer, without streams. */
  predicate Expires(k: Claims, h: Hold) {
    h.ws in k.all && h.client in k.all[h.ws].clients &&
    var x := k.all[h.ws].clients[h.client]; x.id == h.claim && x.timer.Some? && x.streams == 0
  }

  function RunCallback(k: Claims, j: nat): (t: Claims)
    requires j in k.holds
    ensures t.all.Keys == k.all.Keys && t.nextId >= k.nextId
  {
    var u := k.(holds := k.holds - {j});
    if Expires(k, k.holds[j]) then Drop(u, k.holds[j].ws, k.holds[j].client) else u
  }

  /** RetireClient's loop over the live workspaces. stopped: the timers that were stopped in time. */
  function Forget(k: Claims, live: set<nat>, c: Client, stopped: set<nat>): (t: Claims) {
    k.(all := map w | w in k.all :: if w in live then k.all[w].(clients := k.all[w].clients - {c}) else k.all[w],
       holds := k.holds - (TimersOf(k, live, c) * stopped),
       teardowns := k.teardowns + multiset(LastOn(k, live, c)))
  }

  /** The timers under which client c holds live workspaces. */
  function TimersOf(k: Claims, live: set<nat>, c: Client): set<nat> {
    set w | w in live && w in k.all && c in k.all[w].clients && k.all[w].clients[c].timer.Some? ::
      k.all[w].clients[c].timer.value
  }

  /** The live workspaces on which c's claim is the last one. */
  function LastOn(k: Claims, live: set<nat>, c: Client): set<nat> {
    set w | w in live && w in k.all && c in k.all[w].clients && k.all[w].clients - {c} == map[]
  }

  /* ---- Server state, under Backend.mu ---- */

  predicate Idle(v: Server) {
    v.live == {} && v.pending == 0
  }

  /** scheduleShutdownIfIdleLocked. */
  function Schedule(v: Server, cfg: Config): Server {
    if !cfg.hook || !Idle(v) then v
    else if !cfg.linger then v.(closing := true)
    else if v.timer.None? then v.(timer := Some(v.nextId), idles := v.idles + {v.nextId}, nextId := v.nextId + 1)
    else v
  }

  /** cancelShutdownLocked. */
  function CancelIdle(v: Server, stopped: bool): Server {
    if v.timer.None? then v
    else v.(timer := None, idles := if stopped then v.idles - {v.timer.value} else v.idles)
  }

  /** teardown's removal of workspace w, which was registered at p. */
  function Remove(v: Server, cfg: Config, w: nat, p: Path): Server {
    Schedule(v.(pathIndex := if p in v.pathIndex && v.pathIndex[p] == w then v.pathIndex - {p} else v.pathIndex,
                live := v.live - {w}), cfg)
  }

  /** maybeShutdown. */
  function IdleCallback(v: Server, t: nat): Server {
    v.(idles := v.idles - {t}, timer := None, closing := v.closing || Idle(v))
  }

  /** admitLocked. */
  predicate Admitted(v: Server, c: Client) {
    !v.closing && c !in v.retired
  }

  /** A live workspace is already indexed at p. */
  predicate Existing(v: Server, p: Path) {
    p in v.pathIndex && v.pathIndex[p] in v.live
  }

  /** The commitment to the slow path: pending, with any stale index entry cleaned. */
  function Commit(v: Server, c: Client, p: Path): Server {
    v.(pathIndex := v.pathIndex - {p}, pending := v.pending + 1,
       creates := v.creates[v.nextId := Initializing(c, p)], nextId := v.nextId + 1)
  }

  /** The deferred part of a create. */
  function SettleOne(v: Server, cfg: Config, k: nat): Server {
    Schedule(v.(creates := v.creates - {k}, pending := if v.pending > 0 then v.pending - 1 else 0), cfg)
  }

  /* ---- The steps ---- */

  function Open(h: History, w: nat, c: Client): nat {
    if (w, c) in h.open then h.open[(w, c)] else 0
  }

  function CountAttach(h: History, w: nat, c: Client, retired: bool): History {
    h.(open := h.open[(w, c) := Open(h, w, c) + 1], back := if retired then h.back + {c} else h.back)
  }

  function CountDetach(h: History, w: nat, c: Client): History {
    var n := Open(h, w, c);
    h.(open := h.open[(w, c) := if n > 0 then n - 1 else 0], paired := h.paired && n > 0)
  }

  datatype Event =
    | CreateBegin(client: Client, path: Path, mismatch: bool, stopIdle: bool, stopHold: bool)
    | CreateFail(create: nat)
    | CreateCommit(create: nat, mismatch: bool, stopHold: bool)
    | CreateSettle(create: nat)
    | Attach(ws: nat, client: Client, stopHold: bool)
    | Detach(ws: nat, client: Client)
    | Release(ws: nat, client: Client, stopHold: bool)
    | Expire(timer: nat)
    | Retire(client: Client, stopped: set<nat>)
    | Teardown(ws: nat)
    | IdleFire(timer: nat)
    | ShutdownIfIdle

  /** A workspace reference in hand refers to a workspace that was registered at some time. */
  predicate Enabled(s: State, e: Event) {
    match e
    case CreateBegin(_, p, _, _, _) => Existing(s.server, p) ==> s.server.pathIndex[p] in s.claims.all
    case CreateFail(k) => k in s.server.creates && s.server.creates[k].Initializing?
    case CreateCommit(k, _, _) =>
      k in s.server.creates && s.server.creates[k].Initializing? &&
      (Existing(s.server, s.server.creates[k].path) ==> s.server.pathIndex[s.server.creates[k].path] in s.claims.all)
    case CreateSettle(k) => k in s.server.creates && s.server.creates[k] == Settling
    case Attach(w, _, _) => w in s.server.live && w in s.claims.all
    case Detach(w, _) => w in s.claims.all
    case Release(w, _, _) => w in s.claims.all
    case Expire(t) => t in s.claims.holds
    case Retire(_, _) => true
    case Teardown(w) => w in s.claims.teardowns && w in s.claims.all
    case IdleFire(t) => t in s.server.idles
    case ShutdownIfIdle => true
  }

  /** CreateWorkspace up to its first unlock. */
  function DoCreateBegin(s: State, c: Client, p: Path, mismatch: bool, stopIdle: bool, stopHold: bool): State
    requires Existing(s.server, p) ==> s.server.pathIndex[p] in s.claims.all
  {
    if !Admitted(s.server, c) then s
    else
      var v := CancelIdle(s.server, stopIdle);
      if !Existing(s.server, p) then s.(server := Commit(v, c, p), history := s.history.(slow := true))
      else if mismatch then s.(server := v)
      else s.(server := v, claims := Register(s.claims, s.server.pathIndex[p], c, stopHold))
  }

  /** Its section after the initialization. */
  function DoCreateCommit(s: State, k: nat, mismatch: bool, stopHold: bool): State
    requires k in s.server.creates && s.server.creates[k].Initializing?
    requires Existing(s.server, s.server.creates[k].path) ==> s.server.pathIndex[s.server.creates[k].path] in s.claims.all
  {
    var c, p := s.server.creates[k].client, s.server.creates[k].path;
    var v := s.server.(creates := s.server.creates[k := Settling]);
    if !Admitted(s.server, c) || (Existing(s.server, p) && mismatch) then s.(server := v)
    else if Existing(s.server, p) then
      s.(server := v, claims := Register(s.claims, s.server.pathIndex[p], c, stopHold))
    else
      var w := v.nextId;
      s.(server := v.(live := v.live + {w}, pathIndex := v.pathIndex[p := w], nextId := w + 1),
         claims := NewHeld(s.claims.(all := s.claims.all[w := Workspace(p, map[])]), w, c))
  }

  function DoTeardown(s: State, w: nat): State
    requires w in s.claims.all
  {
    var k := s.claims.(teardowns := s.claims.teardowns - multiset{w});
    if k.all[w].clients != map[] then s.(claims := k)
    else s.(claims := k, server := Remove(s.server, s.cfg, w, k.all[w].path),
            history := s.history.(shutdowns := s.history.shutdowns + multiset{w}))
  }

  function DoRetire(s: State, c: Client, stopped: set<nat>): State {
    s.(server := s.server.(retired := s.server.retired + {c}),
       claims := Forget(s.claims, s.server.live, c, stopped),
       history := s.history.(back := s.history.back - {c}))
  }

  function Apply(s: State, e: Event): State
    requires Enabled(s, e)
  {
    match e
    case CreateBegin(c, p, mismatch, stopIdle, stopHold) => DoCreateBegin(s, c, p, mismatch, stopIdle, stopHold)
    case CreateFail(k) => s.(server := s.server.(creates := s.server.creates[k := Settling]))
    case CreateCommit(k, mismatch, stopHold) => DoCreateCommit(s, k, mismatch, stopHold)
    case CreateSettle(k) => s.(server := SettleOne(s.server, s.cfg, k))
    case Attach(w, c, stopHold) =>
      s.(claims := AddStream(s.claims, w, c, stopHold), history := CountAttach(s.history, w, c, c in s.server.retired))
    case Detach(w, c) =>
      s.(claims := DropStream(s.claims, s.cfg.grace, w, c), history := CountDetach(s.history, w, c))
    case Release(w, c, stopHold) => s.(claims := GiveUp(s.claims, w, c, stopHold))
    case Expire(t) => s.(claims := RunCallback(s.claims, t))
    case Retire(c, stopped) => DoRetire(s, c, stopped)
    case Teardown(w) => DoTeardown(s, w)
    case IdleFire(t) => s.(server := IdleCallback(s.server, t))
    case ShutdownIfIdle => s.(server := s.server.(closing := s.server.closing || Idle(s.server)))
  }

  /** The state after a run, when every step of the run was enabled. */
  function After(cfg: Config, es: seq<Event>): Option<State> {
    if es == [] then Some(Initial(cfg))
    else
      var prev := After(cfg, es[..|es| - 1]);
      if prev.Some? && Enabled(prev.value, es[|es| - 1])
      then Some(Apply(prev.value, es[|es| - 1])) else None
  }

  ghost predicate Reachable(s: State) {
    exists es :: After(s.cfg, es) == Some(s)
  }
}
