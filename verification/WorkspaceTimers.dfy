/**
Timers that are stopped too late, and teardowns that are decided twice. Timer.Stop does not
recall a callback that already fired; whether that matters depends on the operation.
*/
module WorkspaceTimers {
  import opened Common
  import opened Workspaces
  import opened WorkspaceSafety
  import opened WorkspaceResults

  /* ---- Grace timers ---- */

  /** If callback j still matches the claim it captured, it is the callback of that claim's timer. */
  ghost predicate OwnAt(k: Claims, j: nat) {
    j in k.holds ==>
      var x := ClaimAt(k, k.holds[j].ws, k.holds[j].client);
      x.Some? && x.value.id == k.holds[j].claim ==> x.value.timer == Some(j)
  }

  ghost predicate AllOwn(k: Claims) {
    forall j :: OwnAt(k, j)
  }

  lemma RegisterKeepsOwn(k: Claims, v: nat, d: Client, stopped: bool)
    requires Fresh(k) && v in k.all && Held(k, v, d) && AllOwn(k)
    ensures AllOwn(Register(k, v, d, stopped))
  {
    var t := Register(k, v, d, stopped);
    forall j ensures OwnAt(t, j) { assert OwnAt(k, j); }
  }

  lemma AttachInTimeKeepsOwn(k: Claims, v: nat, d: Client)
    requires Fresh(k) && v in k.all && Held(k, v, d) && AllOwn(k)
    ensures AllOwn(AddStream(k, v, d, true))
  {
    var t := AddStream(k, v, d, true);
    forall j ensures OwnAt(t, j) { assert OwnAt(k, j); }
  }

  lemma DetachKeepsOwn(k: Claims, grace: bool, v: nat, d: Client)
    requires Fresh(k) && v in k.all && Held(k, v, d) && AllOwn(k)
    ensures AllOwn(DropStream(k, grace, v, d))
  {
    var t := DropStream(k, grace, v, d);
    forall j ensures OwnAt(t, j) { assert OwnAt(k, j); }
  }

  lemma ReleaseKeepsOwn(k: Claims, v: nat, d: Client, stopped: bool)
    requires Fresh(k) && v in k.all && Held(k, v, d) && AllOwn(k)
    ensures AllOwn(GiveUp(k, v, d, stopped))
  {
    var t := GiveUp(k, v, d, stopped);
    forall j ensures OwnAt(t, j) { assert OwnAt(k, j); }
  }

  lemma CallbackKeepsOwn(k: Claims, i: nat)
    requires i in k.holds && AllOwn(k)
    ensures AllOwn(RunCallback(k, i))
  {
    var t := RunCallback(k, i);
    forall j ensures OwnAt(t, j) { assert OwnAt(k, j); }
  }

  lemma RetireKeepsOwn(k: Claims, live: set<nat>, c: Client, stopped: set<nat>)
    requires Fresh(k) && AllOwn(k)
    ensures AllOwn(Forget(k, live, c, stopped))
  {
    var t := Forget(k, live, c, stopped);
    ForgetMoves(k, live, c, stopped);
    forall j ensures OwnAt(t, j) { assert OwnAt(k, j); }
  }

  lemma NewWorkspaceKeepsOwn(k: Claims, w: nat, d: Client, p: Path)
    requires Fresh(k) && w !in k.all && AllOwn(k)
    ensures AllOwn(WithCreator(k, w, d, p))
  {
    var t := WithCreator(k, w, d, p);
    forall j ensures OwnAt(t, j) { assert OwnAt(k, j); }
  }

  lemma CommitKeepsOwn(s: State, j: nat, mismatch: bool, stopped: bool)
    requires Inv(s) && Enabled(s, CreateCommit(j, mismatch, stopped)) && AllOwn(s.claims)
    ensures AllOwn(DoCreateCommit(s, j, mismatch, stopped).claims)
  {
    var d, p := s.server.creates[j].client, s.server.creates[j].path;
    NewHeldIsWithCreator(s.claims, s.server.nextId, d, p);
    NewWorkspaceKeepsOwn(s.claims, s.server.nextId, d, p);
    if Existing(s.server, p) {
      assert InvAt(s, s.server.pathIndex[p], d);
      RegisterKeepsOwn(s.claims, s.server.pathIndex[p], d, stopped);
    }
  }

  lemma StepKeepsOwn(s: State, e: Event)
    requires Inv(s) && Enabled(s, e) && AllOwn(s.claims) && (e.Attach? ==> e.stopHold)
    ensures AllOwn(Apply(s, e).claims)
  {
    match e
    case CreateBegin(d, p, _, _, stopped) =>
      if Existing(s.server, p) {
        assert InvAt(s, s.server.pathIndex[p], d);
        RegisterKeepsOwn(s.claims, s.server.pathIndex[p], d, stopped);
      }
    case CreateCommit(j, mismatch, stopped) => CommitKeepsOwn(s, j, mismatch, stopped);
    case Attach(v, d, _) => assert InvAt(s, v, d); AttachInTimeKeepsOwn(s.claims, v, d);
    case Detach(v, d) => assert InvAt(s, v, d); DetachKeepsOwn(s.claims, s.cfg.grace, v, d);
    case Release(v, d, stopped) => assert InvAt(s, v, d); ReleaseKeepsOwn(s.claims, v, d, stopped);
    case Expire(i) => CallbackKeepsOwn(s.claims, i);
    case Retire(c, stopped) => RetireKeepsOwn(s.claims, s.server.live, c, stopped);
    case Teardown(w) => assert forall j :: OwnAt(s.claims, j) ==> OwnAt(Apply(s, e).claims, j);
    case _ =>
  }

  /**
  In a run whose attaches all stop the timer in time, a claim is only ever expired by its own
  timer, however late the stops of creates, releases and retirements come.
  */
  lemma {:induction false} OnlyItsTimerExpiresAClaim(cfg: Config, es: seq<Event>)
    requires Run(cfg, es) && forall e | e in es :: e.Attach? ==> e.stopHold
    ensures AllOwn(After(cfg, es).value.claims)
  {
    if es != [] {
      OnlyItsTimerExpiresAClaim(cfg, es[..|es| - 1]);
      LastStep(cfg, es);
      StepKeepsOwn(After(cfg, es[..|es| - 1]).value, es[|es| - 1]);
    }
  }

  /**
  A client in its grace attaches and loses the stream again: its claim is re-armed with a new
  timer, and the callback of the timer before still ends it exactly when that timer was stopped
  too late. expireHold compares the claim's identity, which detachStream keeps.
  */
  lemma LateStopCutsGrace(s: State, w: nat, c: Client, stop: bool, j: nat) returns (s1: State, s2: State)
    requires Reachable(s) && s.cfg.grace && w in s.server.live
    requires ClaimAt(s.claims, w, c).Some? && ClaimAt(s.claims, w, c).value.timer == Some(j)
    ensures Steps(s, Attach(w, c, stop), s1) && Steps(s1, Detach(w, c), s2) && Reachable(s2)
    ensures var x := ClaimAt(s2.claims, w, c);
            x.Some? && x.value.timer.Some? && x.value.timer != Some(j)
    ensures j in s2.claims.holds && Expires(s2.claims, s2.claims.holds[j]) <==> !stop
  {
    ReachableInv(s);
    assert InvAt(s, w, c);
    s1 := Apply(s, Attach(w, c, stop));
    s2 := Apply(s1, Detach(w, c));
    StepReaches(s, Attach(w, c, stop), s1);
    StepReaches(s1, Detach(w, c), s2);
  }

  /** A run to a claim whose grace a callback of an older timer is about to end. */
  lemma CutGraceIsReachable(cfg: Config, c: Client, p: Path) returns (s: State, w: nat, j: nat)
    requires cfg.grace
    ensures Reachable(s) && s.cfg == cfg && Enabled(s, Expire(j)) && s.claims.holds[j] == Hold(w, c, 0)
    ensures ClaimAt(s.claims, w, c).Some? && ClaimAt(s.claims, w, c).value.timer.Some?
    ensures ClaimAt(s.claims, w, c).value.timer != Some(j) && ClaimAt(Apply(s, Expire(j)).claims, w, c).None?
  {
    var u;
    u, w := OneWorkspace(cfg, c, p);
    j := 1;
    var m;
    m, s := LateStopCutsGrace(u, w, c, false, j);
  }

  /** A run that creates one workspace, held by its creator's timer. */
  lemma OneWorkspace(cfg: Config, c: Client, p: Path) returns (s: State, w: nat)
    ensures Reachable(s) && s.cfg == cfg && w in s.server.live && w in s.claims.all && s.claims.all[w].path == p
    ensures s.claims.all[w].clients == map[c := Claim(0, 0, Some(1), false)] && s.claims.holds == map[1 := Hold(w, c, 0)]
    ensures s.claims.teardowns == multiset{} && s.server.retired == {} && !s.server.closing && s.claims.nextId == 2
    ensures s.history.shutdowns == multiset{} && s.server.pathIndex == map[p := w] && s.server.live == {w}
    ensures s.history.paired && s.history.open == map[]
  {
    var s0 := Initial(cfg);
    assert After(cfg, []) == Some(s0);
    var s1 := Apply(s0, CreateBegin(c, p, false, true, true));
    StepReaches(s0, CreateBegin(c, p, false, true, true), s1);
    s := Apply(s1, CreateCommit(0, false, true));
    w := 1;
    StepReaches(s1, CreateCommit(0, false, true), s);
    NewHeldIsWithCreator(s1.claims, w, c, p);
  }

  /* ---- Streams of a client that retired ---- */

  /**
  Why StreamsAreOpenAttaches excludes clients that retired: a stream opened before retirement and
  closed after the client attached again takes a stream of the new claim, which is then held by a
  timer although one stream is open.
  */
  lemma LateDetachTakesAStream(cfg: Config, c: Client, p: Path) returns (s: State, w: nat)
    requires cfg.grace
    ensures Reachable(s) && s.history.paired && w in s.server.live && Open(s.history, w, c) == 1
    ensures ClaimAt(s.claims, w, c).Some? && Streams(ClaimAt(s.claims, w, c)) == 0
  {
    var s1;
    s1, w := OneWorkspace(cfg, c, p);
    var s2 := AttachOnce(s1, w, c);
    var s3 := RetireAll(s2, w, c);
    var s4 := AttachOnce(s3, w, c);
    s := Apply(s4, Detach(w, c));
    StepReaches(s4, Detach(w, c), s);
  }

  lemma AttachOnce(s: State, w: nat, c: Client) returns (t: State)
    requires Reachable(s) && w in s.server.live && w in s.claims.all
    requires ClaimAt(s.claims, w, c).Some? ==> ClaimAt(s.claims, w, c).value.streams == 0 && !ClaimAt(s.claims, w, c).value.released
    ensures Steps(s, Attach(w, c, true), t) && Reachable(t) && t.cfg == s.cfg && t.server == s.server
    ensures ClaimAt(t.claims, w, c).Some? && w in t.claims.all
    ensures var x := ClaimAt(t.claims, w, c).value; x.streams == 1 && x.timer.None? && !x.released
    ensures t.history.paired == s.history.paired && Open(t.history, w, c) == Open(s.history, w, c) + 1
  {
    t := Apply(s, Attach(w, c, true));
    StepReaches(s, Attach(w, c, true), t);
  }

  lemma RetireAll(s: State, w: nat, c: Client) returns (t: State)
    requires Reachable(s) && w in s.server.live && w in s.claims.all
    ensures Steps(s, Retire(c, {}), t) && Reachable(t) && t.cfg == s.cfg && t.server.live == s.server.live
    ensures w in t.claims.all && ClaimAt(t.claims, w, c).None?
    ensures t.history.paired == s.history.paired && t.history.open == s.history.open
  {
    t := Apply(s, Retire(c, {}));
    StepReaches(s, Retire(c, {}), t);
  }

  /* ---- The idle timer ---- */

  ghost predicate IdleIds(v: Server) {
    forall j | j in v.idles :: j < v.nextId
  }

  lemma {:induction false} IdleIdsAlways(cfg: Config, es: seq<Event>)
    requires Run(cfg, es)
    ensures IdleIds(After(cfg, es).value.server)
  {
    if es != [] {
      IdleIdsAlways(cfg, es[..|es| - 1]);
      LastStep(cfg, es);
      IdleIdsStep(After(cfg, es[..|es| - 1]).value, es[|es| - 1]);
    }
  }

  lemma IdleIdsStep(s: State, e: Event)
    requires IdleIds(s.server) && Enabled(s, e)
    ensures IdleIds(Apply(s, e).server)
  {
  }

  lemma SlowCreateStarts(s: State, c: Client, p: Path, stop: bool, j: nat) returns (t: State)
    requires Reachable(s) && s.server.timer == Some(j) && Admitted(s.server, c)
    requires s.server.live == {} && s.server.creates == map[]
    ensures Steps(s, CreateBegin(c, p, false, stop, true), t) && Reachable(t) && t.cfg == s.cfg
    ensures var i := s.server.nextId;
            && t.server.live == {} && t.server.pending == 1 && t.server.creates == map[i := Initializing(c, p)]
            && t.server.timer.None? && !t.server.closing && t.server.nextId == i + 1 && j < i
            && (j in t.server.idles <==> !stop)
  {
    ReachableInv(s);
    var es :| After(s.cfg, es) == Some(s);
    IdleIdsAlways(s.cfg, es);
    t := Apply(s, CreateBegin(c, p, false, stop, true));
    StepReaches(s, CreateBegin(c, p, false, stop, true), t);
  }

  /**
  A create that cancels the idle timer and fails leaves the server idle under a new timer. The
  old timer's callback still shuts it down, before the new linger is over, exactly when it was
  stopped too late.
  */
  lemma LateStopCutsLinger(s: State, c: Client, p: Path, stop: bool, j: nat) returns (s1: State, s2: State, s3: State)
    requires Reachable(s) && s.cfg.hook && s.cfg.linger && s.server.timer == Some(j) && Admitted(s.server, c)
    requires s.server.live == {} && s.server.creates == map[]
    ensures Steps(s, CreateBegin(c, p, false, stop, true), s1)
    ensures Steps(s1, CreateFail(s.server.nextId), s2) && Steps(s2, CreateSettle(s.server.nextId), s3) && Reachable(s3)
    ensures s3.server.timer.Some? && s3.server.timer != Some(j) && !s3.server.closing
    ensures Enabled(s3, IdleFire(j)) <==> !stop
    ensures !stop ==> Apply(s3, IdleFire(j)).server.closing
  {
    s1 := SlowCreateStarts(s, c, p, stop, j);
    s2 := Apply(s1, CreateFail(s.server.nextId));
    StepReaches(s1, CreateFail(s.server.nextId), s2);
    s3 := Apply(s2, CreateSettle(s.server.nextId));
    StepReaches(s2, CreateSettle(s.server.nextId), s3);
  }

  /* ---- How often a workspace is shut down ---- */

  ghost predicate ShutInv(s: State) {
    forall w :: s.history.shutdowns[w] > 0 <==> w in s.claims.all && w !in s.server.live
  }

  lemma ShutStep(s: State, e: Event)
    requires Whole(s) && ShutInv(s) && Enabled(s, e)
    ensures ShutInv(Apply(s, e))
  {
    if e.CreateCommit? {
      CommitRegisters(s, e);
    } else if e.Teardown? {
      TeardownShuts(s, e.ws);
    } else {
      OthersLeaveLive(s, e);
    }
  }

  lemma {:induction false} ShutAlways(cfg: Config, es: seq<Event>)
    requires Run(cfg, es)
    ensures ShutInv(After(cfg, es).value)
  {
    if es != [] {
      ShutAlways(cfg, es[..|es| - 1]);
      LastStep(cfg, es);
      ShutStep(After(cfg, es[..|es| - 1]).value, es[|es| - 1]);
    }
  }

  /** A workspace was shut down if and only if it is removed. */
  lemma ShutDownIffRemoved(s: State, w: nat)
    requires Reachable(s) && w in s.claims.all
    ensures s.history.shutdowns[w] > 0 <==> w !in s.server.live
  {
    var es :| After(s.cfg, es) == Some(s);
    ShutAlways(s.cfg, es);
  }

  /** On a workspace without entries no operation decides another teardown. */
  lemma NoNewTeardowns(k: Claims, v: nat, d: Client, stopped: bool, grace: bool, w: nat)
    requires v in k.all && Unclaimed(k, w)
    ensures Register(k, v, d, stopped).teardowns[w] == k.teardowns[w]
    ensures AddStream(k, v, d, stopped).teardowns[w] == k.teardowns[w]
    ensures DropStream(k, grace, v, d).teardowns[w] == k.teardowns[w]
    ensures GiveUp(k, v, d, stopped).teardowns[w] == k.teardowns[w]
  {
  }

  /** Shutdowns of w and its outstanding teardowns together. */
  function Tally(s: State, w: nat): nat {
    s.history.shutdowns[w] + s.claims.teardowns[w]
  }

  lemma ConservedByCreates(s: State, e: Event, w: nat)
    requires Enabled(s, e) && (e.CreateBegin? || e.CreateCommit?) && Unclaimed(s.claims, w)
    ensures Tally(Apply(s, e), w) == Tally(s, w)
  {
    match e
    case CreateBegin(d, p, _, _, stopped) =>
      if Existing(s.server, p) { NoNewTeardowns(s.claims, s.server.pathIndex[p], d, stopped, true, w); }
    case CreateCommit(j, _, stopped) =>
      var p := s.server.creates[j].path;
      if Existing(s.server, p) { NoNewTeardowns(s.claims, s.server.pathIndex[p], s.server.creates[j].client, stopped, true, w); }
  }

  lemma ConservedByClients(s: State, e: Event, w: nat)
    requires Enabled(s, e) && (e.Attach? || e.Detach? || e.Release? || e.Expire?) && Unclaimed(s.claims, w)
    ensures Tally(Apply(s, e), w) == Tally(s, w)
  {
    match e
    case Attach(v, d, stopped) => NoNewTeardowns(s.claims, v, d, stopped, true, w);
    case Detach(v, d) => NoNewTeardowns(s.claims, v, d, true, s.cfg.grace, w);
    case Release(v, d, stopped) => NoNewTeardowns(s.claims, v, d, stopped, true, w);
    case Expire(_) =>
  }

  lemma ConservedStep(s: State, e: Event, w: nat)
    requires Inv(s) && Enabled(s, e) && w in s.claims.all && w !in s.server.live
    ensures Tally(Apply(s, e), w) == Tally(s, w)
  {
    assert InvAt(s, w, "");
    if e.CreateBegin? || e.CreateCommit? {
      ConservedByCreates(s, e, w);
    } else if e.Attach? || e.Detach? || e.Release? || e.Expire? {
      ConservedByClients(s, e, w);
    }
  }

  /**
  From its removal at step n on, a workspace's shutdowns and outstanding teardowns add up to the
  teardowns that were outstanding then. So it is shut down once if that was the only one, and
  once for each of them otherwise.
  */
  lemma {:induction false} ShutdownsAreItsTeardowns(cfg: Config, es: seq<Event>, n: nat, w: nat, s: State, t: State)
    requires n < |es| && es[n] == Teardown(w) && After(cfg, es[..n]) == Some(s) && After(cfg, es) == Some(t)
    requires w in s.server.live && Unclaimed(s.claims, w)
    ensures Tally(t, w) == s.claims.teardowns[w] && w in t.claims.all && w !in t.server.live
  {
    var fs := es[..|es| - 1];
    LastStep(cfg, es);
    var u := After(cfg, fs).value;
    if n == |es| - 1 {
      ShutAlways(cfg, fs);
    } else {
      assert fs[..n] == es[..n];
      ShutdownsAreItsTeardowns(cfg, fs, n, w, s, u);
      ConservedStep(u, es[|es| - 1], w);
      RemovedStep(u, es[|es| - 1], w);
    }
  }

  lemma JoinUnclaimed(s: State, w: nat, c: Client, p: Path) returns (t: State)
    requires Reachable(s) && w in s.server.live && Unclaimed(s.claims, w) && s.claims.all[w].path == p && Admitted(s.server, c)
    ensures Steps(s, CreateBegin(c, p, false, true, true), t) && Reachable(t)
    ensures w in t.claims.all && t.claims.all[w].clients.Keys == {c} && t.claims.all[w].clients[c].streams == 0
    ensures t.claims.teardowns == s.claims.teardowns && t.history == s.history && t.server.live == s.server.live && t.cfg == s.cfg
  {
    ReachableInv(s);
    t := Apply(s, CreateBegin(c, p, false, true, true));
    StepReaches(s, CreateBegin(c, p, false, true, true), t);
  }

  lemma RunTeardown(s: State, w: nat) returns (t: State)
    requires Reachable(s) && w in s.claims.all && w in s.claims.teardowns && Unclaimed(s.claims, w)
    ensures Steps(s, Teardown(w), t) && Reachable(t) && t.cfg == s.cfg
    ensures Unclaimed(t.claims, w) && t.claims.teardowns == s.claims.teardowns - multiset{w}
    ensures t.history.shutdowns == s.history.shutdowns + multiset{w}
  {
    t := Apply(s, Teardown(w));
    StepReaches(s, Teardown(w), t);
  }

  /**
  A workspace shut down twice: a client joins between the last release and its teardown, and
  gives up too, so that two teardowns are outstanding.
  */
  lemma DoubleShutdownIsReachable(cfg: Config, a: Client, b: Client, p: Path) returns (s: State, w: nat)
    ensures Reachable(s) && s.cfg == cfg && s.history.shutdowns[w] == 2
  {
    var s1;
    s1, w := OneWorkspace(cfg, a, p);
    var s2 := ReleaseLast(s1, w, a);
    var s3 := JoinUnclaimed(s2, w, b, p);
    var s4 := ReleaseLast(s3, w, b);
    var s5 := RunTeardown(s4, w);
    s := RunTeardown(s5, w);
  }

  lemma ReleaseLast(s: State, w: nat, c: Client) returns (t: State)
    requires Reachable(s) && w in s.claims.all && c in s.claims.all[w].clients && s.claims.all[w].clients.Keys == {c}
    requires s.claims.all[w].clients[c].streams == 0
    ensures Steps(s, Release(w, c, true), t) && Reachable(t)
    ensures t.server == s.server && t.history == s.history && t.cfg == s.cfg && t.claims.all[w].path == s.claims.all[w].path
    ensures Unclaimed(t.claims, w) && t.claims.teardowns == s.claims.teardowns + multiset{w}
  {
    t := Apply(s, Release(w, c, true));
    assert (s.claims.all[w].clients - {c}).Keys == {};
    StepReaches(s, Release(w, c, true), t);
  }
}
