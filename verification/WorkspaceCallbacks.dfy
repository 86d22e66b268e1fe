/**
Which callbacks of timers that were stopped too late can still end something, over every run: an
idle callback its server's linger, a hold callback its client's grace.
*/
module WorkspaceCallbacks {
  import opened Common
  import opened Workspaces
  import opened WorkspaceSafety
  import opened WorkspaceResults
  import Timers = WorkspaceTimers

  /* ---- Idle callbacks ---- */

  /** An idle timer is armed only while the server is idle. */
  ghost predicate ArmedWhenIdle(v: Server) {
    Timers.IdleIds(v) && (v.timer.Some? ==> Idle(v))
  }

  lemma ArmedWhenIdleStep(s: State, e: Event)
    requires Whole(s) && ArmedWhenIdle(s.server) && Enabled(s, e)
    ensures ArmedWhenIdle(Apply(s, e).server)
  {
    Timers.IdleIdsStep(s, e);
    match e
    case CreateCommit(j, _, _) => PendingIsNotIdle(s, j);
    case CreateSettle(j) => PendingIsNotIdle(s, j);
    case _ =>
  }

  lemma PendingIsNotIdle(s: State, j: nat)
    requires Whole(s) && j in s.server.creates
    ensures s.server.pending > 0
  {
  }

  lemma {:induction false} ArmedWhenIdleAlways(cfg: Config, es: seq<Event>)
    requires Run(cfg, es)
    ensures ArmedWhenIdle(After(cfg, es).value.server)
  {
    if es != [] {
      ArmedWhenIdleAlways(cfg, es[..|es| - 1]);
      LastStep(cfg, es);
      ArmedWhenIdleStep(After(cfg, es[..|es| - 1]).value, es[|es| - 1]);
    }
  }

  /** Every idle callback that can come is that of the armed timer. */
  ghost predicate OnlyArmed(v: Server) {
    forall j | j in v.idles :: v.timer == Some(j)
  }

  lemma OnlyArmedStep(s: State, e: Event)
    requires OnlyArmed(s.server) && Enabled(s, e) && (e.CreateBegin? ==> e.stopIdle)
    ensures OnlyArmed(Apply(s, e).server)
  {
    if !e.CreateBegin? && !e.CreateSettle? && !e.Teardown? && !e.IdleFire? { OthersKeepIdles(s, e); }
  }

  /**
  In every run whose creates all stop the idle timer in time, the armed timer's callback is the
  only one outstanding, so that only the armed timer closes the server.
  */
  lemma OnlyTheArmedTimerCloses(cfg: Config, es: seq<Event>)
    requires Run(cfg, es) && forall e | e in es :: e.CreateBegin? ==> e.stopIdle
    ensures forall j: nat :: Enabled(After(cfg, es).value, IdleFire(j)) ==> After(cfg, es).value.server.timer == Some(j)
  {
    OnlyArmedAlways(cfg, es);
  }

  lemma {:induction false} OnlyArmedAlways(cfg: Config, es: seq<Event>)
    requires Run(cfg, es) && forall e | e in es :: e.CreateBegin? ==> e.stopIdle
    ensures OnlyArmed(After(cfg, es).value.server)
  {
    if es != [] {
      OnlyArmedAlways(cfg, es[..|es| - 1]);
      LastStep(cfg, es);
      OnlyArmedStep(After(cfg, es[..|es| - 1]).value, es[|es| - 1]);
    }
  }

  predicate ForeignIdle(v: Server, j: nat) {
    j in v.idles && v.timer != Some(j)
  }

  /** A create cancels idle timer j, too late. */
  predicate MissesIdle(v: Server, e: Event, j: nat) {
    e.CreateBegin? && !e.stopIdle && Admitted(v, e.client) && v.timer == Some(j)
  }

  /** Step k cancels timer j too late. */
  ghost predicate MissesIdleAt(cfg: Config, es: seq<Event>, k: nat, j: nat)
    requires k < |es|
  {
    Run(cfg, es[..k]) && MissesIdle(After(cfg, es[..k]).value.server, es[k], j)
  }

  /** Among the first n steps a create cancelled timer j too late, and j's callback has not come since. */
  ghost predicate MissedIdle(cfg: Config, es: seq<Event>, n: nat, j: nat)
    requires n <= |es|
  {
    exists k: nat :: k < n && MissesIdleAt(cfg, es, k, j) && Quiet(es, k, n, IdleFire(j))
  }

  /** e is not among the steps between k and n. */
  ghost predicate Quiet(es: seq<Event>, k: nat, n: nat, e: Event)
    requires n <= |es|
  {
    forall i | k < i < n :: es[i] != e
  }

  lemma ForeignIdleStep(s: State, e: Event, j: nat)
    requires Whole(s) && ArmedWhenIdle(s.server) && Enabled(s, e) && !Apply(s, e).server.closing
    ensures ForeignIdle(Apply(s, e).server, j) <==>
            (ForeignIdle(s.server, j) && e != IdleFire(j)) || MissesIdle(s.server, e, j)
  {
    match e
    case CreateBegin(_, _, _, _, _) =>
    case CreateSettle(i) =>
      var v := s.server;
      PendingIsNotIdle(s, i);
      ScheduleKeepsForeign(v.(creates := v.creates - {i}, pending := v.pending - 1), s.cfg, j);
    case Teardown(w) => TeardownKeepsForeign(s, w, j);
    case IdleFire(_) =>
    case _ => OthersKeepIdles(s, e);
  }

  lemma ScheduleKeepsForeign(v: Server, cfg: Config, j: nat)
    requires Timers.IdleIds(v)
    ensures ForeignIdle(Schedule(v, cfg), j) <==> ForeignIdle(v, j)
  {
  }

  lemma TeardownKeepsForeign(s: State, w: nat, j: nat)
    requires Timers.IdleIds(s.server) && w in s.claims.all
    ensures ForeignIdle(DoTeardown(s, w).server, j) <==> ForeignIdle(s.server, j)
  {
  }

  lemma OthersKeepIdles(s: State, e: Event)
    requires Enabled(s, e) && !e.CreateBegin? && !e.CreateSettle? && !e.Teardown? && !e.IdleFire?
    ensures Apply(s, e).server.idles == s.server.idles && Apply(s, e).server.timer == s.server.timer
  {
  }

  lemma MissedIdleSplits(cfg: Config, es: seq<Event>, j: nat)
    requires es != [] && Run(cfg, es[..|es| - 1])
    ensures var m := |es| - 1;
            MissedIdle(cfg, es, |es|, j) <==>
              (MissedIdle(cfg, es[..m], m, j) && es[m] != IdleFire(j)) ||
              MissesIdleAt(cfg, es, m, j)
  {
    var m := |es| - 1;
    forall k: nat | k < m
      ensures MissesIdleAt(cfg, es[..m], k, j) <==> MissesIdleAt(cfg, es, k, j)
      ensures Quiet(es, k, |es|, IdleFire(j)) <==> Quiet(es[..m], k, m, IdleFire(j)) && es[m] != IdleFire(j)
    {
      IdleAtBeginning(cfg, es, k, j);
      QuietSplits(es, k, IdleFire(j));
    }
  }

  lemma IdleAtBeginning(cfg: Config, es: seq<Event>, k: nat, j: nat)
    requires k < |es| - 1
    ensures MissesIdleAt(cfg, es[..|es| - 1], k, j) <==> MissesIdleAt(cfg, es, k, j)
  {
    assert es[..|es| - 1][..k] == es[..k];
  }

  lemma QuietSplits(es: seq<Event>, k: nat, e: Event)
    requires k < |es| - 1
    ensures Quiet(es, k, |es|, e) <==> Quiet(es[..|es| - 1], k, |es| - 1, e) && es[|es| - 1] != e
  {
    assert forall i | k < i < |es| - 1 :: es[..|es| - 1][i] == es[i];
  }

  /**
  Until the server closes, a callback other than the armed timer's is outstanding exactly if some
  create cancelled its timer too late and it has not come yet.
  */
  lemma {:induction false} ForeignIdleIff(cfg: Config, es: seq<Event>, s: State, j: nat)
    requires After(cfg, es) == Some(s) && !s.server.closing
    ensures ForeignIdle(s.server, j) <==> MissedIdle(cfg, es, |es|, j)
  {
    if es != [] {
      var u := After(cfg, es[..|es| - 1]).value;
      LastStep(cfg, es);
      ArmedWhenIdleAlways(cfg, es[..|es| - 1]);
      NotYetClosing(u, es[|es| - 1]);
      ForeignIdleIff(cfg, es[..|es| - 1], u, j);
      ForeignIdleStep(u, es[|es| - 1], j);
      MissedIdleSplits(cfg, es, j);
    }
  }

  lemma NotYetClosing(s: State, e: Event)
    requires Whole(s) && Enabled(s, e) && !Apply(s, e).server.closing
    ensures !s.server.closing
  {
    if s.server.closing { ClosingStep(s, e); }
  }

  /**
  A linger is cut short by callback j of another timer exactly if, at some time in the run, a create
  cancelled that timer too late and the callback has not come since.
  */
  lemma LingerIsCutIff(cfg: Config, es: seq<Event>, s: State, j: nat)
    requires After(cfg, es) == Some(s) && !s.server.closing && s.server.timer.Some? && s.server.timer != Some(j)
    ensures Enabled(s, IdleFire(j)) && Apply(s, IdleFire(j)).server.closing <==> MissedIdle(cfg, es, |es|, j)
  {
    ForeignIdleIff(cfg, es, s, j);
    ArmedWhenIdleAlways(cfg, es);
  }

  /* ---- Hold callbacks ---- */

  /** Claim object id is client c's entry on w. */
  predicate Present(k: Claims, w: nat, c: Client, id: nat) {
    ClaimAt(k, w, c).Some? && ClaimAt(k, w, c).value.id == id
  }

  /** Callback j was armed for the claim object that is c's entry on w, and is not its timer's. */
  predicate ForeignHold(k: Claims, w: nat, c: Client, id: nat, j: nat) {
    Present(k, w, c, id) && j in k.holds && k.holds[j] == Hold(w, c, id) && ClaimAt(k, w, c).value.timer != Some(j)
  }

  /** An attach stops timer j of claim object id too late. */
  predicate MissesHold(k: Claims, e: Event, w: nat, c: Client, id: nat, j: nat) {
    e == Attach(w, c, false) && Present(k, w, c, id) && ClaimAt(k, w, c).value.timer == Some(j)
  }

  lemma RegisterKeepsForeign(k: Claims, v: nat, d: Client, stopped: bool, w: nat, c: Client, id: nat, j: nat)
    requires Fresh(k) && v in k.all && Held(k, v, d) && Held(k, w, c)
    ensures var t := Register(k, v, d, stopped);
            Present(t, w, c, id) ==> (ForeignHold(t, w, c, id, j) <==> ForeignHold(k, w, c, id, j))
  {
  }

  lemma AttachMakesForeign(k: Claims, v: nat, d: Client, stopped: bool, w: nat, c: Client, id: nat, j: nat)
    requires Fresh(k) && v in k.all && Held(k, v, d) && Held(k, w, c)
    ensures var t := AddStream(k, v, d, stopped);
            Present(t, w, c, id) ==>
              (ForeignHold(t, w, c, id, j) <==> ForeignHold(k, w, c, id, j) || MissesHold(k, Attach(v, d, stopped), w, c, id, j))
  {
  }

  lemma DetachKeepsForeign(k: Claims, grace: bool, v: nat, d: Client, w: nat, c: Client, id: nat, j: nat)
    requires Fresh(k) && v in k.all && Held(k, v, d) && Held(k, w, c)
    ensures var t := DropStream(k, grace, v, d);
            Present(t, w, c, id) ==> (ForeignHold(t, w, c, id, j) <==> ForeignHold(k, w, c, id, j))
  {
  }

  lemma ReleaseKeepsForeign(k: Claims, v: nat, d: Client, stopped: bool, w: nat, c: Client, id: nat, j: nat)
    requires Fresh(k) && v in k.all && Held(k, v, d) && Held(k, w, c)
    ensures var t := GiveUp(k, v, d, stopped);
            Present(t, w, c, id) ==> (ForeignHold(t, w, c, id, j) <==> ForeignHold(k, w, c, id, j))
  {
  }

  lemma CallbackUsesForeign(k: Claims, i: nat, w: nat, c: Client, id: nat, j: nat)
    requires i in k.holds
    ensures var t := RunCallback(k, i);
            Present(t, w, c, id) ==> (ForeignHold(t, w, c, id, j) <==> ForeignHold(k, w, c, id, j) && i != j)
  {
  }

  lemma RetireKeepsForeign(s: State, d: Client, stopped: set<nat>, w: nat, c: Client, id: nat, j: nat)
    requires Inv(s)
    ensures var t := Forget(s.claims, s.server.live, d, stopped);
            Present(t, w, c, id) ==> (ForeignHold(t, w, c, id, j) <==> ForeignHold(s.claims, w, c, id, j))
  {
    var t := Forget(s.claims, s.server.live, d, stopped);
    ForgetMoves(s.claims, s.server.live, d, stopped);
    if Present(t, w, c, id) && ForeignHold(s.claims, w, c, id, j) {
      assert j in TimersOf(s.claims, s.server.live, d) ==> d == c && w in s.server.live by {
        if j in TimersOf(s.claims, s.server.live, d) { TimersAreOwn(s, d, j); }
      }
    }
  }

  lemma CreateKeepsForeign(s: State, e: Event, w: nat, c: Client, id: nat, j: nat)
    requires Inv(s) && Enabled(s, e) && (e.CreateBegin? || e.CreateCommit?)
    ensures var t := Apply(s, e).claims;
            Present(t, w, c, id) ==> (ForeignHold(t, w, c, id, j) <==> ForeignHold(s.claims, w, c, id, j))
  {
    assert InvAt(s, w, c);
    var d := if e.CreateBegin? then e.client else s.server.creates[e.create].client;
    var p := if e.CreateBegin? then e.path else s.server.creates[e.create].path;
    if Existing(s.server, p) {
      assert InvAt(s, s.server.pathIndex[p], d);
      RegisterKeepsForeign(s.claims, s.server.pathIndex[p], d, e.stopHold, w, c, id, j);
    } else if e.CreateCommit? {
      NewHeldIsWithCreator(s.claims, s.server.nextId, d, p);
      CreatorKeepsForeign(s.claims, s.server.nextId, d, p, w, c, id, j);
    }
  }

  lemma CreatorKeepsForeign(k: Claims, v: nat, d: Client, p: Path, w: nat, c: Client, id: nat, j: nat)
    requires Fresh(k) && v !in k.all
    ensures var t := WithCreator(k, v, d, p);
            Present(t, w, c, id) ==> (ForeignHold(t, w, c, id, j) <==> ForeignHold(k, w, c, id, j))
  {
  }

  lemma ForeignHoldStep(s: State, e: Event, w: nat, c: Client, id: nat, j: nat)
    requires Inv(s) && Enabled(s, e) && Present(Apply(s, e).claims, w, c, id)
    ensures ForeignHold(Apply(s, e).claims, w, c, id, j) <==>
            (ForeignHold(s.claims, w, c, id, j) && e != Expire(j)) || MissesHold(s.claims, e, w, c, id, j)
  {
    assert InvAt(s, w, c);
    match e
    case CreateBegin(_, _, _, _, _) => CreateKeepsForeign(s, e, w, c, id, j);
    case CreateCommit(_, _, _) => CreateKeepsForeign(s, e, w, c, id, j);
    case Attach(v, d, stopped) => assert InvAt(s, v, d); AttachMakesForeign(s.claims, v, d, stopped, w, c, id, j);
    case Detach(v, d) => assert InvAt(s, v, d); DetachKeepsForeign(s.claims, s.cfg.grace, v, d, w, c, id, j);
    case Release(v, d, stopped) => assert InvAt(s, v, d); ReleaseKeepsForeign(s.claims, v, d, stopped, w, c, id, j);
    case Expire(i) => CallbackUsesForeign(s.claims, i, w, c, id, j);
    case Retire(d, stopped) => RetireKeepsForeign(s, d, stopped, w, c, id, j);
    case _ =>
  }

  ghost predicate MissesHoldAt(cfg: Config, es: seq<Event>, k: nat, w: nat, c: Client, id: nat, j: nat)
    requires k < |es|
  {
    Run(cfg, es[..k]) && MissesHold(After(cfg, es[..k]).value.claims, es[k], w, c, id, j)
  }

  /** Among the first n steps an attach stopped timer j of claim object id too late, and j's callback has not come since. */
  ghost predicate MissedHold(cfg: Config, es: seq<Event>, n: nat, w: nat, c: Client, id: nat, j: nat)
    requires n <= |es|
  {
    exists k: nat :: k < n && MissesHoldAt(cfg, es, k, w, c, id, j) && Quiet(es, k, n, Expire(j))
  }

  lemma MissedHoldSplits(cfg: Config, es: seq<Event>, w: nat, c: Client, id: nat, j: nat)
    requires es != [] && Run(cfg, es[..|es| - 1])
    ensures var m := |es| - 1;
            MissedHold(cfg, es, |es|, w, c, id, j) <==>
              (MissedHold(cfg, es[..m], m, w, c, id, j) && es[m] != Expire(j)) ||
              MissesHoldAt(cfg, es, m, w, c, id, j)
  {
    var m := |es| - 1;
    forall k: nat | k < m
      ensures MissesHoldAt(cfg, es[..m], k, w, c, id, j) <==> MissesHoldAt(cfg, es, k, w, c, id, j)
      ensures Quiet(es, k, |es|, Expire(j)) <==> Quiet(es[..m], k, m, Expire(j)) && es[m] != Expire(j)
    {
      HoldAtBeginning(cfg, es, k, w, c, id, j);
      QuietSplits(es, k, Expire(j));
    }
  }

  lemma HoldAtBeginning(cfg: Config, es: seq<Event>, k: nat, w: nat, c: Client, id: nat, j: nat)
    requires k < |es| - 1
    ensures MissesHoldAt(cfg, es[..|es| - 1], k, w, c, id, j) <==> MissesHoldAt(cfg, es, k, w, c, id, j)
  {
    assert es[..|es| - 1][..k] == es[..k];
  }

  /** A claim object that was once there is there still or gone for good. */
  lemma MissedIsThereOrGone(cfg: Config, es: seq<Event>, w: nat, c: Client, id: nat, j: nat, s: State)
    requires After(cfg, es) == Some(s) && MissedHold(cfg, es, |es|, w, c, id, j)
    ensures Present(s.claims, w, c, id) || Gone(s.claims, w, c, id)
  {
    var k: nat :| k < |es| && MissesHoldAt(cfg, es, k, w, c, id, j) && Quiet(es, k, |es|, Expire(j));
    InvAlways(cfg, es[..k]);
    assert InvAt(After(cfg, es[..k]).value, w, c);
    IdsGrow(cfg, es, k);
  }

  lemma {:induction false} IdsGrow(cfg: Config, es: seq<Event>, n: nat)
    requires Run(cfg, es) && n <= |es| && Run(cfg, es[..n])
    ensures After(cfg, es[..n]).value.claims.nextId <= After(cfg, es).value.claims.nextId
  {
    if n == |es| {
      assert es[..n] == es;
    } else {
      assert es[..|es| - 1][..n] == es[..n];
      LastStep(cfg, es);
      IdsGrow(cfg, es[..|es| - 1], n);
      IdsGrowStep(After(cfg, es[..|es| - 1]).value, es[|es| - 1]);
    }
  }

  lemma IdsGrowStep(s: State, e: Event)
    requires Enabled(s, e)
    ensures s.claims.nextId <= Apply(s, e).claims.nextId
  {
  }

  /** For a claim object in place, a callback other than its timer's is outstanding exactly if some attach missed it. */
  lemma {:induction false} ForeignHoldIff(cfg: Config, es: seq<Event>, w: nat, c: Client, id: nat, j: nat, t: State)
    requires After(cfg, es) == Some(t) && Present(t.claims, w, c, id)
    ensures ForeignHold(t.claims, w, c, id, j) <==> MissedHold(cfg, es, |es|, w, c, id, j)
  {
    if es != [] {
      var fs, e := es[..|es| - 1], es[|es| - 1];
      var s := After(cfg, fs).value;
      LastStep(cfg, es);
      ForeignHoldStep(s, e, w, c, id, j);
      MissedHoldSplits(cfg, es, w, c, id, j);
      if Present(s.claims, w, c, id) {
        ForeignHoldIff(cfg, fs, w, c, id, j, s);
      } else {
        if MissedHold(cfg, fs, |fs|, w, c, id, j) {
          MissedIsThereOrGone(cfg, fs, w, c, id, j, s);
          GoneStays(s, e, w, c, id);
        }
      }
    }
  }

  /**
  A client's grace is ended by callback j of another timer than its own exactly if, at some time in
  the run, an attach of the client stopped that timer of the same claim too late and the callback
  has not come since.
  */
  lemma GraceIsCutIff(cfg: Config, es: seq<Event>, s: State, w: nat, c: Client, j: nat)
    requires After(cfg, es) == Some(s) && ClaimAt(s.claims, w, c).Some?
    requires ClaimAt(s.claims, w, c).value.timer.Some? && ClaimAt(s.claims, w, c).value.timer != Some(j)
    ensures Enabled(s, Expire(j)) && ClaimAt(Apply(s, Expire(j)).claims, w, c).None? <==>
            MissedHold(cfg, es, |es|, w, c, ClaimAt(s.claims, w, c).value.id, j)
  {
    InvAlways(cfg, es);
    assert InvAt(s, w, c);
    ForeignHoldIff(cfg, es, w, c, ClaimAt(s.claims, w, c).value.id, j, s);
  }
}
