/** What the workspace machine guarantees over whole runs, and where a timer stopped too late breaks it. */
module WorkspaceResults {
  import opened Common
  import opened Workspaces
  import opened WorkspaceSafety

  lemma ReachableInv(s: State)
    requires Reachable(s)
    ensures Inv(s)
  {
    var es :| After(s.cfg, es) == Some(s);
    InvAlways(s.cfg, es);
  }

  /** es is a run from the initial state, and so is every beginning of it. */
  ghost predicate Run(cfg: Config, es: seq<Event>) {
    After(cfg, es).Some?
  }

  lemma {:induction false} RunBeginning(cfg: Config, es: seq<Event>, n: nat)
    requires Run(cfg, es) && n <= |es|
    ensures Run(cfg, es[..n])
  {
    if n == |es| {
      assert es[..n] == es;
    } else {
      RunBeginning(cfg, es[..|es| - 1], n);
      assert es[..|es| - 1][..n] == es[..n];
    }
  }

  /** The last step of a run of at least one. */
  lemma LastStep(cfg: Config, es: seq<Event>)
    requires Run(cfg, es) && es != []
    ensures var s := After(cfg, es[..|es| - 1]);
            s.Some? && Inv(s.value) && Enabled(s.value, es[|es| - 1]) && After(cfg, es) == Some(Apply(s.value, es[|es| - 1]))
  {
    InvAlways(cfg, es[..|es| - 1]);
  }

  /** e leads from s to t. */
  ghost predicate Steps(s: State, e: Event, t: State) {
    Enabled(s, e) && Apply(s, e) == t
  }

  lemma {:induction false} CfgStays(cfg: Config, es: seq<Event>)
    requires Run(cfg, es)
    ensures After(cfg, es).value.cfg == cfg
  {
    if es != [] { CfgStays(cfg, es[..|es| - 1]); }
  }

  lemma StepReaches(s: State, e: Event, t: State)
    requires Reachable(s) && Steps(s, e, t)
    ensures Reachable(t)
  {
    var es :| After(s.cfg, es) == Some(s);
    assert (es + [e])[..|es + [e]| - 1] == es;
    assert After(s.cfg, es + [e]) == Some(t);
    CfgStays(s.cfg, es + [e]);
  }

  /* ---- No leak, no premature teardown ---- */

  /**
  A live workspace that no client claims has a teardown outstanding, and running it removes the
  workspace and frees its path.
  */
  lemma NoLeak(s: State, w: nat)
    requires Reachable(s) && w in s.server.live && Unclaimed(s.claims, w)
    ensures Enabled(s, Teardown(w))
    ensures var v := Apply(s, Teardown(w)).server; w !in v.live && s.claims.all[w].path !in v.pathIndex
  {
    ReachableInv(s);
    assert InvAt(s, w, "");
  }

  lemma OthersLeaveLive(s: State, e: Event)
    requires Enabled(s, e) && !e.CreateCommit? && !e.Teardown?
    ensures var t := Apply(s, e);
            && t.history.shutdowns == s.history.shutdowns && t.server.live == s.server.live
            && t.claims.all.Keys == s.claims.all.Keys
  {
  }

  /** A commit registers one unused workspace, or none. */
  lemma CommitRegisters(s: State, e: Event)
    requires Whole(s) && Enabled(s, e) && e.CreateCommit?
    ensures var t := Apply(s, e);
            && t.history.shutdowns == s.history.shutdowns
            && (exists ws :: ws !! s.claims.all.Keys && t.server.live == s.server.live + ws &&
                             t.claims.all.Keys == s.claims.all.Keys + ws)
  {
    var t, w := Apply(s, e), s.server.nextId;
    if t.claims.all.Keys == s.claims.all.Keys {
      assert t.server.live == s.server.live + {} && t.claims.all.Keys == s.claims.all.Keys + {};
    } else {
      assert t.server.live == s.server.live + {w} && t.claims.all.Keys == s.claims.all.Keys + {w};
      assert {w} !! s.claims.all.Keys;
    }
  }

  lemma TeardownShuts(s: State, w: nat)
    requires Enabled(s, Teardown(w))
    ensures var t := Apply(s, Teardown(w));
            && t.claims.all == s.claims.all
            && (if Unclaimed(s.claims, w)
                then t.server.live == s.server.live - {w} && t.history.shutdowns == s.history.shutdowns + multiset{w}
                else t.server.live == s.server.live && t.history.shutdowns == s.history.shutdowns)
  {
  }

  /** The only way out of the live set is a teardown of a workspace that nobody claims. */
  lemma LeavesLiveUnclaimed(s: State, e: Event, w: nat)
    requires Whole(s) && Enabled(s, e) && w in s.server.live
    ensures w !in Apply(s, e).server.live <==> e == Teardown(w) && Unclaimed(s.claims, w)
  {
    if e.CreateCommit? {
      CommitRegisters(s, e);
    } else if e.Teardown? {
      TeardownShuts(s, e.ws);
    } else {
      OthersLeaveLive(s, e);
    }
  }

  /** In between n and m steps, a teardown found w unclaimed. */
  ghost predicate TornDown(cfg: Config, es: seq<Event>, n: nat, m: nat, w: nat)
    requires m <= |es|
  {
    exists k: nat :: n <= k < m && es[k] == Teardown(w) && Run(cfg, es[..k]) && Unclaimed(After(cfg, es[..k]).value.claims, w)
  }

  /**
  No premature teardown, over every run: a workspace that is live after n steps is live at the end
  unless some step in between was a teardown of it at a moment when nobody claimed it.
  */
  lemma {:induction false} NoPrematureTeardown(cfg: Config, es: seq<Event>, n: nat, w: nat)
    requires Run(cfg, es) && n <= |es| && Run(cfg, es[..n]) && w in After(cfg, es[..n]).value.server.live
    ensures w in After(cfg, es).value.server.live <==> !TornDown(cfg, es, n, |es|, w)
  {
    if n == |es| {
      assert es[..n] == es;
    } else {
      var fs := es[..|es| - 1];
      assert fs[..n] == es[..n];
      LastStep(cfg, es);
      NoPrematureTeardown(cfg, fs, n, w);
      TornDownSplits(cfg, es, n, w);
      var s := After(cfg, fs).value;
      if w in s.server.live {
        LeavesLiveUnclaimed(s, es[|es| - 1], w);
      } else {
        InvAlways(cfg, es[..n]);
        LiveIsKnown(cfg, es, n, w);
        RemovedStep(s, es[|es| - 1], w);
      }
    }
  }

  lemma TornDownSplits(cfg: Config, es: seq<Event>, n: nat, w: nat)
    requires n < |es|
    ensures var m := |es| - 1;
            TornDown(cfg, es, n, |es|, w) <==>
              TornDown(cfg, es[..m], n, m, w) ||
              (es[m] == Teardown(w) && Run(cfg, es[..m]) && Unclaimed(After(cfg, es[..m]).value.claims, w))
  {
    assert forall k: nat | k < |es| - 1 :: es[..|es| - 1][..k] == es[..k];
  }

  lemma {:induction false} LiveIsKnown(cfg: Config, es: seq<Event>, n: nat, w: nat)
    requires Run(cfg, es) && n < |es| && Run(cfg, es[..n]) && w in After(cfg, es[..n]).value.claims.all
    ensures w in After(cfg, es[..|es| - 1]).value.claims.all
  {
    var fs := es[..|es| - 1];
    if n < |fs| {
      LastStep(cfg, es);
      assert fs[..n] == es[..n];
      LiveIsKnown(cfg, fs, n, w);
      LastStep(cfg, fs);
      KnownStays(After(cfg, fs[..|fs| - 1]).value, fs[|fs| - 1], w);
    } else {
      assert fs == es[..n];
    }
  }

  lemma KnownStays(s: State, e: Event, w: nat)
    requires Enabled(s, e) && w in s.claims.all
    ensures w in Apply(s, e).claims.all
  {
  }

  lemma RemovedStep(s: State, e: Event, w: nat)
    requires Whole(s) && Enabled(s, e) && w in s.claims.all && w !in s.server.live
    ensures w in Apply(s, e).claims.all && w !in Apply(s, e).server.live
  {
    if e.CreateCommit? {
      CommitRegisters(s, e);
    } else if e.Teardown? {
      TeardownShuts(s, e.ws);
    } else {
      OthersLeaveLive(s, e);
    }
  }

  /** A workspace removed in s is not live and nobody claims it in any later state t. */
  lemma {:induction false} RemovedForever(cfg: Config, es: seq<Event>, n: nat, w: nat, s: State, t: State)
    requires n <= |es| && After(cfg, es[..n]) == Some(s) && After(cfg, es) == Some(t)
    requires w in s.claims.all && w !in s.server.live
    ensures w !in t.server.live && Unclaimed(t.claims, w)
  {
    InvAlways(cfg, es);
    assert InvAt(t, w, "");
    if n < |es| {
      var fs := es[..|es| - 1];
      assert fs[..n] == es[..n];
      LastStep(cfg, es);
      RemovedForever(cfg, fs, n, w, s, After(cfg, fs).value);
      RemovedStep(After(cfg, fs).value, es[|es| - 1], w);
    } else {
      assert es[..n] == es;
    }
  }

  /** pathIndex and the live workspaces are inverse, so a path has at most one live workspace. */
  lemma PathIndexIsExact(s: State, w: nat, p: Path)
    requires Reachable(s)
    ensures p in s.server.pathIndex && s.server.pathIndex[p] == w <==>
            w in s.server.live && w in s.claims.all && s.claims.all[w].path == p
  {
    ReachableInv(s);
  }

  /** The index never names a removed workspace: the program's branches for stale entries are never taken. */
  lemma StaleEntriesNeverMet(s: State, p: Path)
    requires Reachable(s)
    ensures p in s.server.pathIndex <==> Existing(s.server, p)
  {
    ReachableInv(s);
  }

  /** A teardown of a workspace that is gone does not unindex its successor. */
  lemma LateTeardownSparesSuccessor(s: State, w: nat)
    requires Reachable(s) && Enabled(s, Teardown(w)) && w !in s.server.live
    ensures Apply(s, Teardown(w)).server.pathIndex == s.server.pathIndex
    ensures Apply(s, Teardown(w)).server.live == s.server.live
  {
    ReachableInv(s);
    assert InvAt(s, w, "");
    assert s.server.live - {w} == s.server.live;
  }

  /* ---- The shutdown latch ---- */

  lemma ClosingStep(s: State, e: Event)
    requires Whole(s) && Enabled(s, e) && s.server.closing
    ensures Apply(s, e).server.closing && Apply(s, e).claims.all.Keys == s.claims.all.Keys
  {
  }

  /** Once closing, always closing: idle, with no workspace registered in between. */
  lemma {:induction false} ShutdownLatch(cfg: Config, es: seq<Event>, n: nat)
    requires Run(cfg, es) && n <= |es| && Run(cfg, es[..n]) && After(cfg, es[..n]).value.server.closing
    ensures var s := After(cfg, es).value;
            && s.server.closing && s.server.live == {} && s.server.creates == map[]
            && s.claims.all.Keys == After(cfg, es[..n]).value.claims.all.Keys
  {
    InvAlways(cfg, es);
    if n < |es| {
      var fs := es[..|es| - 1];
      assert fs[..n] == es[..n];
      LastStep(cfg, es);
      ShutdownLatch(cfg, fs, n);
      ClosingStep(After(cfg, fs).value, es[|es| - 1]);
    } else {
      assert es[..n] == es;
    }
    assert |After(cfg, es).value.server.creates| == 0;
  }

  /**
  With a shutdown hook, an empty server that some create made work for is either shutting down
  or has an idle timer, whose callback then shuts it down.
  */
  lemma IdleServerIsReaped(s: State)
    requires Reachable(s) && s.cfg.hook && s.history.slow && s.server.live == {} && s.server.creates == map[]
    ensures s.server.closing || s.server.timer.Some?
    ensures s.server.timer.Some? ==>
              Enabled(s, IdleFire(s.server.timer.value)) && Apply(s, IdleFire(s.server.timer.value)).server.closing
  {
    ReachableInv(s);
    assert |s.server.creates| == 0;
  }

  /* ---- Claims ---- */

  /** A claim is held by streams or by a timer whose callback is outstanding, never by both or neither. */
  lemma ClaimDiscipline(s: State, w: nat, c: Client)
    requires Reachable(s) && ClaimAt(s.claims, w, c).Some?
    ensures var x := ClaimAt(s.claims, w, c).value;
            && (x.streams > 0 <==> x.timer.None?)
            && (x.timer.Some? ==>
                  Enabled(s, Expire(x.timer.value)) && ClaimAt(Apply(s, Expire(x.timer.value)).claims, w, c).None?)
  {
    ReachableInv(s);
    assert InvAt(s, w, c);
  }

  /** While every detach had its attach, a never-retired client's streams are the attaches not yet detached. */
  lemma StreamsAreOpenAttaches(s: State, w: nat, c: Client)
    requires Reachable(s) && s.history.paired && c !in s.server.retired
    ensures Streams(ClaimAt(s.claims, w, c)) == Open(s.history, w, c)
  {
    ReachableInv(s);
    assert InvAt(s, w, c);
  }

  lemma {:induction false} BackNeedsAttach(cfg: Config, es: seq<Event>, n: nat, c: Client)
    requires Run(cfg, es) && n <= |es| && Run(cfg, es[..n])
    requires var s := After(cfg, es[..n]).value; c in s.server.retired && c !in s.history.back
    requires forall i | n <= i < |es| :: !(es[i].Attach? && es[i].client == c)
    ensures var s := After(cfg, es).value; c in s.server.retired && c !in s.history.back
  {
    if n < |es| {
      var fs := es[..|es| - 1];
      assert fs[..n] == es[..n];
      LastStep(cfg, es);
      BackNeedsAttach(cfg, fs, n, c);
    } else {
      assert es[..n] == es;
    }
  }

  /**
  After RetireClient(c), as long as c does not attach again, c claims no workspace, whatever
  creates of c were inside their initialization.
  */
  lemma RetirementIsFinal(cfg: Config, es: seq<Event>, n: nat, c: Client, w: nat)
    requires Run(cfg, es) && n < |es| && es[n].Retire? && es[n].client == c
    requires forall i | n < i < |es| :: !(es[i].Attach? && es[i].client == c)
    ensures ClaimAt(After(cfg, es).value.claims, w, c).None?
  {
    RunBeginning(cfg, es, n + 1);
    assert es[..n + 1][..n] == es[..n];
    LastStep(cfg, es[..n + 1]);
    BackNeedsAttach(cfg, es, n + 1, c);
    InvAlways(cfg, es);
    assert InvAt(After(cfg, es).value, w, c);
  }

  /* ---- Superseded callbacks ---- */

  /** Claim object i is not, and cannot become, client c's entry on w. */
  ghost predicate Gone(k: Claims, w: nat, c: Client, i: nat) {
    i < k.nextId && (ClaimAt(k, w, c).Some? ==> ClaimAt(k, w, c).value.id != i)
  }

  lemma RegisterKeepsGone(k: Claims, v: nat, d: Client, stopped: bool, w: nat, c: Client, i: nat)
    requires v in k.all && Gone(k, w, c, i)
    ensures Gone(Register(k, v, d, stopped), w, c, i)
  {
  }

  lemma StreamsKeepGone(k: Claims, v: nat, d: Client, stopped: bool, grace: bool, w: nat, c: Client, i: nat)
    requires v in k.all && Gone(k, w, c, i)
    ensures Gone(AddStream(k, v, d, stopped), w, c, i) && Gone(DropStream(k, grace, v, d), w, c, i)
  {
  }

  lemma ReleaseKeepsGone(k: Claims, v: nat, d: Client, stopped: bool, w: nat, c: Client, i: nat)
    requires v in k.all && Gone(k, w, c, i)
    ensures Gone(GiveUp(k, v, d, stopped), w, c, i)
  {
  }

  lemma CommitKeepsGone(s: State, j: nat, mismatch: bool, stopped: bool, w: nat, c: Client, i: nat)
    requires Enabled(s, CreateCommit(j, mismatch, stopped)) && Gone(s.claims, w, c, i)
    ensures Gone(DoCreateCommit(s, j, mismatch, stopped).claims, w, c, i)
  {
    var d, p := s.server.creates[j].client, s.server.creates[j].path;
    NewHeldIsWithCreator(s.claims, s.server.nextId, d, p);
    if Existing(s.server, p) { RegisterKeepsGone(s.claims, s.server.pathIndex[p], d, stopped, w, c, i); }
  }

  lemma GoneStays(s: State, e: Event, w: nat, c: Client, i: nat)
    requires Enabled(s, e) && Gone(s.claims, w, c, i)
    ensures Gone(Apply(s, e).claims, w, c, i)
  {
    match e
    case CreateBegin(d, p, _, _, stopped) =>
      if Existing(s.server, p) { RegisterKeepsGone(s.claims, s.server.pathIndex[p], d, stopped, w, c, i); }
    case CreateCommit(j, mismatch, stopped) => CommitKeepsGone(s, j, mismatch, stopped, w, c, i);
    case Attach(v, d, stopped) => StreamsKeepGone(s.claims, v, d, stopped, s.cfg.grace, w, c, i);
    case Detach(v, d) => StreamsKeepGone(s.claims, v, d, true, s.cfg.grace, w, c, i);
    case Release(v, d, stopped) => ReleaseKeepsGone(s.claims, v, d, stopped, w, c, i);
    case _ =>
  }

  lemma {:induction false} GoneForever(cfg: Config, es: seq<Event>, n: nat, w: nat, c: Client, i: nat)
    requires Run(cfg, es) && n <= |es| && Run(cfg, es[..n]) && Gone(After(cfg, es[..n]).value.claims, w, c, i)
    ensures Gone(After(cfg, es).value.claims, w, c, i)
  {
    if n < |es| {
      assert es[..|es| - 1][..n] == es[..n];
      LastStep(cfg, es);
      GoneForever(cfg, es[..|es| - 1], n, w, c, i);
      GoneStays(After(cfg, es[..|es| - 1]).value, es[|es| - 1], w, c, i);
    } else {
      assert es[..n] == es;
    }
  }

  /** In s the create of step e joins workspace w for client c. */
  predicate Joins(s: State, e: Event, w: nat, c: Client) {
    && (e.CreateBegin? || (e.CreateCommit? && e.create in s.server.creates && s.server.creates[e.create].Initializing?))
    && var p := if e.CreateBegin? then e.path else s.server.creates[e.create].path;
       && c == (if e.CreateBegin? then e.client else s.server.creates[e.create].client)
       && Admitted(s.server, c) && !e.mismatch && Existing(s.server, p) && s.server.pathIndex[p] == w
  }

  lemma JoinReplaces(s: State, e: Event, w: nat, c: Client)
    requires Inv(s) && Enabled(s, e) && Joins(s, e, w, c) && w in s.claims.all
    requires ClaimAt(s.claims, w, c).Some? && ClaimAt(s.claims, w, c).value.timer.Some?
    ensures Gone(Apply(s, e).claims, w, c, ClaimAt(s.claims, w, c).value.id)
  {
    assert InvAt(s, w, c);
  }

  /**
  A create by a client that already holds the workspace under a timer re-arms the claim, whether it
  joins at once or after its own initialization. Even if that timer was stopped too late, its
  callback never again takes a claim away.
  */
  lemma RearmedHoldIsSafe(cfg: Config, es: seq<Event>, n: nat, w: nat, c: Client, t: nat)
    requires Run(cfg, es) && n < |es| && Run(cfg, es[..n]) && Joins(After(cfg, es[..n]).value, es[n], w, c)
    requires var s := After(cfg, es[..n]).value;
             w in s.claims.all && ClaimAt(s.claims, w, c).Some? && ClaimAt(s.claims, w, c).value.timer == Some(t)
    ensures var s := After(cfg, es[..n]).value;
            t in s.claims.holds && !Expires(After(cfg, es).value.claims, s.claims.holds[t])
  {
    var s := After(cfg, es[..n]).value;
    InvAlways(cfg, es[..n]);
    assert InvAt(s, w, c);
    RunBeginning(cfg, es, n + 1);
    assert es[..n + 1][..n] == es[..n];
    LastStep(cfg, es[..n + 1]);
    JoinReplaces(s, es[n], w, c);
    GoneForever(cfg, es, n + 1, w, c, s.claims.holds[t].claim);
  }
}
