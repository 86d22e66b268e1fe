/**
How a client leaves a workspace: over every run, which of its dropped streams get a grace to reconnect,
and which end its claim at once.
*/
module WorkspaceExits {
  import opened Common
  import opened Workspaces
  import opened WorkspaceSafety
  import opened WorkspaceResults
  import opened WorkspaceCallbacks

  /** Client c gives up claim object id on w while it has streams open, which is what a clean exit looks like. */
  predicate GivesUp(k: Claims, e: Event, w: nat, c: Client, id: nat) {
    e.Release? && e.ws == w && e.client == c && Present(k, w, c, id) && ClaimAt(k, w, c).value.streams > 0
  }

  predicate Released(k: Claims, w: nat, c: Client, id: nat) {
    Present(k, w, c, id) && ClaimAt(k, w, c).value.released
  }

  ghost predicate GivesUpAt(cfg: Config, es: seq<Event>, k: nat, w: nat, c: Client, id: nat)
    requires k < |es|
  {
    Run(cfg, es[..k]) && GivesUp(After(cfg, es[..k]).value.claims, es[k], w, c, id)
  }

  ghost predicate JoinsAt(cfg: Config, es: seq<Event>, k: nat, w: nat, c: Client)
    requires k < |es|
  {
    Run(cfg, es[..k]) && Joins(After(cfg, es[..k]).value, es[k], w, c)
  }

  /** Between steps k and n no create by c joined w. */
  ghost predicate NoJoin(cfg: Config, es: seq<Event>, k: nat, n: nat, w: nat, c: Client)
    requires n <= |es|
  {
    forall i: nat | k < i < n :: !JoinsAt(cfg, es, i, w, c)
  }

  /** Among the first n steps c gave claim object id up, and has not come back through a create since. */
  ghost predicate GaveUp(cfg: Config, es: seq<Event>, n: nat, w: nat, c: Client, id: nat)
    requires n <= |es|
  {
    exists k: nat :: k < n && GivesUpAt(cfg, es, k, w, c, id) && NoJoin(cfg, es, k, n, w, c)
  }

  /* ---- One step ---- */

  lemma RegisterReleases(k: Claims, v: nat, d: Client, stopped: bool, w: nat, c: Client, id: nat)
    requires Fresh(k) && v in k.all && Held(k, w, c)
    ensures var t := Register(k, v, d, stopped);
            Released(t, w, c, id) <==> Released(k, w, c, id) && !(v == w && d == c)
  {
  }

  lemma AttachReleases(k: Claims, v: nat, d: Client, stopped: bool, w: nat, c: Client, id: nat)
    requires Fresh(k) && v in k.all && Held(k, w, c)
    ensures Released(AddStream(k, v, d, stopped), w, c, id) <==> Released(k, w, c, id)
  {
  }

  lemma DetachReleases(k: Claims, grace: bool, v: nat, d: Client, w: nat, c: Client, id: nat)
    requires v in k.all && Present(DropStream(k, grace, v, d), w, c, id)
    ensures Released(DropStream(k, grace, v, d), w, c, id) <==> Released(k, w, c, id)
  {
  }

  lemma ReleaseReleases(k: Claims, v: nat, d: Client, stopped: bool, w: nat, c: Client, id: nat)
    requires v in k.all && Present(GiveUp(k, v, d, stopped), w, c, id)
    ensures Released(GiveUp(k, v, d, stopped), w, c, id) <==>
            Released(k, w, c, id) || GivesUp(k, Release(v, d, stopped), w, c, id)
  {
    if d in k.all[v].clients {
      var x := k.all[v].clients[d];
      if x.streams == 0 {
        DropReleases(Stop(k, x.timer, stopped), v, d, w, c, id);
      }
    }
  }

  lemma DropReleases(k: Claims, v: nat, d: Client, w: nat, c: Client, id: nat)
    requires v in k.all && Present(Drop(k, v, d), w, c, id)
    ensures (v, d) != (w, c) && ClaimAt(Drop(k, v, d), w, c) == ClaimAt(k, w, c)
  {
  }

  lemma CreateReleases(s: State, e: Event, w: nat, c: Client, id: nat)
    requires Inv(s) && Enabled(s, e) && (e.CreateBegin? || e.CreateCommit?)
    ensures Released(Apply(s, e).claims, w, c, id) <==> Released(s.claims, w, c, id) && !Joins(s, e, w, c)
  {
    assert InvAt(s, w, c);
    var d := if e.CreateBegin? then e.client else s.server.creates[e.create].client;
    var p := if e.CreateBegin? then e.path else s.server.creates[e.create].path;
    if Existing(s.server, p) {
      RegisterReleases(s.claims, s.server.pathIndex[p], d, e.stopHold, w, c, id);
    } else if e.CreateCommit? {
      NewHeldIsWithCreator(s.claims, s.server.nextId, d, p);
    }
  }

  lemma ReleasedStep(s: State, e: Event, w: nat, c: Client, id: nat)
    requires Inv(s) && Enabled(s, e) && Present(Apply(s, e).claims, w, c, id)
    ensures Released(Apply(s, e).claims, w, c, id) <==>
            (Released(s.claims, w, c, id) && !Joins(s, e, w, c)) || GivesUp(s.claims, e, w, c, id)
  {
    assert InvAt(s, w, c);
    match e
    case CreateBegin(_, _, _, _, _) => CreateReleases(s, e, w, c, id);
    case CreateCommit(_, _, _) => CreateReleases(s, e, w, c, id);
    case Attach(v, d, stopped) => AttachReleases(s.claims, v, d, stopped, w, c, id);
    case Detach(v, d) => DetachReleases(s.claims, s.cfg.grace, v, d, w, c, id);
    case Release(v, d, stopped) => ReleaseReleases(s.claims, v, d, stopped, w, c, id);
    case Retire(d, stopped) => ForgetMoves(s.claims, s.server.live, d, stopped);
    case _ =>
  }

  /* ---- Runs ---- */

  lemma AtBeginning(cfg: Config, es: seq<Event>, k: nat, w: nat, c: Client, id: nat)
    requires k < |es| - 1
    ensures GivesUpAt(cfg, es[..|es| - 1], k, w, c, id) <==> GivesUpAt(cfg, es, k, w, c, id)
    ensures JoinsAt(cfg, es[..|es| - 1], k, w, c) <==> JoinsAt(cfg, es, k, w, c)
  {
    assert es[..|es| - 1][..k] == es[..k];
  }

  lemma NoJoinSplits(cfg: Config, es: seq<Event>, k: nat, w: nat, c: Client)
    requires k < |es| - 1
    ensures var m := |es| - 1;
            NoJoin(cfg, es, k, |es|, w, c) <==> NoJoin(cfg, es[..m], k, m, w, c) && !JoinsAt(cfg, es, m, w, c)
  {
    var m := |es| - 1;
    forall i: nat | k < i < m ensures JoinsAt(cfg, es[..m], i, w, c) <==> JoinsAt(cfg, es, i, w, c) {
      AtBeginning(cfg, es, i, w, c, 0);
    }
    if NoJoin(cfg, es[..m], k, m, w, c) && !JoinsAt(cfg, es, m, w, c) {
      forall i: nat | k < i < |es| ensures !JoinsAt(cfg, es, i, w, c) {
        assert i < m ==> !JoinsAt(cfg, es[..m], i, w, c);
      }
    }
    if NoJoin(cfg, es, k, |es|, w, c) {
      forall i: nat | k < i < m ensures !JoinsAt(cfg, es[..m], i, w, c) { assert !JoinsAt(cfg, es, i, w, c); }
    }
  }

  lemma GaveUpSplits(cfg: Config, es: seq<Event>, w: nat, c: Client, id: nat)
    requires es != []
    ensures var m := |es| - 1;
            GaveUp(cfg, es, |es|, w, c, id) <==>
              (GaveUp(cfg, es[..m], m, w, c, id) && !JoinsAt(cfg, es, m, w, c)) || GivesUpAt(cfg, es, m, w, c, id)
  {
    var m := |es| - 1;
    forall k: nat | k < m
      ensures GivesUpAt(cfg, es[..m], k, w, c, id) <==> GivesUpAt(cfg, es, k, w, c, id)
      ensures NoJoin(cfg, es, k, |es|, w, c) <==> NoJoin(cfg, es[..m], k, m, w, c) && !JoinsAt(cfg, es, m, w, c)
    {
      AtBeginning(cfg, es, k, w, c, id);
      NoJoinSplits(cfg, es, k, w, c);
    }
  }

  /** A claim object that was given up is there still or gone for good. */
  lemma GivenUpIsThereOrGone(cfg: Config, es: seq<Event>, w: nat, c: Client, id: nat, s: State)
    requires After(cfg, es) == Some(s) && GaveUp(cfg, es, |es|, w, c, id)
    ensures Present(s.claims, w, c, id) || Gone(s.claims, w, c, id)
  {
    var k: nat :| k < |es| && GivesUpAt(cfg, es, k, w, c, id) && NoJoin(cfg, es, k, |es|, w, c);
    InvAlways(cfg, es[..k]);
    assert InvAt(After(cfg, es[..k]).value, w, c);
    IdsGrow(cfg, es, k);
  }

  /** A claim in place counts as released exactly if its client gave it up and has not come back through a create. */
  lemma {:induction false} ReleasedIff(cfg: Config, es: seq<Event>, w: nat, c: Client, id: nat, t: State)
    requires After(cfg, es) == Some(t) && Present(t.claims, w, c, id)
    ensures ClaimAt(t.claims, w, c).value.released <==> GaveUp(cfg, es, |es|, w, c, id)
  {
    if es != [] {
      var fs, e := es[..|es| - 1], es[|es| - 1];
      var s := After(cfg, fs).value;
      LastStep(cfg, es);
      ReleasedStep(s, e, w, c, id);
      GaveUpSplits(cfg, es, w, c, id);
      if Present(s.claims, w, c, id) {
        ReleasedIff(cfg, fs, w, c, id, s);
      } else if GaveUp(cfg, fs, |fs|, w, c, id) {
        GivenUpIsThereOrGone(cfg, fs, w, c, id, s);
        GoneStays(s, e, w, c, id);
      }
    }
  }

  /* ---- Clean exits and interruptions ---- */

  /** Over every run: a claim that was given up is held by streams alone, never by a timer, until a create joins. */
  lemma CleanExitHasNoTimer(cfg: Config, es: seq<Event>, s: State, w: nat, c: Client)
    requires After(cfg, es) == Some(s) && ClaimAt(s.claims, w, c).Some?
    requires GaveUp(cfg, es, |es|, w, c, ClaimAt(s.claims, w, c).value.id)
    ensures ClaimAt(s.claims, w, c).value.timer.None? && ClaimAt(s.claims, w, c).value.streams > 0
  {
    InvAlways(cfg, es);
    assert InvAt(s, w, c);
    ReleasedIff(cfg, es, w, c, ClaimAt(s.claims, w, c).value.id, s);
  }

  /**
  Over every run: when a client's last stream on w closes, its claim ends at once, and with it the
  workspace if the claim was the last one, exactly if there is no grace or the client gave the claim
  up and has not come back through a create since. Otherwise the same claim object waits under a
  timer whose callback is outstanding.
  */
  lemma LastDetachIff(cfg: Config, es: seq<Event>, s: State, w: nat, c: Client)
    requires After(cfg, es) == Some(s) && ClaimAt(s.claims, w, c).Some? && ClaimAt(s.claims, w, c).value.streams == 1
    ensures var t, id := Apply(s, Detach(w, c)).claims, ClaimAt(s.claims, w, c).value.id;
            && (ClaimAt(t, w, c).None? <==> !cfg.grace || GaveUp(cfg, es, |es|, w, c, id))
            && (ClaimAt(t, w, c).None? ==>
                  t.teardowns == if s.claims.all[w].clients.Keys == {c} then s.claims.teardowns + multiset{w} else s.claims.teardowns)
            && (ClaimAt(t, w, c).Some? ==>
                  var x := ClaimAt(t, w, c).value;
                  && x.id == id && x.streams == 0 && x.timer.Some? && x.timer.value in t.holds
                  && t.holds[x.timer.value] == Hold(w, c, id) && t.teardowns == s.claims.teardowns)
  {
    InvAlways(cfg, es);
    CfgStays(cfg, es);
    assert InvAt(s, w, c);
    ReleasedIff(cfg, es, w, c, ClaimAt(s.claims, w, c).value.id, s);
    OnlyClaim(s.claims.all[w].clients, c);
  }

  lemma OnlyClaim(clients: map<Client, Claim>, c: Client)
    requires c in clients
    ensures clients - {c} == map[] <==> clients.Keys == {c}
  {
    assert (clients - {c}).Keys == clients.Keys - {c};
    assert clients - {c} == map[] <==> (clients - {c}).Keys == {};
  }

  /** A create by c that joins w takes back what c gave up: until c gives up again, a dropped stream gets its grace. */
  lemma JoinSupersedes(cfg: Config, es: seq<Event>, n: nat, s: State, w: nat, c: Client)
    requires After(cfg, es) == Some(s) && n < |es| && JoinsAt(cfg, es, n, w, c)
    requires forall i | n < i < |es| :: !(es[i].Release? && es[i].ws == w && es[i].client == c)
    requires ClaimAt(s.claims, w, c).Some? && ClaimAt(s.claims, w, c).value.streams == 1 && cfg.grace
    ensures var x := ClaimAt(Apply(s, Detach(w, c)).claims, w, c);
            x.Some? && x.value.id == ClaimAt(s.claims, w, c).value.id && x.value.timer.Some?
  {
    assert es[n].CreateBegin? || es[n].CreateCommit?;
    LastDetachIff(cfg, es, s, w, c);
  }

  /** While more than one stream is open, closing one only counts it. */
  lemma OtherStreamsHold(s: State, w: nat, c: Client)
    requires Reachable(s) && ClaimAt(s.claims, w, c).Some? && ClaimAt(s.claims, w, c).value.streams > 1
    ensures var x, t := ClaimAt(s.claims, w, c).value, Apply(s, Detach(w, c)).claims;
            ClaimAt(t, w, c) == Some(x.(streams := x.streams - 1)) && t.teardowns == s.claims.teardowns && t.holds == s.claims.holds
  {
  }

  /* ---- How the server closes ---- */

  /**
  A step closes the server exactly if it leaves it idle and is an idle callback, a granted request to
  shut down, or, with a shutdown hook and no linger, the end of a teardown or of a create.
  */
  lemma ClosesIff(s: State, e: Event)
    requires Reachable(s) && Enabled(s, e) && !s.server.closing
    ensures var v := Apply(s, e).server;
            v.closing <==>
              && Idle(v)
              && (e.IdleFire? || e.ShutdownIfIdle? ||
                  (s.cfg.hook && !s.cfg.linger && (e.CreateSettle? || (e.Teardown? && Unclaimed(s.claims, e.ws)))))
  {
    ReachableInv(s);
  }

  /** Without a shutdown hook no idle timer is ever armed, so the server closes only on request. */
  lemma {:induction false} NoHookNoTimer(cfg: Config, es: seq<Event>)
    requires Run(cfg, es) && !cfg.hook
    ensures After(cfg, es).value.server.timer.None? && After(cfg, es).value.server.idles == {}
  {
    if es != [] {
      NoHookNoTimer(cfg, es[..|es| - 1]);
      CfgStays(cfg, es[..|es| - 1]);
      LastStep(cfg, es);
      NoHookStep(After(cfg, es[..|es| - 1]).value, es[|es| - 1]);
    }
  }

  lemma NoHookStep(s: State, e: Event)
    requires Enabled(s, e) && !s.cfg.hook && s.server.timer.None? && s.server.idles == {}
    ensures Apply(s, e).server.timer.None? && Apply(s, e).server.idles == {}
  {
  }
}
