/**
What every reachable state of the workspace machine satisfies. The part about claims speaks of
one workspace w and one client c, which stand for any.
*/
module WorkspaceSafety {
  import opened Common
  import opened Workspaces

  /* ---- The invariant ---- */

  /** pathIndex and the live workspaces are inverse to each other. */
  ghost predicate Indexed(k: Claims, v: Server) {
    && (forall p | p in v.pathIndex ::
          v.pathIndex[p] in v.live && v.pathIndex[p] in k.all && k.all[v.pathIndex[p]].path == p)
    && (forall w | w in v.live :: w in k.all && k.all[w].path in v.pathIndex && v.pathIndex[k.all[w].path] == w)
  }

  /** The shutdown latch, and the idle timer that reaps an empty server. */
  ghost predicate Latched(v: Server, cfg: Config, slow: bool) {
    && v.pending == |v.creates|
    && (forall j | j in v.creates :: j < v.nextId)
    && (v.closing ==> Idle(v))
    && (v.timer.Some? ==> v.timer.value in v.idles)
    && (cfg.hook && slow && Idle(v) ==> v.closing || v.timer.Some?)
  }

  ghost predicate Fresh(k: Claims) {
    && (forall t | t in k.holds :: t < k.nextId && k.holds[t].claim < k.nextId && k.holds[t].ws in k.all)
    && (forall w | w in k.teardowns :: w in k.all)
  }

  ghost predicate Whole(s: State) {
    && Indexed(s.claims, s.server) && Latched(s.server, s.cfg, s.history.slow) && Fresh(s.claims)
    && (forall w | w in s.claims.all :: w < s.server.nextId)
    && (forall p | p in s.history.open :: p.0 in s.claims.all)
  }

  function ClaimAt(k: Claims, w: nat, c: Client): Option<Claim> {
    if w in k.all && c in k.all[w].clients then Some(k.all[w].clients[c]) else None
  }

  predicate Unclaimed(k: Claims, w: nat) {
    w in k.all && k.all[w].clients == map[]
  }

  /** Removed workspaces stay unclaimed; a live unclaimed one has a teardown coming. */
  ghost predicate Settled(k: Claims, live: set<nat>, w: nat) {
    w in k.all ==>
      && (w !in live ==> Unclaimed(k, w))
      && (w in live && Unclaimed(k, w) ==> w in k.teardowns)
  }

  /** A claim is held by streams or by a timer, never both, and that timer's callback can come. */
  ghost predicate HeldBy(k: Claims, w: nat, c: Client, x: Claim) {
    && x.id < k.nextId
    && (x.streams > 0 <==> x.timer.None?) && (x.timer.Some? ==> !x.released)
    && (x.timer.Some? ==> x.timer.value in k.holds && k.holds[x.timer.value] == Hold(w, c, x.id))
  }

  ghost predicate Held(k: Claims, w: nat, c: Client) {
    ClaimAt(k, w, c).Some? ==> HeldBy(k, w, c, ClaimAt(k, w, c).value)
  }

  /** A retired client that has not attached again holds nothing. */
  ghost predicate Parted(k: Claims, retired: set<Client>, back: set<Client>, w: nat, c: Client) {
    c in retired && c !in back ==> ClaimAt(k, w, c).None?
  }

  function Streams(x: Option<Claim>): nat {
    if x.Some? then x.value.streams else 0
  }

  /** A never-retired client's streams are its attaches that were not detached. */
  ghost predicate Counted(k: Claims, retired: set<Client>, h: History, w: nat, c: Client) {
    h.paired && c !in retired ==> Streams(ClaimAt(k, w, c)) == Open(h, w, c)
  }

  ghost predicate InvAt(s: State, w: nat, c: Client) {
    && Settled(s.claims, s.server.live, w) && Held(s.claims, w, c)
    && Parted(s.claims, s.server.retired, s.history.back, w, c)
    && Counted(s.claims, s.server.retired, s.history, w, c)
  }

  ghost predicate Inv(s: State) {
    Whole(s) && forall w, c :: InvAt(s, w, c)
  }

  /* ---- Steps on the claims of one workspace ---- */

  /** From k to t client d's entry on v became x, and no other entry changed. */
  ghost predicate EntryMoves(k: Claims, t: Claims, v: nat, d: Client, x: Option<Claim>) {
    && v in k.all && t.all.Keys == k.all.Keys && (forall w | w in k.all :: t.all[w].path == k.all[w].path)
    && (forall w, c :: ClaimAt(t, w, c) == if w == v && c == d then x else ClaimAt(k, w, c))
  }

  /** A workspace that became unclaimed has a teardown coming; none became claimed but v. */
  ghost predicate TeardownsMove(k: Claims, t: Claims, v: nat, x: Option<Claim>) {
    && (forall w | Unclaimed(t, w) :: Unclaimed(k, w) || w in t.teardowns)
    && (forall w | Unclaimed(k, w) :: Unclaimed(t, w) || (w == v && x.Some?))
    && (forall w | w in k.teardowns :: w in t.teardowns)
    && (forall w | w in t.teardowns :: w in k.all)
  }

  /** Only d's timers on v may have been stopped; timers may have been armed. */
  ghost predicate TimersMove(k: Claims, t: Claims, v: nat, d: Client) {
    && t.nextId >= k.nextId
    && (forall j | j in k.holds && !(k.holds[j].ws == v && k.holds[j].client == d) ::
          j in t.holds && t.holds[j] == k.holds[j])
    && (forall j | j in t.holds ::
          (j in k.holds && t.holds[j] == k.holds[j]) || (j < t.nextId && t.holds[j].claim < t.nextId && t.holds[j].ws in k.all))
  }

  ghost predicate Moves(k: Claims, t: Claims, v: nat, d: Client, x: Option<Claim>) {
    EntryMoves(k, t, v, d, x) && TeardownsMove(k, t, v, x) && TimersMove(k, t, v, d)
  }

  /** Then every invariant is kept, if the new entry is held and the history agrees. */
  lemma MovesKeep(s: State, t: State, v: nat, d: Client, x: Option<Claim>)
    requires Inv(s) && Moves(s.claims, t.claims, v, d, x)
    requires t == s.(claims := t.claims, history := t.history) && t.history.slow == s.history.slow
    requires x.Some? ==> HeldBy(t.claims, v, d, x.value) && v in s.server.live
    requires x.Some? && d in s.server.retired ==> d in t.history.back || ClaimAt(s.claims, v, d).Some?
    requires s.history.back <= t.history.back && (t.history.paired ==> s.history.paired)
    requires forall w: nat, c | (w, c) != (v, d) :: Open(t.history, w, c) == Open(s.history, w, c)
    requires forall p | p in t.history.open :: p in s.history.open || p == (v, d)
    requires t.history.paired && d !in s.server.retired ==> Streams(x) == Open(t.history, v, d)
    ensures Inv(t)
  {
    forall w, c ensures InvAt(t, w, c) {
      assert InvAt(s, w, c);
      assert InvAt(s, v, d);
    }
  }

  lemma PutMoves(k: Claims, v: nat, d: Client, x: Claim)
    requires Fresh(k) && v in k.all
    ensures EntryMoves(k, Put(k, v, d, x), v, d, Some(x)) && TeardownsMove(k, Put(k, v, d, x), v, Some(x))
  {
    assert d in Put(k, v, d, x).all[v].clients;
  }

  lemma DropMoves(k: Claims, v: nat, d: Client)
    requires Fresh(k) && v in k.all
    ensures EntryMoves(k, Drop(k, v, d), v, d, None)
  {
  }

  lemma DropLeavesTeardown(k: Claims, v: nat, d: Client)
    requires Fresh(k) && v in k.all
    ensures TeardownsMove(k, Drop(k, v, d), v, None)
  {
    assert Unclaimed(k, v) ==> k.all[v].clients - {d} == map[];
  }

  /** A timer of d on v, if any. */
  ghost predicate OwnTimer(k: Claims, timer: Option<nat>, v: nat, d: Client) {
    timer.Some? ==> timer.value in k.holds && k.holds[timer.value].ws == v && k.holds[timer.value].client == d
  }

  /** Put and Drop do not look at timers, so arming and stopping can be seen apart. */
  lemma PutWithTimers(k: Claims, t: Claims, v: nat, d: Client, x: Claim)
    requires Fresh(k) && v in k.all && TimersMove(k, t, v, d)
    requires t == Put(k, v, d, x).(holds := t.holds, nextId := t.nextId)
    ensures Moves(k, t, v, d, Some(x))
  {
    PutMoves(k, v, d, x);
  }

  lemma DropWithTimers(k: Claims, t: Claims, v: nat, d: Client)
    requires Fresh(k) && v in k.all && TimersMove(k, t, v, d)
    requires t == Drop(k, v, d).(holds := t.holds, nextId := t.nextId)
    ensures Moves(k, t, v, d, None)
  {
    DropMoves(k, v, d);
    DropLeavesTeardown(k, v, d);
  }

  lemma NewHeldMoves(k: Claims, v: nat, d: Client, timer: Option<nat>, stopped: bool)
    requires Fresh(k) && v in k.all && OwnTimer(k, timer, v, d)
    ensures var t, x := NewHeld(Stop(k, timer, stopped), v, d), Claim(k.nextId, 0, Some(k.nextId + 1), false);
            Moves(k, t, v, d, Some(x)) && HeldBy(t, v, d, x)
  {
    PutWithTimers(k, NewHeld(Stop(k, timer, stopped), v, d), v, d, Claim(k.nextId, 0, Some(k.nextId + 1), false));
  }

  /** The entry registerClient leaves. */
  lemma RegisterMoves(k: Claims, v: nat, d: Client, stopped: bool) returns (x: Claim)
    requires Fresh(k) && v in k.all && Held(k, v, d)
    ensures var t := Register(k, v, d, stopped); Moves(k, t, v, d, Some(x)) && HeldBy(t, v, d, x)
    ensures x.streams == Streams(ClaimAt(k, v, d))
  {
    x := Claim(k.nextId, 0, Some(k.nextId + 1), false);
    if d !in k.all[v].clients {
      NewHeldMoves(k, v, d, None, stopped);
    } else if k.all[v].clients[d].timer == None {
      x := k.all[v].clients[d].(released := false);
      PutWithTimers(k, Register(k, v, d, stopped), v, d, x);
    } else {
      NewHeldMoves(k, v, d, k.all[v].clients[d].timer, stopped);
    }
  }

  lemma AddStreamMoves(k: Claims, v: nat, d: Client, stopped: bool) returns (x: Claim)
    requires Fresh(k) && v in k.all && Held(k, v, d)
    ensures var t := AddStream(k, v, d, stopped); Moves(k, t, v, d, Some(x)) && HeldBy(t, v, d, x)
    ensures x.streams == Streams(ClaimAt(k, v, d)) + 1
  {
    if d !in k.all[v].clients {
      x := Claim(k.nextId, 1, None, false);
    } else {
      var y := k.all[v].clients[d];
      x := y.(timer := None, streams := y.streams + 1);
    }
    PutWithTimers(k, AddStream(k, v, d, stopped), v, d, x);
  }

  lemma DropStreamMoves(k: Claims, grace: bool, v: nat, d: Client) returns (x: Option<Claim>)
    requires Fresh(k) && v in k.all && Held(k, v, d) && d in k.all[v].clients
    ensures var t := DropStream(k, grace, v, d);
            Moves(k, t, v, d, x) && (x.Some? ==> HeldBy(t, v, d, x.value))
    ensures Streams(x) == if Streams(ClaimAt(k, v, d)) > 0 then Streams(ClaimAt(k, v, d)) - 1 else 0
  {
    var y, t := k.all[v].clients[d], DropStream(k, grace, v, d);
    var left := if y.streams > 0 then y.streams - 1 else 0;
    if left > 0 || y.timer != None {
      x := Some(y.(streams := left));
      PutWithTimers(k, t, v, d, x.value);
    } else if grace && !y.released {
      x := Some(y.(streams := 0, timer := Some(k.nextId)));
      PutWithTimers(k, t, v, d, x.value);
    } else {
      x := None;
      DropWithTimers(k, t, v, d);
    }
  }

  lemma GiveUpMoves(k: Claims, v: nat, d: Client, stopped: bool) returns (x: Option<Claim>)
    requires Fresh(k) && v in k.all && Held(k, v, d) && d in k.all[v].clients
    ensures var t := GiveUp(k, v, d, stopped);
            Moves(k, t, v, d, x) && (x.Some? ==> HeldBy(t, v, d, x.value))
    ensures Streams(x) == Streams(ClaimAt(k, v, d))
  {
    var y, t := k.all[v].clients[d], GiveUp(k, v, d, stopped);
    if y.streams == 0 {
      x := None;
      DropWithTimers(k, t, v, d);
    } else {
      x := Some(y.(timer := None, released := true));
      PutWithTimers(k, t, v, d, x.value);
    }
  }

  lemma CallbackMoves(k: Claims, j: nat)
    requires Fresh(k) && j in k.holds && Expires(k, k.holds[j])
    ensures Moves(k, RunCallback(k, j), k.holds[j].ws, k.holds[j].client, None)
  {
    DropWithTimers(k, RunCallback(k, j), k.holds[j].ws, k.holds[j].client);
  }

  lemma RegisterKeeps(s: State, v: nat, d: Client, stopped: bool)
    requires Inv(s) && v in s.server.live && v in s.claims.all && d !in s.server.retired
    ensures Inv(s.(claims := Register(s.claims, v, d, stopped)))
  {
    assert InvAt(s, v, d);
    var x := RegisterMoves(s.claims, v, d, stopped);
    MovesKeep(s, s.(claims := Register(s.claims, v, d, stopped)), v, d, Some(x));
  }

  lemma AttachKeeps(s: State, v: nat, d: Client, stopped: bool)
    requires Inv(s) && v in s.server.live && v in s.claims.all
    ensures Inv(Apply(s, Attach(v, d, stopped)))
  {
    assert InvAt(s, v, d);
    var x := AddStreamMoves(s.claims, v, d, stopped);
    MovesKeep(s, Apply(s, Attach(v, d, stopped)), v, d, Some(x));
  }

  /** A detach that finds no entry: only possible after the client retired, or unpaired. */
  lemma DetachNothingKeeps(s: State, v: nat, d: Client)
    requires Inv(s) && v in s.claims.all && d !in s.claims.all[v].clients
    ensures Inv(s.(history := CountDetach(s.history, v, d)))
  {
    var t := s.(history := CountDetach(s.history, v, d));
    forall w, c ensures InvAt(t, w, c) {
      assert InvAt(s, w, c);
    }
  }

  lemma DetachFoundKeeps(s: State, v: nat, d: Client, t: State)
    requires Inv(s) && v in s.claims.all && d in s.claims.all[v].clients
    requires t == s.(claims := DropStream(s.claims, s.cfg.grace, v, d), history := CountDetach(s.history, v, d))
    ensures Inv(t)
  {
    assert InvAt(s, v, d);
    var x := DropStreamMoves(s.claims, s.cfg.grace, v, d);
    MovesKeep(s, t, v, d, x);
  }

  lemma DetachKeeps(s: State, v: nat, d: Client)
    requires Inv(s) && v in s.claims.all
    ensures Inv(Apply(s, Detach(v, d)))
  {
    if d !in s.claims.all[v].clients {
      DetachNothingKeeps(s, v, d);
    } else {
      DetachFoundKeeps(s, v, d, Apply(s, Detach(v, d)));
    }
  }

  lemma ReleaseKeeps(s: State, v: nat, d: Client, stopped: bool)
    requires Inv(s) && v in s.claims.all
    ensures Inv(Apply(s, Release(v, d, stopped)))
  {
    assert InvAt(s, v, d);
    if d in s.claims.all[v].clients {
      var x := GiveUpMoves(s.claims, v, d, stopped);
      MovesKeep(s, Apply(s, Release(v, d, stopped)), v, d, x);
    }
  }

  lemma ExpireKeeps(s: State, j: nat)
    requires Inv(s) && j in s.claims.holds
    ensures Inv(Apply(s, Expire(j)))
  {
    var h, t := s.claims.holds[j], Apply(s, Expire(j));
    if Expires(s.claims, h) {
      assert InvAt(s, h.ws, h.client);
      CallbackMoves(s.claims, j);
      MovesKeep(s, t, h.ws, h.client, None);
    } else {
      forall w, c ensures InvAt(t, w, c) {
        assert InvAt(s, w, c);
      }
    }
  }

  /* ---- Steps on the server ---- */

  /** The claims and what they are judged by are unchanged. */
  lemma ServerStepKeeps(s: State, t: State)
    requires Inv(s) && t == s.(server := t.server, history := s.history.(slow := t.history.slow))
    requires t.server.live == s.server.live && t.server.retired == s.server.retired
    requires t.server.pathIndex == s.server.pathIndex && t.server.nextId >= s.server.nextId
    requires Latched(t.server, t.cfg, t.history.slow)
    ensures Inv(t)
  {
    forall w, c ensures InvAt(t, w, c) {
      assert InvAt(s, w, c);
    }
  }

  lemma ScheduleLatches(v: Server, cfg: Config, slow: bool)
    requires v.pending == |v.creates| && (forall j | j in v.creates :: j < v.nextId)
    requires (v.closing ==> Idle(v)) && (v.timer.Some? ==> v.timer.value in v.idles)
    ensures Latched(Schedule(v, cfg), cfg, slow)
  {
  }

  lemma SettleKeeps(s: State, j: nat)
    requires Inv(s) && j in s.server.creates
    ensures Inv(s.(server := SettleOne(s.server, s.cfg, j)))
  {
    var v := s.server;
    assert v.creates.Keys - {j} == (v.creates - {j}).Keys;
    ScheduleLatches(v.(creates := v.creates - {j}, pending := v.pending - 1), s.cfg, s.history.slow);
    ServerStepKeeps(s, s.(server := SettleOne(v, s.cfg, j)));
  }

  lemma CreateChangeKeeps(s: State, j: nat)
    requires Inv(s) && j in s.server.creates
    ensures Inv(s.(server := s.server.(creates := s.server.creates[j := Settling])))
  {
    assert s.server.creates[j := Settling].Keys == s.server.creates.Keys;
    ServerStepKeeps(s, s.(server := s.server.(creates := s.server.creates[j := Settling])));
  }

  /** Every indexed path has a live workspace: the program's stale-entry branches are never taken. */
  lemma NoStaleEntries(s: State, p: Path)
    requires Whole(s)
    ensures p in s.server.pathIndex <==> Existing(s.server, p)
    ensures Existing(s.server, p) ==> s.server.pathIndex[p] in s.claims.all
  {
  }

  lemma CreateBeginKeeps(s: State, c: Client, p: Path, mismatch: bool, stopIdle: bool, stopHold: bool)
    requires Inv(s)
    requires Existing(s.server, p) ==> s.server.pathIndex[p] in s.claims.all
    ensures Inv(DoCreateBegin(s, c, p, mismatch, stopIdle, stopHold))
  {
    if Admitted(s.server, c) {
      NoStaleEntries(s, p);
      var v := CancelIdle(s.server, stopIdle);
      if Existing(s.server, p) {
        ServerStepKeeps(s, s.(server := v));
        RegisterKeeps(s.(server := v), s.server.pathIndex[p], c, stopHold);
      } else {
        var u := Commit(v, c, p);
        assert u.creates.Keys == s.server.creates.Keys + {v.nextId};
        assert u.pathIndex == s.server.pathIndex;
        ServerStepKeeps(s, s.(server := u, history := s.history.(slow := true)));
      }
    }
  }

  /** Workspace w with its creator's hold. */
  function WithCreator(k: Claims, w: nat, d: Client, p: Path): Claims {
    k.(all := k.all[w := Workspace(p, map[d := Claim(k.nextId, 0, Some(k.nextId + 1), false)])],
       holds := k.holds[k.nextId + 1 := Hold(w, d, k.nextId)], nextId := k.nextId + 2)
  }

  lemma NewHeldIsWithCreator(k: Claims, w: nat, d: Client, p: Path)
    ensures NewHeld(k.(all := k.all[w := Workspace(p, map[])]), w, d) == WithCreator(k, w, d, p)
  {
    var m: map<Client, Claim> := map[];
    assert forall x: Claim :: m[d := x] == map[d := x];
    var u := k.(all := k.all[w := Workspace(p, m)]);
    assert NewHeld(u, w, d).all == WithCreator(k, w, d, p).all;
  }

  /** Registering workspace w at an unindexed path. */
  ghost predicate Registers(s: State, t: State, w: nat, d: Client, p: Path) {
    && w == s.server.nextId && t == s.(claims := t.claims, server := t.server)
    && t.server == s.server.(live := s.server.live + {w}, pathIndex := s.server.pathIndex[p := w], nextId := w + 1)
    && t.claims == WithCreator(s.claims, w, d, p)
  }

  lemma RegistersWhole(s: State, t: State, w: nat, d: Client, p: Path)
    requires Whole(s) && Registers(s, t, w, d, p) && p !in s.server.pathIndex && !s.server.closing
    ensures Whole(t)
  {
    assert w !in s.claims.all;
    assert t.server.live != {};
  }

  lemma RegistersClaims(s: State, t: State, w: nat, d: Client, p: Path, v: nat, c: Client)
    requires Whole(s) && Registers(s, t, w, d, p) && d !in s.server.retired && InvAt(s, v, c)
    ensures InvAt(t, v, c)
  {
    assert w !in s.claims.all;
    assert v == w ==> ClaimAt(s.claims, v, c).None? && (w, c) !in s.history.open;
    assert d in t.claims.all[w].clients;
  }

  lemma NewWorkspaceKeeps(s: State, t: State, w: nat, d: Client, p: Path)
    requires Inv(s) && Registers(s, t, w, d, p)
    requires p !in s.server.pathIndex && !s.server.closing && d !in s.server.retired
    ensures Inv(t)
  {
    RegistersWhole(s, t, w, d, p);
    forall x, c ensures InvAt(t, x, c) {
      assert InvAt(s, x, c);
      RegistersClaims(s, t, w, d, p, x, c);
    }
  }

  lemma CreateCommitKeeps(s: State, j: nat, mismatch: bool, stopHold: bool)
    requires Inv(s) && Enabled(s, CreateCommit(j, mismatch, stopHold))
    ensures Inv(DoCreateCommit(s, j, mismatch, stopHold))
  {
    var c, p := s.server.creates[j].client, s.server.creates[j].path;
    var u := s.(server := s.server.(creates := s.server.creates[j := Settling]));
    CreateChangeKeeps(s, j);
    NoStaleEntries(s, p);
    if Admitted(s.server, c) {
      if Existing(s.server, p) {
        RegisterKeeps(u, s.server.pathIndex[p], c, stopHold);
      } else {
        NewHeldIsWithCreator(s.claims, u.server.nextId, c, p);
        NewWorkspaceKeeps(u, DoCreateCommit(s, j, mismatch, stopHold), u.server.nextId, c, p);
      }
    }
  }

  /** An aborted or duplicate teardown only uses itself up. */
  lemma TeardownSpentKeeps(s: State, w: nat, t: State)
    requires Inv(s) && w in s.claims.all && (w !in s.server.live || !Unclaimed(s.claims, w))
    requires t == s.(claims := s.claims.(teardowns := s.claims.teardowns - multiset{w}), history := t.history)
    requires t.history == s.history.(shutdowns := t.history.shutdowns)
    ensures Inv(t)
  {
    forall x, c ensures InvAt(t, x, c) {
      assert InvAt(s, x, c);
    }
  }

  lemma RemovalKeeps(s: State, w: nat, t: State)
    requires Inv(s) && w in s.server.live && Unclaimed(s.claims, w)
    requires t == s.(claims := s.claims.(teardowns := s.claims.teardowns - multiset{w}),
                     server := Remove(s.server, s.cfg, w, s.claims.all[w].path), history := t.history)
    requires t.history == s.history.(shutdowns := t.history.shutdowns)
    ensures Inv(t)
  {
    var v, p := s.server, s.claims.all[w].path;
    ScheduleLatches(v.(pathIndex := v.pathIndex - {p}, live := v.live - {w}), s.cfg, s.history.slow);
    forall x, c ensures InvAt(t, x, c) {
      assert InvAt(s, x, c);
    }
  }

  /** A teardown of a workspace that is no longer live leaves the index alone. */
  lemma LateTeardownKeeps(s: State, w: nat, t: State)
    requires Inv(s) && w in s.claims.all && w !in s.server.live
    requires t == s.(claims := s.claims.(teardowns := s.claims.teardowns - multiset{w}),
                     server := Remove(s.server, s.cfg, w, s.claims.all[w].path), history := t.history)
    requires t.history == s.history.(shutdowns := t.history.shutdowns)
    ensures Inv(t) && t.server.pathIndex == s.server.pathIndex && t.server.live == s.server.live
  {
    TeardownSpentKeeps(s, w, t.(server := s.server));
    assert s.server.live - {w} == s.server.live;
    ScheduleLatches(s.server, s.cfg, s.history.slow);
    ServerStepKeeps(t.(server := s.server), t);
  }

  lemma TeardownKeeps(s: State, w: nat)
    requires Inv(s) && w in s.claims.all
    ensures Inv(DoTeardown(s, w))
  {
    assert forall c :: InvAt(s, w, c);
    if s.claims.all[w].clients != map[] {
      TeardownSpentKeeps(s, w, DoTeardown(s, w));
    } else if w in s.server.live {
      RemovalKeeps(s, w, DoTeardown(s, w));
    } else {
      LateTeardownKeeps(s, w, DoTeardown(s, w));
    }
  }

  /** The effect of RetireClient on every entry, timer and teardown. */
  lemma ForgetMoves(k: Claims, live: set<nat>, c: Client, stopped: set<nat>)
    requires Fresh(k)
    ensures var t := Forget(k, live, c, stopped);
            && t.all.Keys == k.all.Keys && (forall w | w in k.all :: t.all[w].path == k.all[w].path)
            && (forall w, d :: ClaimAt(t, w, d) == if w in live && d == c then None else ClaimAt(k, w, d))
            && (forall j | j in t.holds :: j in k.holds && t.holds[j] == k.holds[j])
            && (forall w | w in k.teardowns :: w in t.teardowns)
            && (forall w | w in t.teardowns :: w in k.all)
  {
  }

  lemma LastOne(clients: map<Client, Claim>, c: Client)
    requires clients != map[] && clients - {c} == map[]
    ensures c in clients
  {
    var d :| d in clients;
    assert d in clients - {c} || d == c;
  }

  lemma ForgetLeavesTeardowns(k: Claims, live: set<nat>, c: Client, stopped: set<nat>, w: nat)
    ensures var t := Forget(k, live, c, stopped);
            && (Unclaimed(t, w) ==> Unclaimed(k, w) || w in t.teardowns)
            && (Unclaimed(k, w) ==> Unclaimed(t, w))
  {
    if w in k.all && w in live && Unclaimed(Forget(k, live, c, stopped), w) && !Unclaimed(k, w) {
      LastOne(k.all[w].clients, c);
      assert w in LastOn(k, live, c);
    }
  }

  /** A timer counted among c's is a timer of c. */
  lemma TimersAreOwn(s: State, c: Client, j: nat)
    requires Inv(s) && j in TimersOf(s.claims, s.server.live, c)
    ensures j in s.claims.holds && s.claims.holds[j].client == c && s.claims.holds[j].ws in s.server.live
  {
    var u :| u in s.server.live && u in s.claims.all && c in s.claims.all[u].clients &&
             s.claims.all[u].clients[c].timer == Some(j);
    assert InvAt(s, u, c);
  }

  /** Only timers of c's own claims are stopped. */
  lemma ForgetKeepsOthersTimers(s: State, c: Client, stopped: set<nat>, w: nat, d: Client)
    requires Inv(s) && ClaimAt(Forget(s.claims, s.server.live, c, stopped), w, d).Some?
    ensures Held(Forget(s.claims, s.server.live, c, stopped), w, d)
  {
    ForgetMoves(s.claims, s.server.live, c, stopped);
    assert InvAt(s, w, d);
    var x := ClaimAt(s.claims, w, d).value;
    if x.timer.Some? {
      assert x.timer.value in TimersOf(s.claims, s.server.live, c) ==> d == c && w in s.server.live by {
        if x.timer.value in TimersOf(s.claims, s.server.live, c) { TimersAreOwn(s, c, x.timer.value); }
      }
    }
  }

  lemma RetireKeeps(s: State, c: Client, stopped: set<nat>)
    requires Inv(s)
    ensures Inv(DoRetire(s, c, stopped))
  {
    var t := DoRetire(s, c, stopped);
    ForgetMoves(s.claims, s.server.live, c, stopped);
    forall w, d ensures InvAt(t, w, d) {
      assert InvAt(s, w, d);
      ForgetLeavesTeardowns(s.claims, s.server.live, c, stopped, w);
      if ClaimAt(t.claims, w, d).Some? { ForgetKeepsOthersTimers(s, c, stopped, w, d); }
    }
  }

  lemma StepKeeps(s: State, e: Event)
    requires Inv(s) && Enabled(s, e)
    ensures Inv(Apply(s, e))
  {
    match e
    case CreateBegin(c, p, mismatch, stopIdle, stopHold) => CreateBeginKeeps(s, c, p, mismatch, stopIdle, stopHold);
    case CreateFail(k) => CreateChangeKeeps(s, k);
    case CreateCommit(k, mismatch, stopHold) => CreateCommitKeeps(s, k, mismatch, stopHold);
    case CreateSettle(k) => SettleKeeps(s, k);
    case Attach(w, c, stopHold) => AttachKeeps(s, w, c, stopHold);
    case Detach(w, c) => DetachKeeps(s, w, c);
    case Release(w, c, stopHold) => ReleaseKeeps(s, w, c, stopHold);
    case Expire(t) => ExpireKeeps(s, t);
    case Retire(c, stopped) => RetireKeeps(s, c, stopped);
    case Teardown(w) => TeardownKeeps(s, w);
    case IdleFire(t) => ServerStepKeeps(s, Apply(s, e));
    case ShutdownIfIdle => ServerStepKeeps(s, Apply(s, e));
  }

  lemma {:induction false} InvAlways(cfg: Config, es: seq<Event>)
    requires After(cfg, es).Some?
    ensures Inv(After(cfg, es).value)
  {
    if es != [] {
      InvAlways(cfg, es[..|es| - 1]);
      StepKeeps(After(cfg, es[..|es| - 1]).value, es[|es| - 1]);
    }
  }
}
