/**
`Backend` itself: the fields its methods update, critical section by critical section, proved to
take the steps of the workspace machine.
*/
module Backends {
  import opened Common
  import opened Workspaces

  datatype Created = Refused | Mismatch | Joined(ws: nat) | Slow(create: nat)

  class Backend {
    const cfg: Config
    // Workspaces and their client maps.
    var all: map<nat, Workspace>
    var nextClaim: nat
    // Callbacks and teardowns the runtime still owes.
    var holds: map<nat, Hold>
    var teardowns: multiset<nat>
    var idles: set<nat>
    // Guarded by mu.
    var live: set<nat>
    var pathIndex: map<Path, nat>
    var pending: nat
    var closing: bool
    var shutdownTimer: Option<nat>
    var retired: set<Client>
    var creates: map<nat, Create>
    var nextId: nat

    ghost function Claimed(): Claims
      reads this
    {
      Claims(all, holds, teardowns, nextClaim)
    }

    ghost function Served(): Server
      reads this
    {
      Server(live, pathIndex, pending, closing, shutdownTimer, retired, creates, idles, nextId)
    }

    constructor (cfg: Config)
      ensures this.cfg == cfg && Claimed() == Initial(cfg).claims && Served() == Initial(cfg).server
    {
      this.cfg := cfg;
      all, nextClaim, holds, teardowns, idles := map[], 0, map[], multiset{}, {};
      live, pathIndex, pending, closing, shutdownTimer, retired, creates, nextId :=
        {}, map[], 0, false, None, {}, map[], 0;
    }

    /* ---- Under clientsMu ---- */

    method SetEntry(w: nat, c: Client, x: Claim)
      requires w in all
      modifies this`all
      ensures Claimed() == Put(old(Claimed()), w, c, x)
    {
      all := all[w := all[w].(clients := all[w].clients[c := x])];
    }

    /** delete(ws.clients, c); last: nobody is left. */
    method DeleteEntry(w: nat, c: Client) returns (last: bool)
      requires w in all
      modifies this`all, this`teardowns
      ensures Claimed() == Drop(old(Claimed()), w, c)
      ensures last == (all[w].clients == map[])
    {
      all := all[w := all[w].(clients := all[w].clients - {c})];
      last := all[w].clients == map[];
      if last {
        teardowns := teardowns + multiset{w};
      }
    }

    method StopTimer(timer: Option<nat>, stopped: bool)
      modifies this`holds
      ensures Claimed() == Stop(old(Claimed()), timer, stopped)
    {
      if timer.Some? && stopped {
        holds := holds - {timer.value};
      }
    }

    method NewHeldClient(w: nat, c: Client)
      requires w in all
      modifies this`all, this`holds, this`nextClaim
      ensures Claimed() == NewHeld(old(Claimed()), w, c)
    {
      SetEntry(w, c, Claim(nextClaim, 0, Some(nextClaim + 1), false));
      holds := holds[nextClaim + 1 := Hold(w, c, nextClaim)];
      nextClaim := nextClaim + 2;
    }

    method RegisterClient(w: nat, c: Client, stopped: bool)
      requires w in all
      modifies this`all, this`holds, this`nextClaim
      ensures Claimed() == Register(old(Claimed()), w, c, stopped)
    {
      if c in all[w].clients {
        var x := all[w].clients[c];
        if x.timer == None {
          SetEntry(w, c, x.(released := false));
          return;
        }
        StopTimer(x.timer, stopped);
      }
      NewHeldClient(w, c);
    }

    /** found: the workspace is live; if it is not, nothing changes. */
    method AttachClient(w: nat, c: Client, stopped: bool) returns (found: bool)
      requires w in live ==> w in all
      modifies this`all, this`holds, this`nextClaim
      ensures found == (w in live)
      ensures Claimed() == if w in live then AddStream(old(Claimed()), w, c, stopped) else old(Claimed())
    {
      found := w in live;
      if found {
        if c !in all[w].clients {
          SetEntry(w, c, Claim(nextClaim, 1, None, false));
          nextClaim := nextClaim + 1;
        } else {
          var x := all[w].clients[c];
          if x.timer != None {
            StopTimer(x.timer, stopped);
            x := x.(timer := None);
          }
          SetEntry(w, c, x.(streams := x.streams + 1));
        }
      }
    }

    method DetachStream(w: nat, c: Client) returns (teardown: bool)
      requires w in all
      modifies this`all, this`holds, this`teardowns, this`nextClaim
      ensures Claimed() == DropStream(old(Claimed()), cfg.grace, w, c)
      ensures teardown <==> teardowns[w] > old(teardowns)[w]
    {
      teardown := false;
      if c in all[w].clients {
        var x := all[w].clients[c];
        if x.streams > 0 {
          x := x.(streams := x.streams - 1);
        }
        if x.streams == 0 && x.timer == None {
          if cfg.grace && !x.released {
            SetEntry(w, c, x.(timer := Some(nextClaim)));
            holds := holds[nextClaim := Hold(w, c, x.id)];
            nextClaim := nextClaim + 1;
          } else {
            teardown := DeleteEntry(w, c);
          }
        } else {
          SetEntry(w, c, x);
        }
      }
    }

    method ReleaseHoldLocked(w: nat, c: Client, stopped: bool) returns (teardown: bool)
      requires w in all
      modifies this`all, this`holds, this`teardowns
      ensures Claimed() == GiveUp(old(Claimed()), w, c, stopped)
      ensures teardown <==> teardowns[w] > old(teardowns)[w]
    {
      teardown := false;
      if c in all[w].clients {
        var x := all[w].clients[c];
        if x.timer != None {
          StopTimer(x.timer, stopped);
          x := x.(timer := None);
        }
        if x.streams == 0 {
          teardown := DeleteEntry(w, c);
        } else {
          SetEntry(w, c, x.(released := true));
        }
      }
    }

    /** The body of grace timer j. */
    method ExpireHold(j: nat) returns (teardown: bool)
      requires j in holds && holds[j].ws in all
      modifies this`all, this`holds, this`teardowns
      ensures Claimed() == RunCallback(old(Claimed()), j)
      ensures teardown <==> teardowns[old(holds)[j].ws] > old(teardowns)[old(holds)[j].ws]
    {
      var h := holds[j];
      teardown := false;
      holds := holds - {j};
      if h.client in all[h.ws].clients {
        var x := all[h.ws].clients[h.client];
        if x.id == h.claim && x.timer != None && x.streams == 0 {
          teardown := DeleteEntry(h.ws, h.client);
        }
      }
    }

    /* ---- Under mu ---- */

    method ScheduleShutdownIfIdle() returns (shutdownNow: bool)
      modifies this`closing, this`shutdownTimer, this`idles, this`nextId
      ensures Served() == Schedule(old(Served()), cfg)
      ensures shutdownNow <==> cfg.hook && !cfg.linger && Idle(old(Served()))
    {
      shutdownNow := false;
      if !cfg.hook || live != {} || pending != 0 {
        return;
      }
      if !cfg.linger {
        closing := true;
        shutdownNow := true;
      } else if shutdownTimer == None {
        shutdownTimer := Some(nextId);
        idles := idles + {nextId};
        nextId := nextId + 1;
      }
    }

    method CancelShutdown(stopped: bool)
      modifies this`shutdownTimer, this`idles
      ensures Served() == CancelIdle(old(Served()), stopped)
    {
      if shutdownTimer.Some? {
        if stopped {
          idles := idles - {shutdownTimer.value};
        }
        shutdownTimer := None;
      }
    }

    /** The body of idle timer j. shut: the server is told to exit. */
    method MaybeShutdown(j: nat) returns (shut: bool)
      requires j in idles
      modifies this`closing, this`shutdownTimer, this`idles
      ensures Served() == IdleCallback(old(Served()), j)
      ensures shut <==> Idle(old(Served())) && cfg.hook
    {
      idles := idles - {j};
      shutdownTimer := None;
      var idle := live == {} && pending == 0;
      if idle {
        closing := true;
      }
      shut := idle && cfg.hook;
    }

    method ShutdownIfIdle() returns (granted: bool)
      modifies this`closing
      ensures Served() == old(Served()).(closing := old(closing) || granted)
      ensures granted <==> Idle(old(Served()))
    {
      granted := live == {} && pending == 0;
      if granted {
        closing := true;
      }
    }

    /** CreateWorkspace up to its first unlock. */
    method CreateBegin(c: Client, p: Path, mismatch: bool, stopIdle: bool, stopHold: bool) returns (r: Created)
      requires Existing(Served(), p) ==> pathIndex[p] in all
      modifies this
      ensures r.Refused? <==> !Admitted(old(Served()), c)
      ensures r.Refused? ==> Served() == old(Served()) && Claimed() == old(Claimed())
      ensures !r.Refused? ==> (r.Slow? <==> !Existing(old(Served()), p)) && (r.Mismatch? ==> mismatch) && (r.Joined? ==> !mismatch)
      ensures r.Mismatch? ==> Served() == CancelIdle(old(Served()), stopIdle) && Claimed() == old(Claimed())
      ensures r.Joined? ==> r.ws == old(pathIndex)[p] && Served() == CancelIdle(old(Served()), stopIdle)
      ensures r.Joined? ==> Claimed() == Register(old(Claimed()), r.ws, c, stopHold)
      ensures r.Slow? ==> Served() == Commit(CancelIdle(old(Served()), stopIdle), c, p) && Claimed() == old(Claimed())
    {
      if closing || c in retired {
        return Refused;
      }
      CancelShutdown(stopIdle);
      if p in pathIndex {
        var w := pathIndex[p];
        if w in live {
          if mismatch {
            return Mismatch;
          }
          RegisterClient(w, c, stopHold);
          return Joined(w);
        }
        pathIndex := pathIndex - {p};
      }
      assert pathIndex - {p} == pathIndex == old(pathIndex) - {p};
      pending := pending + 1;
      creates := creates[nextId := Initializing(c, p)];
      r := Slow(nextId);
      nextId := nextId + 1;
    }

    /** Its section after the initialization, for pending create k. */
    method CreateCommit(k: nat, mismatch: bool, stopHold: bool) returns (r: Created)
      requires k in creates && creates[k].Initializing?
      requires Existing(Served(), creates[k].path) ==> pathIndex[creates[k].path] in all
      modifies this
      ensures var c, p, v := old(creates)[k].client, old(creates)[k].path, old(Served()).(creates := old(creates)[k := Settling]);
              && (r.Refused? <==> !Admitted(v, c)) && !r.Slow?
              && (r.Mismatch? ==> mismatch && Existing(v, p)) && (r.Joined? && Existing(v, p) ==> !mismatch)
              && (r.Refused? || r.Mismatch? ==> Served() == v && Claimed() == old(Claimed()))
              && (r.Joined? && Existing(v, p) ==>
                    r.ws == v.pathIndex[p] && Served() == v && Claimed() == Register(old(Claimed()), r.ws, c, stopHold))
              && (r.Joined? && !Existing(v, p) ==>
                    && r.ws == v.nextId && Claimed() == NewHeld(old(Claimed()).(all := old(all)[r.ws := Workspace(p, map[])]), r.ws, c)
                    && Served() == v.(live := v.live + {r.ws}, pathIndex := v.pathIndex[p := r.ws], nextId := r.ws + 1))
    {
      var c, p := creates[k].client, creates[k].path;
      creates := creates[k := Settling];
      if closing || c in retired {
        return Refused;
      }
      if p in pathIndex {
        var w := pathIndex[p];
        if w in live {
          if mismatch {
            return Mismatch;
          }
          RegisterClient(w, c, stopHold);
          return Joined(w);
        }
        pathIndex := pathIndex - {p};
      }
      assert pathIndex[p := nextId] == old(pathIndex)[p := nextId];
      var w := Publish(c, p);
      return Joined(w);
    }

    method Publish(c: Client, p: Path) returns (w: nat)
      modifies this`all, this`holds, this`nextClaim, this`live, this`pathIndex, this`nextId
      ensures w == old(nextId) && Claimed() == NewHeld(old(Claimed()).(all := old(all)[w := Workspace(p, map[])]), w, c)
      ensures Served() == old(Served()).(live := old(live) + {w}, pathIndex := old(pathIndex)[p := w], nextId := w + 1)
    {
      w := nextId;
      nextId := nextId + 1;
      live := live + {w};
      pathIndex := pathIndex[p := w];
      all := all[w := Workspace(p, map[])];
      ghost var k := Claimed();
      assert k == old(Claimed()).(all := old(all)[w := Workspace(p, map[])]);
      NewHeldClient(w, c);
    }

    /** The deferred part of pending create k. */
    method CreateSettle(k: nat) returns (shutdownNow: bool)
      requires k in creates
      modifies this`creates, this`pending, this`closing, this`shutdownTimer, this`idles, this`nextId
      ensures Served() == SettleOne(old(Served()), cfg, k)
      ensures shutdownNow <==> cfg.hook && !cfg.linger && live == {} && pending == 0
    {
      creates := creates - {k};
      pending := if pending > 0 then pending - 1 else 0;
      shutdownNow := ScheduleShutdownIfIdle();
    }

    method Unregister(w: nat)
      requires w in all
      modifies this`live, this`pathIndex
      ensures var p, v := all[w].path, old(Served());
              Served() == v.(pathIndex := if p in v.pathIndex && v.pathIndex[p] == w then v.pathIndex - {p} else v.pathIndex,
                             live := v.live - {w})
    {
      if all[w].path in pathIndex && pathIndex[all[w].path] == w {
        pathIndex := pathIndex - {all[w].path};
      }
      live := live - {w};
    }

    method RemoveWorkspace(w: nat) returns (shutdownNow: bool)
      requires w in all
      modifies this`live, this`pathIndex, this`closing, this`shutdownTimer, this`idles, this`nextId
      ensures Served() == Remove(old(Served()), cfg, w, all[w].path)
      ensures shutdownNow <==> cfg.hook && !cfg.linger && live == {} && pending == 0
    {
      Unregister(w);
      shutdownNow := ScheduleShutdownIfIdle();
    }

    /** torn: the workspace was shut down; otherwise it had been claimed again. */
    method Teardown(w: nat) returns (torn: bool, shutdownNow: bool)
      requires w in all && w in teardowns
      modifies this`teardowns, this`live, this`pathIndex, this`closing, this`shutdownTimer, this`idles, this`nextId
      ensures Claimed() == old(Claimed()).(teardowns := old(teardowns) - multiset{w})
      ensures torn <==> all[w].clients == map[]
      ensures Served() == if torn then Remove(old(Served()), cfg, w, all[w].path) else old(Served())
      ensures shutdownNow <==> torn && cfg.hook && !cfg.linger && live == {} && pending == 0
    {
      teardowns := teardowns - multiset{w};
      if all[w].clients != map[] {
        return false, false;
      }
      shutdownNow := RemoveWorkspace(w);
      torn := true;
    }

    /** stopped: the timers that are stopped in time. */
    method RetireClient(c: Client, stopped: set<nat>)
      requires live <= all.Keys
      modifies this`retired, this`all, this`holds, this`teardowns
      ensures Claimed() == Forget(old(Claimed()), live, c, stopped)
      ensures retired == old(retired) + {c}
    {
      retired := retired + {c};
      ghost var k := Claimed();
      assert k == old(Claimed());
      var todo := live;
      ForgetNothing(k, c, stopped);
      assert live - todo == {};
      while todo != {}
        invariant todo <= live <= all.Keys == k.all.Keys && retired == old(retired) + {c}
        invariant Claimed() == Forget(k, live - todo, c, stopped)
      {
        var w :| w in todo;
        ForgetOne(k, live - todo, c, stopped, w);
        assert live - (todo - {w}) == live - todo + {w};
        todo := todo - {w};
        ReleaseOn(w, c, stopped);
      }
      assert live - todo == live;
    }

    method ReleaseOn(w: nat, c: Client, stopped: set<nat>)
      requires w in all
      modifies this`all, this`holds, this`teardowns
      ensures Claimed() == ForgetAt(old(Claimed()), w, c, stopped)
    {
      if c in all[w].clients {
        var x := all[w].clients[c];
        if x.timer.Some? {
          StopTimer(x.timer, x.timer.value in stopped);
        }
        var last := DeleteEntry(w, c);
      }
    }
  }

  /** One turn of RetireClient's loop. */
  function ForgetAt(k: Claims, w: nat, c: Client, stopped: set<nat>): Claims
    requires w in k.all
  {
    if c !in k.all[w].clients then k
    else
      var timer := k.all[w].clients[c].timer;
      Drop(Stop(k, timer, timer.Some? && timer.value in stopped), w, c)
  }

  lemma ForgetNothing(k: Claims, c: Client, stopped: set<nat>)
    ensures Forget(k, {}, c, stopped) == k
  {
    assert TimersOf(k, {}, c) == {} && LastOn(k, {}, c) == {};
    assert Forget(k, {}, c, stopped).all == k.all;
  }

  lemma TimersOneMore(k: Claims, done: set<nat>, c: Client, w: nat)
    requires w !in done && w in k.all
    ensures TimersOf(k, done + {w}, c) == TimersOf(k, done, c) +
              if c in k.all[w].clients && k.all[w].clients[c].timer.Some? then {k.all[w].clients[c].timer.value} else {}
  {
  }

  lemma LastOneMore(k: Claims, done: set<nat>, c: Client, w: nat)
    requires w !in done && w in k.all
    ensures LastOn(k, done + {w}, c) == LastOn(k, done, c) +
              if c in k.all[w].clients && k.all[w].clients - {c} == map[] then {w} else {}
  {
  }

  lemma EntriesOneMore(k: Claims, done: set<nat>, c: Client, stopped: set<nat>, w: nat)
    requires w !in done && w in k.all
    ensures var t := Forget(k, done, c, stopped).all;
            w in t && t[w] == k.all[w] &&
            Forget(k, done + {w}, c, stopped).all == t[w := k.all[w].(clients := k.all[w].clients - {c})]
  {
  }

  lemma HoldsOneMore(h: map<nat, Hold>, timers: set<nat>, j: nat, stopped: set<nat>)
    ensures h - ((timers + {j}) * stopped) == h - (timers * stopped) - if j in stopped then {j} else {}
  {
  }

  lemma TeardownsOneMore(m: multiset<nat>, last: set<nat>, w: nat)
    requires w !in last
    ensures m + multiset(last + {w}) == m + multiset(last) + multiset{w}
  {
  }

  lemma NothingToDrop(m: map<Client, Claim>, c: Client)
    requires c !in m
    ensures m - {c} == m
  {
  }

  lemma ForgetAbsent(k: Claims, done: set<nat>, c: Client, stopped: set<nat>, w: nat)
    requires w !in done && w in k.all && c !in k.all[w].clients
    ensures Forget(k, done + {w}, c, stopped) == Forget(k, done, c, stopped)
  {
    TimersOneMore(k, done, c, w);
    LastOneMore(k, done, c, w);
    EntriesOneMore(k, done, c, stopped, w);
    NothingToDrop(k.all[w].clients, c);
    assert Forget(k, done + {w}, c, stopped).all == Forget(k, done, c, stopped).all;
  }

  lemma ForgetPresentHolds(k: Claims, done: set<nat>, c: Client, stopped: set<nat>, w: nat)
    requires w !in done && w in k.all && c in k.all[w].clients
    ensures var t, u, timer := Forget(k, done, c, stopped), Forget(k, done + {w}, c, stopped), k.all[w].clients[c].timer;
            u.holds == if timer.Some? && timer.value in stopped then t.holds - {timer.value} else t.holds
  {
    var timer := k.all[w].clients[c].timer;
    TimersOneMore(k, done, c, w);
    if timer.Some? { HoldsOneMore(k.holds, TimersOf(k, done, c), timer.value, stopped); }
  }

  lemma ForgetPresentTeardowns(k: Claims, done: set<nat>, c: Client, stopped: set<nat>, w: nat)
    requires w !in done && w in k.all && c in k.all[w].clients
    ensures var t, u := Forget(k, done, c, stopped), Forget(k, done + {w}, c, stopped);
            u.teardowns == if k.all[w].clients - {c} == map[] then t.teardowns + multiset{w} else t.teardowns
  {
    LastOneMore(k, done, c, w);
    TeardownsOneMore(k.teardowns, LastOn(k, done, c), w);
  }

  /** Forgetting one workspace more is one more turn of the loop. */
  lemma ForgetOne(k: Claims, done: set<nat>, c: Client, stopped: set<nat>, w: nat)
    requires w !in done && w in k.all
    ensures Forget(k, done + {w}, c, stopped) == ForgetAt(Forget(k, done, c, stopped), w, c, stopped)
  {
    EntriesOneMore(k, done, c, stopped, w);
    if c in k.all[w].clients {
      ForgetPresentHolds(k, done, c, stopped, w);
      ForgetPresentTeardowns(k, done, c, stopped, w);
    } else {
      ForgetAbsent(k, done, c, stopped, w);
    }
  }
}
