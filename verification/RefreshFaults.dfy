/**
Runs with faults. Which retries store a token that is not the current one, over every run; and
when the file falls behind the provider, over every run whose decisions could read it.
*/
module RefreshFaults {
  import opened Common
  import opened Refreshes
  import opened RefreshResults

  ghost predicate Run(first: Token, es: seq<Event>) {
    first.access != "" && After(first, es).Some?
  }

  lemma LastStep(first: Token, es: seq<Event>)
    requires Run(first, es) && es != []
    ensures Run(first, es[..|es| - 1])
    ensures var s := After(first, es[..|es| - 1]).value;
            Enabled(s, es[|es| - 1]) && After(first, es) == Some(Step(s, es[|es| - 1]))
  {
  }

  /* ---- The lock, in every run ---- */

  /** Whoever decided with the file in hand has seen all there is; only a blind decision leads to a retry. */
  ghost predicate Sighted(s: State, p: nat) {
    p in s.processes ==>
      var f := s.processes[p].phase;
      && (Inside(f) <==> s.holder == Some(p))
      && ((f.Ready? || f.Refused?) && p !in s.blind ==> Newer(s.disk, f.entry).None?)
      && (f.Retry? ==> p in s.blind && Newer(s.disk, f.entry) == Some(f.borrowed))
  }

  ghost predicate LockInv(s: State) {
    (s.holder.Some? ==> s.holder.value in s.processes) && forall p :: Sighted(s, p)
  }

  lemma SeenIsAll(disk: Option<Token>, entry: Token)
    requires Newer(disk, entry).Some?
    ensures Newer(disk, Newer(disk, entry).value).None?
  {
  }

  lemma LockStep(s: State, e: Event)
    requires LockInv(s) && Enabled(s, e)
    ensures LockInv(Step(s, e))
  {
    assert Sighted(s, e.p);
    forall q ensures Sighted(Step(s, e), q) {
      assert Sighted(s, q);
      if q == e.p { OwnStep(s, e); } else { OthersStep(s, e, q); }
    }
  }

  lemma OwnStep(s: State, e: Event)
    requires Enabled(s, e) && Sighted(s, e.p) && (s.holder.Some? ==> s.holder.value in s.processes)
    ensures Sighted(Step(s, e), e.p)
  {
    if e.Decide? {
      var d := Newer(s.disk, s.processes[e.p].phase.entry);
      if d.Some? { SeenIsAll(s.disk, s.processes[e.p].phase.entry); }
    }
  }

  lemma OthersStep(s: State, e: Event, q: nat)
    requires Enabled(s, e) && Sighted(s, e.p) && Sighted(s, q) && q != e.p
    ensures Sighted(Step(s, e), q)
  {
  }

  lemma {:induction false} LockInvAlways(first: Token, es: seq<Event>)
    requires Run(first, es)
    ensures LockInv(After(first, es).value)
  {
    if es != [] {
      LastStep(first, es);
      LockInvAlways(first, es[..|es| - 1]);
      LockStep(After(first, es[..|es| - 1]).value, es[|es| - 1]);
    }
  }

  /** Step k is a decision of p. */
  predicate DecidesAt(es: seq<Event>, k: nat, p: nat) {
    k < |es| && es[k].Decide? && es[k].p == p
  }

  /** Among the first n steps the latest decision of p could not read the file. */
  ghost predicate BlindBy(es: seq<Event>, n: nat, p: nat) {
    exists k: nat :: k < n && DecidesAt(es, k, p) && !es[k].readOk && NoneSince(es, k, n, p)
  }

  ghost predicate NoneSince(es: seq<Event>, k: nat, n: nat, p: nat) {
    forall i: nat | k < i < n :: !DecidesAt(es, i, p)
  }

  lemma BlindSplits(es: seq<Event>, p: nat)
    requires es != []
    ensures var m := |es| - 1;
            BlindBy(es, |es|, p) <==> if DecidesAt(es, m, p) then !es[m].readOk else BlindBy(es[..m], m, p)
  {
    var m := |es| - 1;
    assert forall k: nat | k < m :: DecidesAt(es[..m], k, p) <==> DecidesAt(es, k, p);
    forall k: nat | k < m ensures NoneSince(es, k, |es|, p) <==> NoneSince(es[..m], k, m, p) && !DecidesAt(es, m, p) {
      assert forall i: nat | k < i < m :: DecidesAt(es[..m], i, p) <==> DecidesAt(es, i, p);
    }
    assert NoneSince(es, m, |es|, p);
  }

  /** The history variable says what the run shows. */
  lemma {:induction false} BlindIsTrue(first: Token, es: seq<Event>, p: nat)
    requires Run(first, es)
    ensures p in After(first, es).value.blind <==> BlindBy(es, |es|, p)
  {
    if es != [] {
      LastStep(first, es);
      BlindIsTrue(first, es[..|es| - 1], p);
      BlindStep(After(first, es[..|es| - 1]).value, es[|es| - 1], p);
      BlindSplits(es, p);
    }
  }

  lemma BlindStep(s: State, e: Event, p: nat)
    requires Enabled(s, e)
    ensures p in Step(s, e).blind <==> if e.Decide? && e.p == p then !e.readOk else p in s.blind
  {
  }

  /* ---- Retries ---- */

  /**
  Over every run, whatever its faults: after a failed exchange a process retries exactly if its
  decision could not read the file, it now can, and the file's token is newer and expired.
  */
  lemma RetryIff(first: Token, es: seq<Event>, s: State, e: Event)
    requires Run(first, es) && After(first, es) == Some(s) && Enabled(s, e) && e.Recheck?
    ensures Step(s, e).processes[e.p].phase.Retry? <==>
            BlindBy(es, |es|, e.p) && e.readOk && e.expired && Newer(s.disk, s.processes[e.p].phase.entry).Some?
  {
    LockInvAlways(first, es);
    assert Sighted(s, e.p);
    BlindIsTrue(first, es, e.p);
  }

  /**
  Over every run, whatever its faults: a successful exchange leaves its process with a refresh token
  that is not the current one exactly if the provider does not rotate and the exchange is a retry
  of a process that could not read the file when it decided, and whose own refresh token is not
  the file's.
  */
  lemma MergesWrongIff(first: Token, es: seq<Event>, s: State, p: nat, issued: Token)
    requires Run(first, es) && After(first, es) == Some(s) && Enabled(s, Exchange(p, issued))
    ensures var t, f := Step(s, Exchange(p, issued)), s.processes[p].phase;
            t.chain != [] && t.processes[p].phase.Refreshed? &&
            (t.processes[p].phase.token.refresh != Current(t).refresh <==>
               issued.refresh == "" && BlindBy(es, |es|, p) && f.Retry? && s.disk.Some? && f.entry.refresh != s.disk.value.refresh)
  {
    LockInvAlways(first, es);
    assert Sighted(s, p);
    BlindIsTrue(first, es, p);
  }

  lemma RunExtends(first: Token, es: seq<Event>, s: State, e: Event)
    requires After(first, es) == Some(s) && Enabled(s, e)
    ensures After(first, es + [e]) == Some(Step(s, e))
  {
    assert (es + [e])[..|es + [e]| - 1] == es;
  }

  lemma {:induction false} ReachesOn(first: Token, es: seq<Event>, s: State, more: seq<Event>, t: State)
    requires Run(first, es) && After(first, es) == Some(s) && Leads(s, more, t)
    ensures After(first, es + more) == Some(t)
    decreases |more|
  {
    if more == [] {
      assert es + more == es;
    } else {
      RunExtends(first, es, s, more[0]);
      assert (es + [more[0]]) + more[1..] == es + more;
      ReachesOn(first, es + [more[0]], Step(s, more[0]), more[1..], t);
    }
  }

  /** Its exchange is not reached by the provider, and it looks again. */
  function FailAndLook(p: nat): seq<Event> {
    [Unreached(p)] + [Recheck(p, true, true)]
  }

  /**
  A process that rests on a token the provider has rotated away refreshes, and its first exchange
  never reaches the provider. It goes on to retry exactly if its first read failed.
  */
  lemma LooksAgain(s: State, p: nat, entry: Token, readOk: bool) returns (u: State)
    requires Inv(s) && s.holder.None? && Rests(s, p, entry) && entry.refresh != Current(s).refresh
    ensures Leads(s, Enter(p, readOk) + FailAndLook(p), u) && u.chain == s.chain && u.disk == s.disk && u.reused == s.reused
    ensures p in u.processes && (u.processes[p].phase == Retry(entry, Current(s)) <==> !readOk)
    ensures u.processes[p].phase.Retry? <==> !readOk
  {
    assert ProcessInv(s, p);
    CurrentIsNewer(s, entry);
    SeenIsAll(s.disk, entry);
    var s1 := EnterLeads(s, p, readOk, entry);
    var s2 := Step(s1, Unreached(p));
    u := Step(s2, Recheck(p, true, true));
    Once(s2, Recheck(p, true, true), u);
    Then(s1, Unreached(p), s2, [Recheck(p, true, true)], u);
    Joined(s, Enter(p, readOk), s1, FailAndLook(p), u);
  }

  /**
  With a provider that does not rotate this time, the retry succeeds, its token is stored without
  a failed write, and the lock is free again: but the file's refresh token is not the current one.
  */
  lemma RetryStoresTheWrongToken(s: State, p: nat, entry: Token, issued: Token) returns (t: State)
    requires Inv(s) && s.holder.None? && Rests(s, p, entry) && entry.refresh != Current(s).refresh
    requires MayIssue(s, issued) && issued.refresh == ""
    ensures Leads(s, (Enter(p, false) + FailAndLook(p)) + ([Exchange(p, issued)] + Store(p, true)), t)
    ensures t.holder.None? && !t.reused && t.chain != [] && t.disk == Some(Merged(issued, entry))
    ensures t.disk.value.refresh == entry.refresh != Current(t).refresh
  {
    var u := LooksAgain(s, p, entry, false);
    var v := Step(u, Exchange(p, issued));
    t := StoreLeads(v, p, Merged(issued, entry), true);
    Then(u, Exchange(p, issued), v, Store(p, true), t);
    Joined(s, Enter(p, false) + FailAndLook(p), u, [Exchange(p, issued)] + Store(p, true), t);
  }

  /** A reachable state to start from: process 1 has rotated the token that process 0 still holds. */
  lemma StaleProcessIsReachable(first: Token, second: Token) returns (es: seq<Event>, s: State)
    requires first.access != "" && second.access != "" && first.access != second.access && first.expires <= second.expires
    requires second.refresh != "" && first.refresh != second.refresh
    ensures Run(first, es) && After(first, es) == Some(s) && Inv(s) && s.holder.None?
    ensures Rests(s, 0, first) && Current(s) == second && Current(s).refresh != first.refresh
  {
    var s0 := Initial(first);
    assert After(first, []) == Some(s0);
    var s1 := Step(s0, Spawn(0));
    var s2 := Step(s1, Spawn(1));
    Once(s1, Spawn(1), s2);
    Then(s0, Spawn(0), s1, [Spawn(1)], s2);
    ReachesOn(first, [], s0, [Spawn(0)] + [Spawn(1)], s2);
    var a := [] + ([Spawn(0)] + [Spawn(1)]);
    var u := EnterLeads(s2, 1, true, first);
    ReachesOn(first, a, s2, Enter(1, true), u);
    s := StoresLeads(u, 1, second, None);
    es := a + Enter(1, true) + Finish(1, second, None);
    ReachesOn(first, a + Enter(1, true), u, Finish(1, second, None), s);
    InvAlways(first, es);
  }

  /* ---- When the file falls behind ---- */

  /** The file's refresh token has been rotated away. */
  predicate Lagging(s: State) {
    s.chain != [] && s.disk.Some? && s.disk.value.refresh != Current(s).refresh
  }

  /** The provider rotates in this step, whoever learns of it. */
  predicate Rotates(e: Event) {
    (e.Exchange? && e.issued.refresh != "") || (e.ExchangeFails? && e.rotated.Some? && e.rotated.value.refresh != "")
  }

  predicate Stores(e: Event) {
    e.Write? && e.ok
  }

  /** Among the first n steps there was a rotation after which nothing was written. */
  ghost predicate Unstored(es: seq<Event>, n: nat)
    requires n <= |es|
  {
    exists k: nat :: k < n && Rotates(es[k]) && forall i | k < i < n :: !Stores(es[i])
  }

  lemma UnstoredSplits(es: seq<Event>)
    requires es != []
    ensures var m := |es| - 1;
            Unstored(es, |es|) <==> Rotates(es[m]) || (Unstored(es[..m], m) && !Stores(es[m]))
  {
    var m := |es| - 1;
    assert forall k: nat | k < m :: es[..m][k] == es[k];
    if Unstored(es[..m], m) && !Stores(es[m]) {
      var k: nat :| k < m && Rotates(es[..m][k]) && forall i | k < i < m :: !Stores(es[..m][i]);
      assert Rotates(es[k]) && forall i | k < i < |es| :: !Stores(es[i]);
    }
  }

  /** Everything held is a credential of the chain, and what is about to be written is the current one. */
  ghost predicate Holds(s: State, p: nat)
    requires s.chain != []
  {
    p in s.processes ==>
      var f := s.processes[p].phase;
      && (Inside(f) <==> s.holder == Some(p))
      && s.processes[p].memory in s.chain
      && (f.Entered? || f.Locked? || f.Ready? || f.Refused? ==> f.entry in s.chain)
      && (f.Refreshed? || f.Applied? ==> f.token == Current(s))
      && !f.Retry?
  }

  ghost predicate ChainInv(s: State) {
    && Chained(s.chain) && s.disk.Some? && s.disk.value in s.chain
    && (s.holder.Some? ==> s.holder.value in s.processes) && LockInv(s)
    && forall p :: Holds(s, p)
  }

  /** Tokens of the chain with the current refresh token inherit the same from a response without one. */
  lemma GrowKeeps(s: State, t: State, p: nat, issued: Token)
    requires ChainInv(s) && MayIssue(s, issued) && p in s.processes && s.holder == Some(p)
    requires t == s.(chain := s.chain + [Merged(issued, Current(s))], processes := t.processes, reused := t.reused, faults := t.faults)
    requires t.processes.Keys == s.processes.Keys && (forall q | q in s.processes && q != p :: t.processes[q] == s.processes[q])
    requires Holds(t, p) && LockInv(t)
    ensures ChainInv(t)
  {
    ChainGrows(s, issued);
    assert forall x | x in s.chain :: x in t.chain;
    forall q ensures Holds(t, q) { assert Holds(s, q); }
  }

  lemma ChainStep(s: State, e: Event)
    requires ChainInv(s) && Enabled(s, e) && ReadFault !in Step(s, e).faults && s.blind == {}
    ensures ChainInv(Step(s, e)) && Step(s, e).blind == {}
  {
    LockStep(s, e);
    if e.Exchange? {
      ExchangeStep(s, e.p, e.issued);
    } else if e.ExchangeFails? && e.rotated.Some? {
      LostStep(s, e.p, e.rotated.value);
    } else {
      QuietStep(s, e);
    }
  }

  lemma ExchangeStep(s: State, p: nat, issued: Token)
    requires ChainInv(s) && Enabled(s, Exchange(p, issued)) && LockInv(DoExchange(s, p, issued))
    ensures ChainInv(DoExchange(s, p, issued))
  {
    var t := DoExchange(s, p, issued);
    assert Holds(s, p) && Sighted(s, p);
    assert forall x | x in s.chain :: x in t.chain;
    GrowKeeps(s, t, p, issued);
  }

  lemma LostStep(s: State, p: nat, issued: Token)
    requires ChainInv(s) && Enabled(s, ExchangeFails(p, Some(issued))) && LockInv(DoExchangeFails(s, p, Some(issued)))
    ensures ChainInv(DoExchangeFails(s, p, Some(issued)))
  {
    var t := DoExchangeFails(s, p, Some(issued));
    assert Holds(s, p) && Sighted(s, p);
    assert forall x | x in s.chain :: x in t.chain;
    GrowKeeps(s, t, p, issued);
  }

  /** A step that leaves the chain alone, seen from a process that does not take it. */
  lemma OthersHold(s: State, e: Event, q: nat)
    requires s.chain != [] && Enabled(s, e) && Step(s, e).chain == s.chain && Holds(s, e.p) && Holds(s, q) && q != e.p
    ensures Holds(Step(s, e), q)
  {
  }

  lemma LookerHolds(s: State, e: Event)
    requires ChainInv(s) && Enabled(s, e) && s.blind == {} && Step(s, e).blind == {}
    requires e.Decide? || e.Recheck? || e.Unreached? || (e.ExchangeFails? && e.rotated.None?)
    ensures Holds(Step(s, e), e.p)
  {
    assert Holds(s, e.p) && Sighted(s, e.p);
  }

  lemma OutsiderHolds(s: State, e: Event)
    requires ChainInv(s) && Enabled(s, e) && (e.Spawn? || e.Reload? || e.Crash? || e.Begin?)
    ensures Holds(Step(s, e), e.p)
  {
    assert Holds(s, e.p);
  }

  lemma LockerHolds(s: State, e: Event)
    requires ChainInv(s) && Enabled(s, e) && (e.LockFails? || e.Acquire? || e.Release?)
    ensures Holds(Step(s, e), e.p)
  {
    assert Holds(s, e.p);
  }

  lemma StorerHolds(s: State, e: Event)
    requires ChainInv(s) && Enabled(s, e) && (e.Apply? || e.Write?)
    ensures Holds(Step(s, e), e.p)
  {
    assert Holds(s, e.p);
  }

  /** What a step that exchanges nothing leaves of chain, disk and lock. */
  lemma RestStays(s: State, e: Event)
    requires ChainInv(s) && Enabled(s, e) && !e.Exchange? && !(e.ExchangeFails? && e.rotated.Some?)
    requires s.blind == {} && ReadFault !in Step(s, e).faults
    ensures var t := Step(s, e);
            t.chain == s.chain && t.disk.Some? && t.disk.value in t.chain && (t.holder.Some? ==> t.holder.value in t.processes) && t.blind == {}
  {
    assert Holds(s, e.p);
  }

  lemma QuietStep(s: State, e: Event)
    requires ChainInv(s) && Enabled(s, e) && !e.Exchange? && !(e.ExchangeFails? && e.rotated.Some?)
    requires s.blind == {} && ReadFault !in Step(s, e).faults && LockInv(Step(s, e))
    ensures ChainInv(Step(s, e)) && Step(s, e).blind == {}
  {
    RestStays(s, e);
    if e.Decide? || e.Recheck? || e.Unreached? || e.ExchangeFails? {
      LookerHolds(s, e);
    } else if e.LockFails? || e.Acquire? || e.Release? {
      LockerHolds(s, e);
    } else if e.Apply? || e.Write? {
      StorerHolds(s, e);
    } else {
      OutsiderHolds(s, e);
    }
    forall q ensures Holds(Step(s, e), q) {
      assert Holds(s, q) && Holds(s, e.p);
      if q != e.p { OthersHold(s, e, q); }
    }
  }

  lemma LagStep(s: State, e: Event)
    requires ChainInv(s) && Enabled(s, e)
    ensures Lagging(Step(s, e)) <==> Rotates(e) || (Lagging(s) && !Stores(e))
  {
    assert Holds(s, e.p);
  }

  lemma {:induction false} ChainInvAlways(first: Token, es: seq<Event>)
    requires Run(first, es) && ReadFault !in After(first, es).value.faults
    ensures ChainInv(After(first, es).value) && After(first, es).value.blind == {}
    ensures Lagging(After(first, es).value) <==> Unstored(es, |es|)
  {
    if es != [] {
      var s := After(first, es[..|es| - 1]).value;
      LastStep(first, es);
      FaultsStay(s, es[|es| - 1]);
      ChainInvAlways(first, es[..|es| - 1]);
      ChainStep(s, es[|es| - 1]);
      LagStep(s, es[|es| - 1]);
      UnstoredSplits(es);
    } else {
      assert Initial(first).chain[0] == first;
    }
  }

  /**
  Over every run whose decisions could read the file, failed writes, crashes and lost responses
  included: the file's refresh token has been rotated away exactly if nothing was written
  since some rotation.
  */
  lemma FileLagsIff(first: Token, es: seq<Event>, s: State)
    requires Run(first, es) && After(first, es) == Some(s) && ReadFault !in s.faults
    ensures s.chain != [] && s.disk.Some? && (s.disk.value.refresh != Current(s).refresh <==> Unstored(es, |es|))
  {
    ChainInvAlways(first, es);
  }

  /**
  In such a run a process whose own token is the file's or older goes on to present a refresh token
  that was rotated away exactly if nothing was written since some rotation.
  */
  lemma NextReuseIff(first: Token, es: seq<Event>, s: State, p: nat)
    requires Run(first, es) && After(first, es) == Some(s) && ReadFault !in s.faults && Enabled(s, Decide(p, true, true))
    requires s.disk == Some(s.processes[p].phase.entry) || Newer(s.disk, s.processes[p].phase.entry).Some?
    ensures var f := Step(s, Decide(p, true, true)).processes[p].phase;
            f.Ready? && s.chain != [] && (f.entry.refresh != Current(s).refresh <==> Unstored(es, |es|))
  {
    ChainInvAlways(first, es);
  }
}
