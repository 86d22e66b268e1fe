/** When no refresh token is reused, and which single faults make the next process reuse one. */
module RefreshResults {
  import opened Common
  import opened Refreshes

  /**
  In a run without faults no exchange presents a rotated refresh token; while the lock is free
  the token on disk is the provider's current one, and every process holds one it was issued.
  */
  lemma NoReuse(first: Token, es: seq<Event>)
    requires first.access != "" && After(first, es).Some? && After(first, es).value.faults == {}
    ensures var s := After(first, es).value;
            && !s.reused && s.chain != [] && (s.holder.None? ==> s.disk == Some(Current(s)))
            && forall p | p in s.processes :: s.processes[p].memory in s.chain
  {
    InvAlways(first, es);
    var s := After(first, es).value;
    forall p | p in s.processes ensures s.processes[p].memory in s.chain { assert ProcessInv(s, p); }
  }

  /** Whatever is presented in such a run is the current refresh token; borrowing one for a retry never happens. */
  lemma PresentsTheCurrent(first: Token, es: seq<Event>, p: nat)
    requires first.access != "" && After(first, es).Some? && After(first, es).value.faults == {}
    requires p in After(first, es).value.processes
    ensures var s := After(first, es).value; var f := s.processes[p].phase;
            !f.Retry? && s.chain != [] && (Presented(f).Some? ==> Presented(f).value == Current(s))
  {
    InvAlways(first, es);
    assert ProcessInv(After(first, es).value, p);
  }

  /** A process that exchanged or adopted a token leaves the lock with the current one in memory. */
  lemma LeavesWithTheCurrent(s: State, e: Event)
    requires Inv(s) && Enabled(s, e) && Step(s, e).faults == {}
    requires (e.Decide? && Step(s, e).processes[e.p].phase.Leaving?) || e.Write?
    requires e.Write? ==> s.processes[e.p].memory == s.processes[e.p].phase.token
    ensures Step(s, e).processes[e.p].memory == Current(Step(s, e)) && Step(s, e).disk == Some(Current(Step(s, e)))
  {
    assert ProcessInv(s, e.p);
    if e.Decide? { CurrentIsNewer(s, s.processes[e.p].phase.entry); }
  }

  /* ---- One fault ---- */

  function From(s: State, es: seq<Event>): Option<State>
    decreases |es|
  {
    if es == [] then Some(s)
    else if Enabled(s, es[0]) then From(Step(s, es[0]), es[1..]) else None
  }

  /** es is a run from s to t. */
  ghost predicate Leads(s: State, es: seq<Event>, t: State) {
    From(s, es) == Some(t)
  }

  lemma Then(s: State, e: Event, u: State, es: seq<Event>, t: State)
    requires Enabled(s, e) && Step(s, e) == u && Leads(u, es, t)
    ensures Leads(s, [e] + es, t)
  {
    assert ([e] + es)[1..] == es;
  }

  lemma Once(s: State, e: Event, t: State)
    requires Enabled(s, e) && Step(s, e) == t
    ensures Leads(s, [e], t)
  {
    assert Leads(t, [], t);
    Then(s, e, t, [], t);
    assert [e] + [] == [e];
  }

  lemma {:induction false} Joined(s: State, a: seq<Event>, t: State, b: seq<Event>, u: State)
    requires Leads(s, a, t) && Leads(t, b, u)
    ensures Leads(s, a + b, u)
    decreases |a|
  {
    if a == [] {
      assert a + b == b;
    } else {
      assert (a + b)[1..] == a[1..] + b;
      Joined(Step(s, a[0]), a[1..], t, b, u);
    }
  }

  /** A process gets the lock and decides what to present. */
  function Enter(p: nat, readOk: bool): seq<Event> {
    [Begin(p)] + ([Acquire(p)] + [Decide(p, readOk, true)])
  }

  /** How its exchange may go; None and a read fault concern no step of this process. */
  function Finish(p: nat, issued: Token, fault: Option<Fault>): seq<Event> {
    match fault
    case Some(LostResponse) => [ExchangeFails(p, Some(issued))] + ([Recheck(p, true, true)] + [Release(p)])
    case Some(CrashFault) => [Exchange(p, issued)] + [Crash(p)]
    case _ => [Exchange(p, issued)] + ([Apply(p)] + ([Write(p, fault != Some(WriteFault))] + [Release(p)]))
  }

  /** p is idle, and holds the token that was current in s. */
  predicate Rests(s: State, p: nat, token: Token) {
    p in s.processes && s.processes[p] == Process(token, Idle)
  }

  lemma EnterLeads(s: State, p: nat, readOk: bool, token: Token) returns (t: State)
    requires s.holder.None? && Rests(s, p, token)
    ensures Leads(s, Enter(p, readOk), t)
    ensures t.chain == s.chain && t.disk == s.disk && t.reused == s.reused && t.holder == Some(p)
    ensures readOk ==> t.faults == s.faults
    ensures t.blind == if readOk then s.blind - {p} else s.blind + {p}
    ensures var d := Seen(s, token, readOk);
            t.processes == s.processes[p := Process(token, Ready(if d.Some? then d.value else token))]
  {
    var s1 := Step(s, Begin(p));
    var s2 := Step(s1, Acquire(p));
    t := Step(s2, Decide(p, readOk, true));
    Once(s2, Decide(p, readOk, true), t);
    Then(s1, Acquire(p), s2, [Decide(p, readOk, true)], t);
    Then(s, Begin(p), s1, [Acquire(p)] + [Decide(p, readOk, true)], t);
  }

  /** What the outcome of p's exchange leaves for the others. */
  ghost predicate LeftBy(s: State, t: State, p: nat, issued: Token, fault: Option<Fault>)
    requires s.chain != []
  {
    && t.holder.None? && !t.reused && t.chain == s.chain + [Merged(issued, Current(s))]
    && t.disk == (if fault in {None, Some(ReadFault)} then Some(Merged(issued, Current(s))) else s.disk)
    && (fault.None? ==> t.faults == s.faults)
    && forall q | q in s.processes && q != p :: q in t.processes && t.processes[q] == s.processes[q]
  }

  lemma StoresLeads(s: State, p: nat, issued: Token, fault: Option<Fault>) returns (t: State)
    requires s.chain != [] && !s.reused && MayIssue(s, issued) && s.holder == Some(p)
    requires p in s.processes && s.processes[p].phase == Ready(Current(s))
    requires fault in {None, Some(ReadFault), Some(WriteFault)}
    ensures Leads(s, Finish(p, issued, fault), t) && LeftBy(s, t, p, issued, fault)
  {
    var ok := fault != Some(WriteFault);
    var token := Merged(issued, Current(s));
    var s1 := Step(s, Exchange(p, issued));
    t := StoreLeads(s1, p, token, ok);
    Then(s, Exchange(p, issued), s1, Store(p, ok), t);
  }

  /** What follows a successful exchange. */
  function Store(p: nat, ok: bool): seq<Event> {
    [Apply(p)] + ([Write(p, ok)] + [Release(p)])
  }

  lemma StoreLeads(s: State, p: nat, token: Token, ok: bool) returns (t: State)
    requires p in s.processes && s.processes[p].phase == Refreshed(token)
    ensures Leads(s, Store(p, ok), t)
    ensures t.holder.None? && t.reused == s.reused && t.chain == s.chain && (ok ==> t.faults == s.faults)
    ensures t.disk == (if ok then Some(token) else s.disk) && t.processes == s.processes[p := Process(token, Idle)]
  {
    var s1 := Step(s, Apply(p));
    var s2 := Step(s1, Write(p, ok));
    t := Step(s2, Release(p));
    Once(s2, Release(p), t);
    Then(s1, Write(p, ok), s2, [Release(p)], t);
    Then(s, Apply(p), s1, [Write(p, ok)] + [Release(p)], t);
  }

  lemma CrashLeads(s: State, p: nat, issued: Token) returns (t: State)
    requires s.chain != [] && !s.reused && MayIssue(s, issued) && s.holder == Some(p)
    requires p in s.processes && s.processes[p].phase == Ready(Current(s))
    ensures Leads(s, Finish(p, issued, Some(CrashFault)), t) && LeftBy(s, t, p, issued, Some(CrashFault))
  {
    var s1 := Step(s, Exchange(p, issued));
    t := Step(s1, Crash(p));
    Once(s1, Crash(p), t);
    Then(s, Exchange(p, issued), s1, [Crash(p)], t);
  }

  lemma LossLeads(s: State, p: nat, issued: Token) returns (t: State)
    requires s.chain != [] && !s.reused && MayIssue(s, issued) && s.holder == Some(p) && s.disk == Some(Current(s))
    requires p in s.processes && s.processes[p].phase == Ready(Current(s))
    ensures Leads(s, Finish(p, issued, Some(LostResponse)), t) && LeftBy(s, t, p, issued, Some(LostResponse))
  {
    var s1 := Step(s, ExchangeFails(p, Some(issued)));
    assert Newer(s1.disk, Current(s)) == None;
    var s2 := Step(s1, Recheck(p, true, true));
    t := Step(s2, Release(p));
    Once(s2, Release(p), t);
    Then(s1, Recheck(p, true, true), s2, [Release(p)], t);
    Then(s, ExchangeFails(p, Some(issued)), s1, [Recheck(p, true, true)] + [Release(p)], t);
  }

  /**
  p refreshes, then q, which still holds the token p started with. q presents the current refresh
  token exactly if nothing went wrong or the provider did not rotate. A write that fails, a crash
  before it, a response that is lost, or q's failure to read the file, each alone makes q present
  a rotated one: newerDiskToken reports a file it cannot read like one without a newer token.
  */
  lemma OneFaultReuses(s: State, p: nat, q: nat, issued: Token, fault: Option<Fault>) returns (t: State)
    requires Inv(s) && s.holder.None? && p != q && Rests(s, p, Current(s)) && Rests(s, q, Current(s)) && MayIssue(s, issued)
    requires Current(s).refresh != ""
    ensures Leads(s, Enter(p, true) + (Finish(p, issued, fault) + Enter(q, fault != Some(ReadFault))), t)
    ensures q in t.processes && t.processes[q].phase.Ready? && t.chain != []
    ensures t.processes[q].phase.entry.refresh == Current(t).refresh <==> fault.None? || issued.refresh == ""
  {
    var token := Current(s);
    var u := EnterLeads(s, p, true, token);
    var v;
    match fault {
      case Some(CrashFault) => v := CrashLeads(u, p, issued);
      case Some(LostResponse) => v := LossLeads(u, p, issued);
      case _ => v := StoresLeads(u, p, issued, fault);
    }
    t := EnterLeads(v, q, fault != Some(ReadFault), token);
    Joined(u, Finish(p, issued, fault), v, Enter(q, fault != Some(ReadFault)), t);
    Joined(s, Enter(p, true), u, Finish(p, issued, fault) + Enter(q, fault != Some(ReadFault)), t);
    assert token in s.chain;
  }
}
