/**
Several processes refreshing one OAuth credential through the config file, under the per-provider
refresh lock. The provider rotates refresh tokens (section 6 of RFC 6749) and revokes the family
when one that was rotated away is presented again (section 4.14 of RFC 9700).
*/
module Refreshes {
  import opened Common

  datatype Token = Token(access: string, refresh: string, expires: int)

  /* ---- The decisions ---- */

  /** loadTokenFromDisk. */
  function Stored(disk: Option<Token>): Option<Token> {
    if disk.Some? && disk.value.access == "" then None else disk
  }

  /** newerDiskToken. */
  function Newer(disk: Option<Token>, entry: Token): Option<Token> {
    if Stored(disk).None? then None
    else
      var d := disk.value;
      if d.access == entry.access || (d.refresh == "" && entry.refresh != "") || d.expires < entry.expires
      then None else Some(d)
  }

  /** mergeOAuthTokenMetadata, for the refresh token. */
  function Merged(issued: Token, previous: Token): Token {
    if issued.refresh == "" then issued.(refresh := previous.refresh) else issued
  }

  /* ---- The machine ---- */

  datatype Phase =
    | Idle
    | Entered(entry: Token)
    | Locked(entry: Token)
    | Ready(entry: Token)               // about to exchange
    | Refused(entry: Token)             // the exchange failed
    | Retry(entry: Token, borrowed: Token)
    | Refreshed(token: Token)           // exchanged, in this goroutine only
    | Applied(token: Token)             // in memory, not yet on disk
    | Leaving

  datatype Process = Process(memory: Token, phase: Phase)

  /** The read fault is one where it matters: in the decision under the lock. */
  datatype Fault = ReadFault | WriteFault | LostResponse | CrashFault

  /**
  chain: the credentials the provider issued; the last one is current. blind is a history variable:
  the processes whose latest decision under the lock could not read the file.
  */
  datatype State = State(
    processes: map<nat, Process>,
    disk: Option<Token>,
    holder: Option<nat>,
    chain: seq<Token>,
    reused: bool,                       // a rotated refresh token was presented
    faults: set<Fault>,
    blind: set<nat>)

  function Initial(first: Token): State {
    State(map[], Some(first), None, [first], false, {}, {})
  }

  predicate InPhase(s: State, p: nat, f: Phase) {
    p in s.processes && s.processes[p].phase == f
  }

  function Current(s: State): Token
    requires s.chain != []
  {
    s.chain[|s.chain| - 1]
  }

  /** What the provider may issue next: a new access token, not expiring earlier, and a new refresh token or none. */
  predicate MayIssue(s: State, issued: Token)
    requires s.chain != []
  {
    && issued.access != "" && issued.expires >= Current(s).expires
    && forall t | t in s.chain :: t.access != issued.access && (issued.refresh == "" || t.refresh != issued.refresh)
  }

  /**
  readOk, writeOk: the file could be read, written. expired: IsExpired of the token on disk.
  rotated: the provider issued a credential but its response was lost. Unreached: the exchange
  failed before the provider saw it.
  */
  datatype Event =
    | Spawn(p: nat)
    | Reload(p: nat)
    | Crash(p: nat)
    | Begin(p: nat)
    | LockFails(p: nat, readOk: bool, expired: bool)
    | Acquire(p: nat)
    | Decide(p: nat, readOk: bool, expired: bool)
    | Exchange(p: nat, issued: Token)
    | ExchangeFails(p: nat, rotated: Option<Token>)
    | Unreached(p: nat)
    | Recheck(p: nat, readOk: bool, expired: bool)
    | Apply(p: nat)
    | Write(p: nat, ok: bool)
    | Release(p: nat)

  /** The token whose refresh token process p presents. */
  function Presented(f: Phase): Option<Token> {
    match f
    case Ready(entry) => Some(entry)
    case Retry(_, borrowed) => Some(borrowed)
    case _ => None
  }

  predicate Enabled(s: State, e: Event) {
    match e
    case Spawn(p) => p !in s.processes && Stored(s.disk).Some?
    case Reload(p) => p in s.processes && Stored(s.disk).Some?
    case Crash(p) => p in s.processes
    case Begin(p) => InPhase(s, p, Idle)
    case LockFails(p, _, _) => p in s.processes && s.processes[p].phase.Entered?
    case Acquire(p) => p in s.processes && s.processes[p].phase.Entered? && s.holder.None?
    case Decide(p, _, _) => p in s.processes && s.processes[p].phase.Locked?
    case Exchange(p, issued) =>
      p in s.processes && Presented(s.processes[p].phase).Some? && s.chain != [] && !s.reused &&
      Presented(s.processes[p].phase).value.refresh == Current(s).refresh && MayIssue(s, issued)
    case ExchangeFails(p, rotated) =>
      p in s.processes && Presented(s.processes[p].phase).Some? && s.chain != [] &&
      (rotated.Some? ==> !s.reused && Presented(s.processes[p].phase).value.refresh == Current(s).refresh && MayIssue(s, rotated.value))
    case Unreached(p) => p in s.processes && Presented(s.processes[p].phase).Some?
    case Recheck(p, _, _) => p in s.processes && s.processes[p].phase.Refused?
    case Apply(p) => p in s.processes && s.processes[p].phase.Refreshed?
    case Write(p, _) => p in s.processes && s.processes[p].phase.Applied?
    case Release(p) => InPhase(s, p, Leaving)
  }

  function Goto(s: State, p: nat, f: Phase): State
    requires p in s.processes
  {
    s.(processes := s.processes[p := s.processes[p].(phase := f)])
  }

  function Adopt(s: State, p: nat, t: Token, f: Phase): State {
    s.(processes := s.processes[p := Process(t, f)])
  }

  function Faulty(s: State, f: Fault, happened: bool): State {
    if happened then s.(faults := s.faults + {f}) else s
  }

  /** What p finds newer on disk than entry. */
  function Seen(s: State, entry: Token, readOk: bool): Option<Token> {
    if readOk then Newer(s.disk, entry) else None
  }

  function DoLockFails(s: State, p: nat, readOk: bool, expired: bool): State
    requires p in s.processes && s.processes[p].phase.Entered?
  {
    var d := Seen(s, s.processes[p].phase.entry, readOk);
    if d.Some? && !expired then Adopt(s, p, d.value, Idle) else Goto(s, p, Idle)
  }

  function DoDecide(s: State, p: nat, readOk: bool, expired: bool): State
    requires p in s.processes && s.processes[p].phase.Locked?
  {
    var entry := s.processes[p].phase.entry;
    var d := Seen(s, entry, readOk);
    var t := if d.Some? && !expired then Adopt(s, p, d.value, Leaving)
             else Goto(s, p, Ready(if d.Some? then d.value else entry));
    Faulty(t.(blind := if readOk then s.blind - {p} else s.blind + {p}), ReadFault, !readOk)
  }

  /** The token whose other fields the refreshed one inherits: always the entry, even on a retry. */
  function Inherited(f: Phase): Token
    requires Presented(f).Some?
  {
    f.entry
  }

  function DoExchange(s: State, p: nat, issued: Token): State
    requires Enabled(s, Exchange(p, issued))
  {
    Goto(s.(chain := s.chain + [Merged(issued, Current(s))]), p, Refreshed(Merged(issued, Inherited(s.processes[p].phase))))
  }

  /** The first failure is followed by another look at the disk, the second one is final. */
  function AfterFailure(f: Phase): Phase {
    if f.Ready? then Refused(f.entry) else Leaving
  }

  function DoExchangeFails(s: State, p: nat, rotated: Option<Token>): State
    requires Enabled(s, ExchangeFails(p, rotated))
  {
    var f := s.processes[p].phase;
    var t := Goto(s, p, AfterFailure(f));
    var u := t.(reused := s.reused || Presented(f).value.refresh != Current(s).refresh);
    if rotated.Some? then Faulty(u.(chain := s.chain + [Merged(rotated.value, Current(s))]), LostResponse, true) else u
  }

  function DoRecheck(s: State, p: nat, readOk: bool, expired: bool): State
    requires p in s.processes && s.processes[p].phase.Refused?
  {
    var entry := s.processes[p].phase.entry;
    var d := Seen(s, entry, readOk);
    if d.None? then Goto(s, p, Leaving)
    else if !expired then Adopt(s, p, d.value, Leaving)
    else Goto(s, p, Retry(entry, d.value))
  }

  /** The operating system gives the lock back; what was not written yet is gone. */
  function DoCrash(s: State, p: nat): State
    requires p in s.processes
  {
    var f := s.processes[p].phase;
    Faulty(s.(processes := s.processes - {p}, holder := if s.holder == Some(p) then None else s.holder),
           CrashFault, f.Refreshed? || f.Applied?)
  }

  function Step(s: State, e: Event): State
    requires Enabled(s, e)
  {
    match e
    case Spawn(p) => Adopt(s, p, s.disk.value, Idle)
    case Reload(p) => Adopt(s, p, s.disk.value, s.processes[p].phase)
    case Crash(p) => DoCrash(s, p)
    case Begin(p) => Goto(s, p, Entered(s.processes[p].memory))
    case LockFails(p, readOk, expired) => DoLockFails(s, p, readOk, expired)
    case Acquire(p) => Goto(s.(holder := Some(p)), p, Locked(s.processes[p].phase.entry))
    case Decide(p, readOk, expired) => DoDecide(s, p, readOk, expired)
    case Exchange(p, issued) => DoExchange(s, p, issued)
    case ExchangeFails(p, rotated) => DoExchangeFails(s, p, rotated)
    case Unreached(p) => Goto(s, p, AfterFailure(s.processes[p].phase))
    case Recheck(p, readOk, expired) => DoRecheck(s, p, readOk, expired)
    case Apply(p) => Adopt(s, p, s.processes[p].phase.token, Applied(s.processes[p].phase.token))
    case Write(p, ok) =>
      var token := s.processes[p].phase.token;
      Faulty(Goto(s.(disk := if ok then Some(token) else s.disk), p, Leaving), WriteFault, !ok)
    case Release(p) => Goto(s.(holder := None), p, Idle)
  }

  function After(first: Token, es: seq<Event>): Option<State> {
    if es == [] then Some(Initial(first))
    else
      var prev := After(first, es[..|es| - 1]);
      if prev.Some? && Enabled(prev.value, es[|es| - 1])
      then Some(Step(prev.value, es[|es| - 1])) else None
  }

  ghost predicate Reachable(s: State) {
    exists first: Token, es :: first.access != "" && After(first, es) == Some(s)
  }

  /* ---- The invariant of fault-free runs ---- */

  /** The credentials are told apart by their access tokens, in order of expiry, and keep a refresh token once they have one. */
  ghost predicate Chained(chain: seq<Token>) {
    && chain != []
    && (forall i | 0 <= i < |chain| :: chain[i].access != "")
    && (forall i, j | 0 <= i < j < |chain| ::
          chain[i].access != chain[j].access && chain[i].expires <= chain[j].expires &&
          (chain[i].refresh != "" ==> chain[j].refresh != ""))
  }

  /** p is inside the locked section. */
  predicate Inside(f: Phase) {
    !f.Idle? && !f.Entered?
  }

  ghost predicate ProcessInv(s: State, p: nat)
    requires s.chain != []
  {
    p in s.processes ==>
      var f := s.processes[p].phase;
      && (Inside(f) <==> s.holder == Some(p))
      && s.processes[p].memory in s.chain
      && (f.Entered? || f.Locked? ==> f.entry in s.chain)
      && (f.Ready? || f.Refused? ==> f.entry == Current(s))
      && (f.Refreshed? || f.Applied? ==> f.token == Current(s))
      && !f.Retry?
  }

  /** The current credential is on disk, but for the process that has just obtained it. */
  ghost predicate DiskInv(s: State)
    requires s.chain != []
  {
    && s.disk.Some? && s.disk.value in s.chain
    && (s.holder.Some? ==> s.holder.value in s.processes)
    && (s.disk.value == Current(s) ||
        (s.holder.Some? && var f := s.processes[s.holder.value].phase; f.Refreshed? || f.Applied?))
  }

  ghost predicate Inv(s: State) {
    Chained(s.chain) && !s.reused && DiskInv(s) && forall p :: ProcessInv(s, p)
  }

  /** In a chain the last credential is newer than any other one. */
  lemma CurrentIsNewer(s: State, entry: Token)
    requires Chained(s.chain) && entry in s.chain && s.disk == Some(Current(s))
    ensures Newer(s.disk, entry) == if entry == Current(s) then None else Some(Current(s))
  {
    var i :| 0 <= i < |s.chain| && s.chain[i] == entry;
  }

  lemma ChainGrows(s: State, issued: Token)
    requires Chained(s.chain) && MayIssue(s, issued)
    ensures Chained(s.chain + [Merged(issued, Current(s))])
  {
    var c := s.chain + [Merged(issued, Current(s))];
    forall i, j | 0 <= i < j < |c|
      ensures c[i].access != c[j].access && c[i].expires <= c[j].expires && (c[i].refresh != "" ==> c[j].refresh != "")
    {
      assert c[i] == s.chain[i] && c[i] in s.chain;
    }
  }

  /** Steps outside the lock. */
  lemma OutsideKeeps(s: State, e: Event)
    requires Inv(s) && Enabled(s, e) && Step(s, e).faults == {}
    requires e.Spawn? || e.Reload? || e.Begin? || e.LockFails? || e.Acquire?
    ensures Inv(Step(s, e))
  {
    forall p ensures ProcessInv(Step(s, e), p) { assert ProcessInv(s, p); }
  }

  lemma CrashKeeps(s: State, p: nat)
    requires Inv(s) && p in s.processes && DoCrash(s, p).faults == {}
    ensures Inv(DoCrash(s, p))
  {
    forall q ensures ProcessInv(DoCrash(s, p), q) { assert ProcessInv(s, q); }
    assert ProcessInv(s, p);
  }

  lemma DecideKeeps(s: State, p: nat, readOk: bool, expired: bool)
    requires Inv(s) && Enabled(s, Decide(p, readOk, expired)) && DoDecide(s, p, readOk, expired).faults == {}
    ensures Inv(DoDecide(s, p, readOk, expired))
  {
    assert ProcessInv(s, p);
    CurrentIsNewer(s, s.processes[p].phase.entry);
    forall q ensures ProcessInv(DoDecide(s, p, readOk, expired), q) { assert ProcessInv(s, q); }
  }

  lemma ExchangeKeeps(s: State, p: nat, issued: Token)
    requires Inv(s) && Enabled(s, Exchange(p, issued))
    ensures Inv(DoExchange(s, p, issued))
  {
    var t := DoExchange(s, p, issued);
    ChainGrows(s, issued);
    assert ProcessInv(s, p);
    assert forall x | x in s.chain :: x in t.chain;
    forall q ensures ProcessInv(t, q) { assert ProcessInv(s, q); }
  }

  lemma FailureKeeps(s: State, p: nat, rotated: Option<Token>)
    requires Inv(s) && Enabled(s, ExchangeFails(p, rotated)) && DoExchangeFails(s, p, rotated).faults == {}
    ensures Inv(DoExchangeFails(s, p, rotated))
  {
    assert ProcessInv(s, p);
    forall q ensures ProcessInv(DoExchangeFails(s, p, rotated), q) { assert ProcessInv(s, q); }
  }

  lemma UnreachedKeeps(s: State, p: nat)
    requires Inv(s) && Enabled(s, Unreached(p))
    ensures Inv(Step(s, Unreached(p)))
  {
    assert ProcessInv(s, p);
    forall q ensures ProcessInv(Step(s, Unreached(p)), q) { assert ProcessInv(s, q); }
  }

  /** While the lock is held the disk does not change, so the second look finds nothing new. */
  lemma RecheckKeeps(s: State, p: nat, readOk: bool, expired: bool)
    requires Inv(s) && Enabled(s, Recheck(p, readOk, expired)) && DoRecheck(s, p, readOk, expired).faults == {}
    ensures Inv(DoRecheck(s, p, readOk, expired)) && DoRecheck(s, p, readOk, expired) == Goto(s, p, Leaving)
  {
    assert ProcessInv(s, p);
    CurrentIsNewer(s, s.processes[p].phase.entry);
    forall q ensures ProcessInv(DoRecheck(s, p, readOk, expired), q) { assert ProcessInv(s, q); }
  }

  lemma StoreKeeps(s: State, e: Event)
    requires Inv(s) && Enabled(s, e) && Step(s, e).faults == {} && (e.Apply? || e.Write? || e.Release?)
    ensures Inv(Step(s, e))
  {
    assert ProcessInv(s, e.p);
    forall q ensures ProcessInv(Step(s, e), q) { assert ProcessInv(s, q); }
  }

  lemma StepKeeps(s: State, e: Event)
    requires Inv(s) && Enabled(s, e) && Step(s, e).faults == {}
    ensures Inv(Step(s, e))
  {
    match e
    case Crash(p) => CrashKeeps(s, p);
    case Decide(p, readOk, expired) => DecideKeeps(s, p, readOk, expired);
    case Exchange(p, issued) => ExchangeKeeps(s, p, issued);
    case ExchangeFails(p, rotated) => FailureKeeps(s, p, rotated);
    case Unreached(p) => UnreachedKeeps(s, p);
    case Recheck(p, readOk, expired) => RecheckKeeps(s, p, readOk, expired);
    case Apply(_) => StoreKeeps(s, e);
    case Write(_, _) => StoreKeeps(s, e);
    case Release(_) => StoreKeeps(s, e);
    case _ => OutsideKeeps(s, e);
  }

  /** Faults are not forgotten. */
  lemma FaultsStay(s: State, e: Event)
    requires Enabled(s, e)
    ensures s.faults <= Step(s, e).faults
  {
  }

  lemma {:induction false} InvAlways(first: Token, es: seq<Event>)
    requires first.access != "" && After(first, es).Some? && After(first, es).value.faults == {}
    ensures Inv(After(first, es).value)
  {
    if es != [] {
      var s := After(first, es[..|es| - 1]).value;
      FaultsStay(s, es[|es| - 1]);
      InvAlways(first, es[..|es| - 1]);
      StepKeeps(s, es[|es| - 1]);
    } else {
      assert Initial(first).chain[0] == first;
    }
  }
}
