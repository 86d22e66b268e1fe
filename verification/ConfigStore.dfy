/** One process's refresh, statement by statement, and the run of the machine that it is. */
module ConfigStores {
  import opened Common
  import opened Refreshes
  import opened RefreshResults

  datatype Outcome = NoToken | LockUnavailable | Adopted | ExchangeFailed | NotPersisted | Persisted

  /** What becomes of an exchange; Failed: the provider saw it, and may have rotated although no response came. */
  datatype Answer = Issued(token: Token) | Failed(rotated: Option<Token>) | Missing

  /** What the world answers, in the order in which it is asked. */
  datatype World = World(
    locked: bool,
    firstRead: bool, firstExpired: bool, firstExchange: Answer,
    secondRead: bool, secondExpired: bool, secondExchange: Answer,
    written: bool)

  /** What a refresh leaves, and the refresh tokens it presented. */
  datatype Effect = Effect(outcome: Outcome, memory: Token, disk: Option<Token>, presented: seq<string>)

  function Read(disk: Option<Token>, entry: Token, ok: bool): Option<Token> {
    if ok then Newer(disk, entry) else None
  }

  /** The token whose refresh token is presented first. */
  function Used(entry: Token, disk: Option<Token>, w: World): Token {
    var d := Read(disk, entry, w.firstRead);
    if d.Some? then d.value else entry
  }

  function Saved(token: Token, disk: Option<Token>, written: bool, presented: seq<string>): Effect {
    if written then Effect(Persisted, token, Some(token), presented) else Effect(NotPersisted, token, disk, presented)
  }

  /** After the first exchange failed. */
  function SecondTry(entry: Token, disk: Option<Token>, w: World): Effect {
    var used := Used(entry, disk, w);
    var d := Read(disk, used, w.secondRead);
    if d.None? then Effect(ExchangeFailed, entry, disk, [used.refresh])
    else if !w.secondExpired then Effect(Adopted, d.value, disk, [used.refresh])
    else if !w.secondExchange.Issued? then Effect(ExchangeFailed, entry, disk, [used.refresh, d.value.refresh])
    else Saved(Merged(w.secondExchange.token, used), disk, w.written, [used.refresh, d.value.refresh])
  }

  function Refreshing(entry: Token, disk: Option<Token>, w: World): Effect {
    var d := Read(disk, entry, w.firstRead);
    if d.Some? && !w.firstExpired then Effect(Adopted, d.value, disk, [])
    else if !w.locked then Effect(LockUnavailable, entry, disk, [])
    else if w.firstExchange.Issued?
    then Saved(Merged(w.firstExchange.token, Used(entry, disk, w)), disk, w.written, [Used(entry, disk, w).refresh])
    else SecondTry(entry, disk, w)
  }

  class ConfigStore {
    /** The provider's entry in memory: its OAuth token and the API key made from it. */
    var memory: Option<Token>
    var apiKey: string
    /** The provider's oauth field in the config file. */
    var disk: Option<Token>
    /** The refresh tokens this process has presented. */
    var presented: seq<string>

    constructor (memory: Option<Token>, disk: Option<Token>)
      ensures this.memory == memory && this.disk == disk && presented == []
    {
      this.memory, this.disk, presented := memory, disk, [];
      apiKey := if memory.Some? then memory.value.access else "";
    }

    method ApplyToken(t: Token)
      modifies this`memory, this`apiKey
      ensures memory == Some(t) && apiKey == t.access
    {
      memory, apiKey := Some(t), t.access;
    }

    method NewerDiskToken(entry: Token, readOk: bool) returns (d: Option<Token>)
      ensures d == Read(disk, entry, readOk) && (d.Some? ==> d == disk)
      ensures d.Some? <==>
                && readOk && disk.Some? && disk.value.access != "" && disk.value.access != entry.access
                && (disk.value.refresh != "" || entry.refresh == "") && disk.value.expires >= entry.expires
    {
      if !readOk || disk == None {
        return None;
      }
      var t := disk.value;
      if t.access == "" || t.access == entry.access {
        return None;
      }
      if t.refresh == "" && entry.refresh != "" {
        return None;
      }
      if t.expires < entry.expires {
        return None;
      }
      return Some(t);
    }

    /**
    refreshOAuthTokenLocked. When the first read succeeded, the second look never leads to a
    second exchange.
    */
    method RefreshOAuthTokenLocked(w: World) returns (r: Outcome)
      modifies this
      ensures old(memory).None? ==> r == NoToken && memory.None? && disk == old(disk) && presented == old(presented)
      ensures old(memory).Some? ==>
                var e := Refreshing(old(memory).value, old(disk), w);
                && r == e.outcome && memory == Some(e.memory) && disk == e.disk && presented == old(presented) + e.presented
                && (r in {Adopted, Persisted, NotPersisted} ==> apiKey == e.memory.access)
                && (w.firstRead ==> |e.presented| <= 1)
    {
      if memory == None {
        return NoToken;
      }
      var entry := memory.value;
      var d := NewerDiskToken(entry, w.firstRead);
      if !w.locked {
        if d.Some? && !w.firstExpired {
          ApplyToken(d.value);
          return Adopted;
        }
        return LockUnavailable;
      }
      if d.Some? {
        if !w.firstExpired {
          ApplyToken(d.value);
          return Adopted;
        }
        entry := d.value;
      }
      presented := presented + [entry.refresh];
      var refreshed := w.firstExchange;
      if !refreshed.Issued? {
        d := NewerDiskToken(entry, w.secondRead);
        if d.Some? {
          if !w.secondExpired {
            ApplyToken(d.value);
            return Adopted;
          }
          presented := presented + [d.value.refresh];
          refreshed := w.secondExchange;
        }
      }
      if !refreshed.Issued? {
        return ExchangeFailed;
      }
      var token := refreshed.token;
      if token.refresh == "" {
        token := token.(refresh := entry.refresh);
      }
      ApplyToken(token);
      if !w.written {
        return NotPersisted;
      }
      disk := Some(token);
      return Persisted;
    }
  }

  /* ---- The same refresh as a run of the machine ---- */

  /** The exchange of process p that is answered so. */
  function Asking(p: nat, a: Answer): Event {
    match a
    case Issued(token) => Exchange(p, token)
    case Failed(rotated) => ExchangeFails(p, rotated)
    case Missing => Unreached(p)
  }

  /** The steps of process p when the world answers w. */
  function Script(p: nat, entry: Token, disk: Option<Token>, w: World): seq<Event> {
    if !w.locked then [LockFails(p, w.firstRead, w.firstExpired)]
    else [Acquire(p)] + ([Decide(p, w.firstRead, w.firstExpired)] + AfterDecision(p, entry, disk, w))
  }

  function AfterDecision(p: nat, entry: Token, disk: Option<Token>, w: World): seq<Event> {
    if Read(disk, entry, w.firstRead).Some? && !w.firstExpired then [Release(p)]
    else [Asking(p, w.firstExchange)] +
         (if w.firstExchange.Issued? then Store(p, w.written)
          else [Recheck(p, w.secondRead, w.secondExpired)] + AfterRecheck(p, entry, disk, w))
  }

  function AfterRecheck(p: nat, entry: Token, disk: Option<Token>, w: World): seq<Event> {
    if Read(disk, Used(entry, disk, w), w.secondRead).None? || !w.secondExpired then [Release(p)]
    else [Asking(p, w.secondExchange)] + (if w.secondExchange.Issued? then Store(p, w.written) else [Release(p)])
  }

  predicate Asks(e: Event, p: nat) {
    (e.Exchange? || e.ExchangeFails? || e.Unreached?) && e.p == p
  }

  /** The refresh tokens that p presents in a run from s. */
  function PresentedBy(s: State, p: nat, es: seq<Event>): seq<string>
    requires From(s, es).Some?
    decreases |es|
  {
    if es == [] then []
    else (if Asks(es[0], p) then [Presented(s.processes[p].phase).value.refresh] else []) +
         PresentedBy(Step(s, es[0]), p, es[1..])
  }

  /** Run from s, es ends with the memory and the file of the effect, and presents these tokens. */
  predicate Agrees(s: State, p: nat, es: seq<Event>, e: Effect, presented: seq<string>) {
    From(s, es).Some? ==>
      var t := From(s, es).value;
      && p in t.processes && t.processes[p].memory == e.memory && t.disk == e.disk && PresentedBy(s, p, es) == presented
  }

  /** One step more in front. */
  lemma AgreesFrom(s: State, p: nat, e: Event, rest: seq<Event>, f: Effect, presented: seq<string>)
    requires Enabled(s, e) ==> Agrees(Step(s, e), p, rest, f, presented)
    ensures Enabled(s, e) && Asks(e, p) ==> Agrees(s, p, [e] + rest, f, [Presented(s.processes[p].phase).value.refresh] + presented)
    ensures !Asks(e, p) ==> Agrees(s, p, [e] + rest, f, presented)
  {
    assert ([e] + rest)[1..] == rest;
    assert From(s, [e] + rest).Some? ==> Enabled(s, e);
    assert [] + presented == presented;
  }

  lemma AgreesAtEnd(s: State, p: nat, e: Event, f: Effect)
    requires !Asks(e, p)
    requires Enabled(s, e) ==>
               p in Step(s, e).processes && Step(s, e).processes[p].memory == f.memory && Step(s, e).disk == f.disk
    ensures Agrees(s, p, [e], f, [])
  {
    assert [e] + [] == [e];
    AgreesFrom(s, p, e, [], f, []);
  }

  lemma StoreAgrees(s: State, p: nat, written: bool, presented: seq<string>)
    requires p in s.processes && s.processes[p].phase.Refreshed?
    ensures Agrees(s, p, Store(p, written), Saved(s.processes[p].phase.token, s.disk, written, presented), [])
  {
    var f := Saved(s.processes[p].phase.token, s.disk, written, presented);
    var u := Step(s, Apply(p));
    AgreesAtEnd(Step(u, Write(p, written)), p, Release(p), f);
    AgreesFrom(u, p, Write(p, written), [Release(p)], f, []);
    AgreesFrom(s, p, Apply(p), [Write(p, written)] + [Release(p)], f, []);
  }

  lemma RecheckAgrees(s: State, p: nat, entry: Token, w: World)
    requires p in s.processes && s.processes[p].memory == entry && w.locked && !w.firstExchange.Issued?
    requires !(Read(s.disk, entry, w.firstRead).Some? && !w.firstExpired) && s.processes[p].phase == Refused(Used(entry, s.disk, w))
    ensures var f := SecondTry(entry, s.disk, w);
            Agrees(s, p, [Recheck(p, w.secondRead, w.secondExpired)] + AfterRecheck(p, entry, s.disk, w), f, f.presented[1..])
  {
    var used, f, a := Used(entry, s.disk, w), SecondTry(entry, s.disk, w), w.secondExchange;
    var d := Read(s.disk, used, w.secondRead);
    var u := Step(s, Recheck(p, w.secondRead, w.secondExpired));
    if d.None? || !w.secondExpired {
      AgreesAtEnd(u, p, Release(p), f);
    } else {
      assert f.presented[1..] == [d.value.refresh] && [d.value.refresh] + [] == [d.value.refresh];
      if Enabled(u, Asking(p, a)) {
        var v := Step(u, Asking(p, a));
        if a.Issued? { StoreAgrees(v, p, w.written, f.presented); } else { AgreesAtEnd(v, p, Release(p), f); }
      }
      AgreesFrom(u, p, Asking(p, a), if a.Issued? then Store(p, w.written) else [Release(p)], f, []);
    }
    AgreesFrom(s, p, Recheck(p, w.secondRead, w.secondExpired), AfterRecheck(p, entry, s.disk, w), f, f.presented[1..]);
  }

  /** From the first exchange on. */
  lemma AskingAgrees(s: State, p: nat, entry: Token, w: World)
    requires p in s.processes && s.processes[p].memory == entry && w.locked
    requires !(Read(s.disk, entry, w.firstRead).Some? && !w.firstExpired) && s.processes[p].phase == Ready(Used(entry, s.disk, w))
    ensures var f := Refreshing(entry, s.disk, w);
            Agrees(s, p, AfterDecision(p, entry, s.disk, w), f, f.presented)
  {
    var f, a := Refreshing(entry, s.disk, w), w.firstExchange;
    var rest := if a.Issued? then Store(p, w.written)
                else [Recheck(p, w.secondRead, w.secondExpired)] + AfterRecheck(p, entry, s.disk, w);
    assert f.presented == [Used(entry, s.disk, w).refresh] + f.presented[1..];
    if Enabled(s, Asking(p, a)) {
      var v := Step(s, Asking(p, a));
      if a.Issued? { StoreAgrees(v, p, w.written, f.presented); } else { RecheckAgrees(v, p, entry, w); }
    }
    AgreesFrom(s, p, Asking(p, a), rest, f, f.presented[1..]);
  }

  lemma DecisionAgrees(s: State, p: nat, entry: Token, w: World)
    requires p in s.processes && s.processes[p].memory == entry && s.processes[p].phase == Locked(entry) && w.locked
    ensures var f := Refreshing(entry, s.disk, w);
            Agrees(s, p, [Decide(p, w.firstRead, w.firstExpired)] + AfterDecision(p, entry, s.disk, w), f, f.presented)
  {
    var f := Refreshing(entry, s.disk, w);
    var u := Step(s, Decide(p, w.firstRead, w.firstExpired));
    if Read(s.disk, entry, w.firstRead).Some? && !w.firstExpired {
      AgreesAtEnd(u, p, Release(p), f);
    } else {
      AskingAgrees(u, p, entry, w);
    }
    AgreesFrom(s, p, Decide(p, w.firstRead, w.firstExpired), AfterDecision(p, entry, s.disk, w), f, f.presented);
  }

  /**
  The method is a run of the machine: whenever process p can take the steps that the world's answers
  lead it through, it ends with the memory and the file that the method leaves, and the refresh
  tokens it presents on the way are those that the method presents.
  */
  lemma MethodIsARun(s: State, p: nat, entry: Token, w: World)
    requires Rests(s, p, entry) && From(s, [Begin(p)] + Script(p, entry, s.disk, w)).Some?
    ensures var e, es := Refreshing(entry, s.disk, w), [Begin(p)] + Script(p, entry, s.disk, w);
            var t := From(s, es).value;
            && p in t.processes && t.processes[p].memory == e.memory && t.disk == e.disk && PresentedBy(s, p, es) == e.presented
  {
    var f := Refreshing(entry, s.disk, w);
    var u := Step(s, Begin(p));
    if !w.locked {
      AgreesAtEnd(u, p, LockFails(p, w.firstRead, w.firstExpired), f);
    } else {
      DecisionAgrees(Step(u, Acquire(p)), p, entry, w);
      AgreesFrom(u, p, Acquire(p), [Decide(p, w.firstRead, w.firstExpired)] + AfterDecision(p, entry, s.disk, w), f, f.presented);
    }
    AgreesFrom(s, p, Begin(p), Script(p, entry, s.disk, w), f, f.presented);
  }

  /**
  In a state that faults have not touched, a refresh that gets the lock and does not adopt the token
  on disk presents the provider's current refresh token exactly if it could read the file or its own
  token is that one; and having read the file it presents nothing else.
  */
  lemma PresentsTheCurrentIff(s: State, p: nat, entry: Token, w: World)
    requires Inv(s) && Rests(s, p, entry) && From(s, [Begin(p)] + Script(p, entry, s.disk, w)).Some?
    ensures var shown := PresentedBy(s, p, [Begin(p)] + Script(p, entry, s.disk, w));
            && (shown != [] ==> w.locked && (shown[0] == Current(s).refresh <==> w.firstRead || entry.refresh == Current(s).refresh))
            && (w.firstRead ==> forall x | x in shown :: x == Current(s).refresh)
            && (shown != [] <==> w.locked && (w.firstRead && entry != Current(s) ==> w.firstExpired))
  {
    MethodIsARun(s, p, entry, w);
    assert ProcessInv(s, p);
    if w.locked {
      var u := Step(s, Begin(p));
      assert ([Begin(p)] + Script(p, entry, s.disk, w))[1..] == Script(p, entry, s.disk, w);
      assert Enabled(u, Script(p, entry, s.disk, w)[0]);
      CurrentIsNewer(s, entry);
      CurrentIsNewer(s, Current(s));
    }
  }

  /**
  A process that was overtaken: its token is not the current one, which is on disk. If it reads that
  one while it is not expired, it takes it over and presents nothing, with the lock or without; if it
  could read only after its own exchange had failed, it takes it over then.
  */
  lemma OvertakenAdopts(s: State, entry: Token, w: World)
    requires Chained(s.chain) && entry in s.chain && entry != Current(s) && s.disk == Some(Current(s))
    ensures var e := Refreshing(entry, s.disk, w);
            && (w.firstRead && !w.firstExpired ==> e == Effect(Adopted, Current(s), s.disk, []))
            && (!w.firstRead && w.locked && !w.firstExchange.Issued? && w.secondRead && !w.secondExpired ==>
                  e == Effect(Adopted, Current(s), s.disk, [entry.refresh]))
            && (!w.firstRead && w.locked && !w.firstExchange.Issued? && w.secondRead && w.secondExpired ==>
                  e.presented == [entry.refresh, Current(s).refresh])
            && (w.locked && w.firstExchange.Issued? && (w.firstRead ==> w.firstExpired) ==>
                  e.memory == if w.firstExchange.token.refresh != "" then w.firstExchange.token
                              else w.firstExchange.token.(refresh := if w.firstRead then Current(s).refresh else entry.refresh))
  {
    CurrentIsNewer(s, entry);
  }

  /** A write that worked is among the steps, one that did not. */
  function WritesIn(es: seq<Event>): set<bool> {
    set e | e in es && e.Write? :: e.ok
  }

  lemma WritesJoin(e: Event, rest: seq<Event>)
    ensures WritesIn([e] + rest) == WritesIn(rest) + if e.Write? then {e.ok} else {}
  {
    assert forall x | x in [e] + rest :: x == e || x in rest;
    assert e in [e] + rest && forall x | x in rest :: x in [e] + rest;
  }

  lemma StoreWrites(p: nat, ok: bool)
    ensures WritesIn(Store(p, ok)) == {ok}
  {
    assert [Release(p)] + [] == [Release(p)];
    WritesJoin(Release(p), []);
    WritesJoin(Write(p, ok), [Release(p)]);
    WritesJoin(Apply(p), [Write(p, ok)] + [Release(p)]);
  }

  lemma RecheckWrites(p: nat, entry: Token, disk: Option<Token>, w: World)
    ensures var d := Read(disk, Used(entry, disk, w), w.secondRead);
            WritesIn(AfterRecheck(p, entry, disk, w)) ==
            if d.Some? && w.secondExpired && w.secondExchange.Issued? then {w.written} else {}
  {
    assert [Release(p)] + [] == [Release(p)];
    WritesJoin(Release(p), []);
    StoreWrites(p, w.written);
    WritesJoin(Asking(p, w.secondExchange), if w.secondExchange.Issued? then Store(p, w.written) else [Release(p)]);
  }

  /** The writes that an outcome stands for. */
  function Writing(r: Outcome): set<bool> {
    match r case Persisted => {true} case NotPersisted => {false} case _ => {}
  }

  lemma DecisionWrites(p: nat, entry: Token, disk: Option<Token>, w: World)
    requires w.locked
    ensures WritesIn(AfterDecision(p, entry, disk, w)) == Writing(Refreshing(entry, disk, w).outcome)
  {
    if Read(disk, entry, w.firstRead).Some? && !w.firstExpired {
      assert [Release(p)] + [] == [Release(p)];
      WritesJoin(Release(p), []);
    } else if w.firstExchange.Issued? {
      StoreWrites(p, w.written);
      WritesJoin(Asking(p, w.firstExchange), Store(p, w.written));
    } else {
      var rest := AfterRecheck(p, entry, disk, w);
      RecheckWrites(p, entry, disk, w);
      WritesJoin(Recheck(p, w.secondRead, w.secondExpired), rest);
      WritesJoin(Asking(p, w.firstExchange), [Recheck(p, w.secondRead, w.secondExpired)] + rest);
    }
  }

  lemma ScriptWrites(p: nat, entry: Token, disk: Option<Token>, w: World)
    ensures WritesIn(Script(p, entry, disk, w)) == Writing(Refreshing(entry, disk, w).outcome)
  {
    var first := LockFails(p, w.firstRead, w.firstExpired);
    if !w.locked {
      assert [first] + [] == [first];
      WritesJoin(first, []);
    } else {
      var rest := AfterDecision(p, entry, disk, w);
      DecisionWrites(p, entry, disk, w);
      WritesJoin(Decide(p, w.firstRead, w.firstExpired), rest);
      WritesJoin(Acquire(p), [Decide(p, w.firstRead, w.firstExpired)] + rest);
    }
  }

  /**
  The outcome tells what the run did: it wrote the file, or failed to; it took over the token on disk
  without a write; or it left memory and file alone, with or without having had the lock.
  */
  lemma OutcomeTellsTheRun(p: nat, entry: Token, disk: Option<Token>, w: World)
    ensures var e, writes := Refreshing(entry, disk, w), WritesIn(Script(p, entry, disk, w));
            && (e.outcome == Persisted <==> writes == {true}) && (e.outcome == NotPersisted <==> writes == {false})
            && (e.outcome == Adopted <==> writes == {} && e.memory != entry)
            && (e.outcome == Adopted ==> disk == Some(e.memory))
            && (e.outcome == LockUnavailable <==> writes == {} && e.memory == entry && !w.locked)
            && (e.outcome == ExchangeFailed <==> writes == {} && e.memory == entry && w.locked)
            && e.disk == if writes == {true} then Some(e.memory) else disk
  {
    ScriptWrites(p, entry, disk, w);
    assert true in {true} && false in {false};
  }
}
