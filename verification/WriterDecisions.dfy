/**
Which updates are written at once, read off the parts themselves, and what the decision compares
them with: the snapshot that was last written, over every run.
*/
module WriterDecisions {
  import opened Common
  import opened Messages
  import opened Writers
  import opened WriterResults

  /** The tool calls among the parts, in order. */
  function CallsOf(parts: seq<Part>): seq<Part> {
    if parts == [] then [] else (if parts[0].ToolCall? then [parts[0]] else []) + CallsOf(parts[1..])
  }

  lemma {:induction false} CallsAreCalls(parts: seq<Part>)
    ensures AreCalls(CallsOf(parts)) && |CallFlags(parts)| == |CallsOf(parts)|
    ensures forall k | 0 <= k < |CallsOf(parts)| :: CallsOf(parts)[k].ToolCall? && CallFlags(parts)[k] == CallsOf(parts)[k].finished
  {
    if parts != [] { CallsAreCalls(parts[1..]); }
  }

  lemma {:induction false} CallsJoin(a: seq<Part>, b: seq<Part>)
    ensures CallsOf(a + b) == CallsOf(a) + CallsOf(b)
  {
    if a == [] {
      assert a + b == b;
    } else {
      HeadOfJoin(a, b);
      CallsJoin(a[1..], b);
      Reassociate(if a[0].ToolCall? then [a[0]] else [], CallsOf(a[1..]), CallsOf(b));
    }
  }

  /** Part i is the first reasoning part. */
  ghost predicate FirstThought(parts: seq<Part>, i: nat) {
    i < |parts| && parts[i].Reasoning? && forall j | 0 <= j < i :: !parts[j].Reasoning?
  }

  /** Tool call k of the one is finished and of the other it is not. */
  ghost predicate CallDiffers(a: seq<Part>, b: seq<Part>, k: nat) {
    && k < |CallsOf(a)| && k < |CallsOf(b)| && CallsOf(a)[k].ToolCall? && CallsOf(b)[k].ToolCall?
    && CallsOf(a)[k].finished != CallsOf(b)[k].finished
  }

  /** The tool calls differ in number, or in which of them are finished. */
  ghost predicate CallsDiffer(a: seq<Part>, b: seq<Part>) {
    |CallsOf(a)| != |CallsOf(b)| || exists k: nat :: CallDiffers(a, b, k)
  }

  lemma FlagsDiffer(a: seq<Part>, b: seq<Part>)
    ensures CallFlags(a) != CallFlags(b) <==> CallsDiffer(a, b)
  {
    CallsAreCalls(a);
    CallsAreCalls(b);
    if CallFlags(a) != CallFlags(b) && |CallFlags(a)| == |CallFlags(b)| {
      var k :| 0 <= k < |CallFlags(a)| && CallFlags(a)[k] != CallFlags(b)[k];
      assert CallDiffers(a, b, k);
    }
  }

  lemma ThoughtEnds(parts: seq<Part>)
    ensures ReasoningEnd(parts) > 0 <==> exists i: nat :: FirstThought(parts, i) && parts[i].finishedAt > 0
    ensures ReasoningEnd(parts) == 0 <==> forall i: nat :: FirstThought(parts, i) ==> parts[i].finishedAt == 0
  {
    var i := FirstReasoning(parts);
    if i < |parts| {
      assert FirstThought(parts, i);
    }
  }

  lemma HasFinishPart(parts: seq<Part>)
    ensures First(parts, FinishSlot) < |parts| <==> exists p | p in parts :: p.Finish?
  {
    if exists p | p in parts :: p.Finish? {
      var p :| p in parts && p.Finish?;
      var i :| 0 <= i < |parts| && parts[i] == p;
      assert SlotOf(parts[i]) == FinishSlot;
    }
  }

  /**
  From was to next the message finished, or the tool calls changed in number or in which are finished,
  or the first thought ended.
  */
  ghost predicate Structural(was: seq<Part>, next: seq<Part>) {
    || (exists p | p in next :: p.Finish?)
    || CallsDiffer(next, was)
    || ((exists i: nat :: FirstThought(next, i) && next[i].finishedAt > 0) &&
        (forall i: nat :: FirstThought(was, i) ==> was[i].finishedAt == 0))
  }

  /** An update is written at once exactly if it is such a change of what was last written, or of nothing. */
  lemma FlushesIff(prev: Option<seq<Part>>, next: seq<Part>)
    ensures ShouldFlushNow(prev, next) <==> Structural(if prev.Some? then prev.value else [], next)
  {
    var was := if prev.Some? then prev.value else [];
    HasFinishPart(next);
    FlagsDiffer(next, was);
    ThoughtEnds(next);
    ThoughtEnds(was);
  }

  /* ---- What becomes of an update ---- */

  /** What the decision about an update compares it with. */
  function Written(c: Cell): seq<Part> {
    if c.hasFlushed then c.lastFlushed.parts else []
  }

  /**
  Over every run: once an Update that changes the structure of what was last written is back without
  error, it is on the row or superseded there.
  */
  lemma StructureIsOnTheRow(immediate: bool, parts: seq<Part>, es: seq<Event>, n: nat)
    requires Run(immediate, parts, es) && n < |es| && Run(immediate, parts, es[..n]) && es[n].Update?
    requires Structural(Written(After(immediate, parts, es[..n]).value.cell), es[n].parts)
    ensures var s, t := After(immediate, parts, es[..n]).value, After(immediate, parts, es).value;
            && s.nextId in t.flushers
            && (t.flushers[s.nextId].phase == Returned(true) ==> t.cell.row.version > s.cell.latest.version)
  {
    var c := After(immediate, parts, es[..n]).value.cell;
    FlushesIff(Baseline(c), es[n].parts);
    FlushBarrier(immediate, parts, es, n);
  }

  /** Any other update of a debounced service writes nothing and waits, for a timer or for the write in flight. */
  lemma OtherwiseItWaits(s: State, parts: seq<Part>, stopped: bool)
    requires Reachable(s) && !s.immediate && !Structural(Written(s.cell), parts)
    ensures var t := Apply(s, Update(parts, stopped));
            && t.flushers == s.flushers && t.cell.row == s.cell.row && t.cell.latest.parts == parts && t.cell.dirty
            && (if s.cell.flushing then t.callbacks == s.callbacks && t.cell.flushing
                else t.cell.timer && t.callbacks == s.callbacks + if s.cell.timer then 0 else 1)
  {
    ReachableInv(s);
    FlushesIff(Baseline(s.cell), parts);
  }

  /* ---- The snapshot last written ---- */

  predicate Succeeds(e: Event) {
    e.Done? && e.ok
  }

  /** Step k is the last of the first n that ended a write with success. */
  ghost predicate LastSuccess(es: seq<Event>, n: nat, k: nat)
    requires n <= |es|
  {
    k < n && Succeeds(es[k]) && forall i | k < i < n :: !Succeeds(es[i])
  }

  lemma BaselineStep(s: State, e: Event)
    requires Enabled(s, e)
    ensures var c, d := s.cell, Apply(s, e).cell;
            if Succeeds(e) then d.hasFlushed && d.lastFlushed == s.flushers[e.flusher].phase.snap
            else d.hasFlushed == c.hasFlushed && d.lastFlushed == c.lastFlushed
  {
  }

  lemma LastSuccessSplits(es: seq<Event>, k: nat)
    requires es != []
    ensures var m := |es| - 1;
            LastSuccess(es, |es|, k) <==> if Succeeds(es[m]) then k == m else LastSuccess(es[..m], m, k)
  {
    assert forall i | 0 <= i < |es| - 1 :: es[..|es| - 1][i] == es[i];
  }

  /**
  Over every run: what counts as last written is the snapshot of the latest write that succeeded,
  whatever failed or was buffered since.
  */
  lemma {:induction false} LastFlushedIs(immediate: bool, parts: seq<Part>, es: seq<Event>, t: State, k: nat)
    requires After(immediate, parts, es) == Some(t) && LastSuccess(es, |es|, k)
    ensures var s := After(immediate, parts, es[..k]);
            && s.Some? && IsWriting(s.value, es[k].flusher)
            && t.cell.hasFlushed && t.cell.lastFlushed == s.value.flushers[es[k].flusher].phase.snap
  {
    var fs := es[..|es| - 1];
    BaselineStep(After(immediate, parts, fs).value, es[|es| - 1]);
    LastSuccessSplits(es, k);
    if !Succeeds(es[|es| - 1]) {
      assert fs[..k] == es[..k];
      LastFlushedIs(immediate, parts, fs, After(immediate, parts, fs).value, k);
    }
  }

  /** And while no write has succeeded, nothing does. */
  lemma {:induction false} NothingWrittenYet(immediate: bool, parts: seq<Part>, es: seq<Event>, t: State)
    requires After(immediate, parts, es) == Some(t) && forall k: nat :: !LastSuccess(es, |es|, k)
    ensures !t.cell.hasFlushed
  {
    if es != [] {
      var fs := es[..|es| - 1];
      BaselineStep(After(immediate, parts, fs).value, es[|es| - 1]);
      LastSuccessSplits(es, |es| - 1);
      forall k: nat ensures !LastSuccess(fs, |fs|, k) { LastSuccessSplits(es, k); }
      NothingWrittenYet(immediate, parts, fs, After(immediate, parts, fs).value);
    }
  }

  /** A timer's flusher looks once: it writes or returns, and never waits for another one. */
  lemma TimersFlusherNeverWaits(s: State, e: Event, f: nat)
    requires Reachable(s) && Enabled(s, e) && f in s.flushers && !s.flushers[f].sync
    ensures IsTop(s, f) && e.Look? && e.flusher == f ==> !IsTop(Apply(s, e), f)
    ensures !IsTop(s, f) ==> !IsTop(Apply(s, e), f)
  {
    ReachableInv(s);
    assert TimerLive(s);
  }
}
