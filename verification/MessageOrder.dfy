/** Where the parts of a streamed message stand, and what a whole stream leaves in it. */
module MessageOrders {
  import opened Common
  import opened Messages

  /** The slots of the parts, in order. */
  function Slots(parts: seq<Part>): seq<Slot> {
    seq(|parts|, i requires 0 <= i < |parts| => SlotOf(parts[i]))
  }

  /** These change a part that is there, and add none. */
  predicate OnlyChanges(m: Mutation) {
    m.FinishThinkingFor? || m.FinishToolCall? || m.AppendToolCallInput?
  }

  lemma SlotIsThere(parts: seq<Part>, s: Slot)
    ensures s in Slots(parts) <==> First(parts, s) < |parts|
  {
    var i := First(parts, s);
    assert i < |parts| ==> Slots(parts)[i] == s;
    if s in Slots(parts) {
      var j :| 0 <= j < |parts| && Slots(parts)[j] == s;
      assert SlotOf(parts[j]) == s;
    }
  }

  lemma ReplacedSlots(parts: seq<Part>, i: nat, x: Part)
    requires i < |parts| && SlotOf(x) == SlotOf(parts[i])
    ensures Slots(parts[i := x]) == Slots(parts)
  {
  }

  lemma AppendedSlots(parts: seq<Part>, x: Part)
    ensures Slots(parts + [x]) == Slots(parts) + [SlotOf(x)]
  {
  }

  /**
  A mutation of one slot changes the part that is there in its place, or adds one at the end: the slots
  stay in order. (A finish part is always put at the end, see FinishIsLast.)
  */
  lemma SlotsKeepTheirPlaces(parts: seq<Part>, m: Mutation)
    requires WellTyped(m) && Canonical(parts) && Target(parts, m).Some? && !m.AddFinish?
    ensures var s := Target(parts, m).value;
            Slots(Mutate(parts, m)) ==
            if s in Slots(parts) || OnlyChanges(m) then Slots(parts) else Slots(parts) + [s]
  {
    var s, t := Target(parts, m).value, Mutate(parts, m);
    var i := First(parts, s);
    SlotIsThere(parts, s);
    if m.AppendThoughtSignature? || m.AppendReasoningSignature? { FirstOfItsSlot(parts); }
    if i < |parts| {
      if m.AppendContent? { GrowsTheText(parts, m.delta); }
      assert t == parts[i := t[i]] && SlotOf(t[i]) == s;
      ReplacedSlots(parts, i, t[i]);
    } else if !OnlyChanges(m) {
      assert t == parts + [t[|parts|]] && SlotOf(t[|parts|]) == s;
      AppendedSlots(parts, t[|parts|]);
    }
  }

  lemma {:induction false} SelectAll(c: Choice, parts: seq<Part>)
    requires forall p | p in parts :: Chosen(c, SlotOf(p))
    ensures Select(c, parts) == parts
  {
    if parts != [] { SelectAll(c, parts[1..]); }
  }

  /** Without its only finish part a message is the selection of the others. */
  lemma FinishRemoved(parts: seq<Part>, i: nat)
    requires Canonical(parts) && i < |parts| && parts[i].Finish?
    ensures Select(NotIn(FinishSlot), parts) == parts[..i] + parts[i + 1..]
  {
    var c := NotIn(FinishSlot);
    SelectRemoved(c, parts, i);
    SelectJoin(c, parts[..i], parts[i + 1..]);
    assert forall j | 0 <= j < |parts| && j != i :: SlotOf(parts[j]) != SlotOf(parts[i]);
    SelectAll(c, parts[..i]);
    SelectAll(c, parts[i + 1..]);
  }

  /** The new finish part is the last part, and the only one; the others stay in order. */
  lemma FinishIsLast(parts: seq<Part>, finish: Part)
    requires Canonical(parts) && finish.Finish?
    ensures Mutate(parts, AddFinish(finish)) == Select(NotIn(FinishSlot), parts) + [finish]
  {
    var i := First(parts, FinishSlot);
    if i < |parts| {
      FinishRemoved(parts, i);
    } else {
      SelectAll(NotIn(FinishSlot), parts);
    }
  }

  lemma {:induction false} NoCallsChosen(calls: seq<Part>)
    requires AreCalls(calls)
    ensures Select(NotCalls, calls) == []
  {
    if calls != [] {
      assert calls[0] in calls && !Chosen(NotCalls, SlotOf(calls[0]));
      NoCallsChosen(calls[1..]);
    }
  }

  /** SetToolCalls leaves its list, in order, at the end, no call before it, and all that is no call in order. */
  lemma CallsAreReplaced(parts: seq<Part>, calls: seq<Part>) returns (kept: seq<Part>)
    requires AreCalls(calls)
    ensures Mutate(parts, SetToolCalls(calls)) == kept + calls && forall p | p in kept :: !p.ToolCall?
    ensures Select(NotCalls, Mutate(parts, SetToolCalls(calls))) == Select(NotCalls, parts)
  {
    kept := Select(NotCalls, parts);
    forall p | p in kept ensures Chosen(NotCalls, SlotOf(p)) { SelectedFrom(NotCalls, parts, p); }
    SelectAll(NotCalls, kept);
    NoCallsChosen(calls);
    SelectJoin(NotCalls, kept, calls);
    assert Mutate(parts, SetToolCalls(calls)) == kept + calls;
    assert Select(NotCalls, kept + calls) == kept + [] == kept;
  }

  /* ---- Whole streams ---- */

  /** Everything that was attached, in order. */
  function AttachedBy(ms: seq<Mutation>): seq<Part> {
    if ms == [] then []
    else AttachedBy(ms[..|ms| - 1]) + if ms[|ms| - 1].Attach? then ms[|ms| - 1].attachments else []
  }

  /** Whatever is streamed, finished and reset, the attachments are those there were and those attached since. */
  lemma {:induction false} AttachmentsAreKept(parts: seq<Part>, ms: seq<Mutation>)
    requires forall m | m in ms :: WellTyped(m)
    ensures Select(OnlyAttached, MutateAll(parts, ms)) == Select(OnlyAttached, parts) + AttachedBy(ms)
  {
    if ms != [] {
      var init, m := ms[..|ms| - 1], ms[|ms| - 1];
      AttachmentsAreKept(parts, init);
      if m.Attach? {
        SelectJoin(OnlyAttached, MutateAll(parts, init), m.attachments);
        assert m in ms && WellTyped(m);
        SelectAll(OnlyAttached, m.attachments);
        Reassociate(Select(OnlyAttached, parts), AttachedBy(init), m.attachments);
      } else {
        AttachmentsUntouched(MutateAll(parts, init), m);
        assert AttachedBy(init) + [] == AttachedBy(init);
      }
    }
  }

  /** The text streamed since the latest reset, if any. */
  function StreamedText(ms: seq<Mutation>): Option<string> {
    if ms == [] then None
    else
      var so := StreamedText(ms[..|ms| - 1]);
      match ms[|ms| - 1]
      case AppendContent(delta) => Some((if so.Some? then so.value else "") + delta)
      case ResetStreamed => None
      case _ => so
  }

  lemma LookupFirst(p: Part, rest: seq<Part>, s: Slot)
    ensures Lookup([p] + rest, s) == if SlotOf(p) == s then Some(p) else Lookup(rest, s)
  {
    assert ([p] + rest)[1..] == rest;
  }

  lemma {:induction false} LookupSelected(c: Choice, parts: seq<Part>, s: Slot)
    requires Chosen(c, s)
    ensures Lookup(Select(c, parts), s) == Lookup(parts, s)
  {
    if parts != [] {
      var rest := Select(c, parts[1..]);
      LookupSelected(c, parts[1..], s);
      LookupFirst(parts[0], rest, s);
      LookupFirst(parts[0], parts[1..], s);
      assert parts == [parts[0]] + parts[1..] && [] + rest == rest;
    }
  }

  lemma {:induction false} NoText(parts: seq<Part>)
    requires forall p | p in parts :: !p.Text?
    ensures Lookup(parts, TextSlot) == None
  {
    if parts != [] { NoText(parts[1..]); }
  }

  lemma {:induction false} TextJoin(a: seq<Part>, b: seq<Part>)
    requires forall p | p in b :: !p.Text?
    ensures Lookup(a + b, TextSlot) == Lookup(a, TextSlot)
  {
    if a == [] {
      assert a + b == b;
      NoText(b);
    } else {
      HeadOfJoin(a, b);
      TextJoin(a[1..], b);
    }
  }

  /** Nothing but AppendContent and a reset touches the text. */
  lemma TextUntouched(parts: seq<Part>, m: Mutation)
    requires WellTyped(m) && Canonical(parts) && !m.AppendContent? && !m.ResetStreamed?
    ensures Lookup(Mutate(parts, m), TextSlot) == Lookup(parts, TextSlot)
  {
    if m.FinishThinking? {
      EveryThoughtFinished(parts, m.now);
      SameText(parts, Mutate(parts, m));
    } else if m.SetToolCalls? {
      TextJoin(Select(NotCalls, parts), m.calls);
      LookupSelected(NotCalls, parts, TextSlot);
    } else if m.Attach? {
      TextJoin(parts, m.attachments);
    } else {
      var c := NotIn(Target(parts, m).value);
      ElsewhereUntouched(parts, m, c);
      LookupSelected(c, parts, TextSlot);
      LookupSelected(c, Mutate(parts, m), TextSlot);
    }
  }

  lemma {:induction false} SameText(parts: seq<Part>, t: seq<Part>)
    requires |t| == |parts| && forall i | 0 <= i < |parts| :: t[i] == parts[i] || (parts[i].Reasoning? && t[i].Reasoning?)
    ensures Lookup(t, TextSlot) == Lookup(parts, TextSlot)
  {
    if parts != [] { SameText(parts[1..], t[1..]); }
  }

  /**
  For every stream from an empty message on: the message's text is what was appended since the latest
  reset, piece by piece, whatever else was streamed, finished or attached in between.
  */
  lemma {:induction false} TextIsWhatWasStreamed(ms: seq<Mutation>)
    requires forall m | m in ms :: WellTyped(m) && Distinctly(m)
    ensures var x := Lookup(MutateAll([], ms), TextSlot);
            if StreamedText(ms).Some? then x == Some(Text(StreamedText(ms).value)) else x == None
  {
    if ms != [] {
      var init, m := ms[..|ms| - 1], ms[|ms| - 1];
      var parts := MutateAll([], init);
      TextIsWhatWasStreamed(init);
      StreamStaysCanonical(init);
      if m.AppendContent? {
        SlotUpdated(parts, m);
      } else if m.ResetStreamed? {
        forall p | p in Select(OnlyAttached, parts) ensures !p.Text? { SelectedFrom(OnlyAttached, parts, p); }
        NoText(Select(OnlyAttached, parts));
      } else {
        TextUntouched(parts, m);
      }
    }
  }
}
