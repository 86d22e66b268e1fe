/**
The parts of a message while it streams. `Mutate` says what each mutator of content.go computes;
the class below it updates the list step by step, as the program does.
*/
module Messages {
  import opened Common

  datatype Role = Assistant | User | System | Tool

  datatype ResponsesData = ResponsesData(itemID: string, encrypted: Option<string>, summary: seq<string>)

  datatype Part =
    | Text(text: string)
    | Reasoning(eventID: string, thinking: string, signature: string, thoughtSignature: string, toolID: string,
                responses: Option<ResponsesData>, startedAt: int, finishedAt: int)
    | ImageURL(url: string, detail: string)
    | Binary(path: string, mimeType: string, bytes: seq<bv8>)
    | ToolCall(id: string, name: string, input: string, providerExecuted: bool, finished: bool)
    | ToolResult(callID: string, name: string, content: string, data: string, mimeType: string, metadata: string,
                 isError: bool)
    | Finish(reason: string, time: int, message: string, details: string)
    | ShellCommand(command: string, output: string, exitCode: int)

  /** What a streamed part is found by. Attached is for every part that is not streamed. */
  datatype Slot = TextSlot | ReasoningSlot(eventID: string) | CallSlot(id: string) | FinishSlot | Attached

  function SlotOf(p: Part): Slot {
    match p
    case Text(_) => TextSlot
    case Reasoning(e, _, _, _, _, _, _, _) => ReasoningSlot(e)
    case ToolCall(id, _, _, _, _) => CallSlot(id)
    case Finish(_, _, _, _) => FinishSlot
    case _ => Attached
  }

  /**
  At most one text and one finish, distinct tool call IDs, distinct reasoning event IDs.
  */
  ghost predicate Canonical(parts: seq<Part>) {
    forall i, j | 0 <= i < j < |parts| :: SlotOf(parts[i]) == SlotOf(parts[j]) ==> SlotOf(parts[i]) == Attached
  }

  /** Which parts a selection keeps. */
  datatype Choice = NotIn(slot: Slot) | NotCalls | OnlyAttached

  predicate Chosen(c: Choice, s: Slot) {
    match c
    case NotIn(t) => s != t
    case NotCalls => !s.CallSlot?
    case OnlyAttached => s == Attached
  }

  /** The chosen parts, in order. */
  function Select(c: Choice, parts: seq<Part>): seq<Part> {
    if parts == [] then []
    else (if Chosen(c, SlotOf(parts[0])) then [parts[0]] else []) + Select(c, parts[1..])
  }

  /** The position of the first part in slot s, or the length. */
  function First(parts: seq<Part>, s: Slot): (i: nat)
    ensures i <= |parts| && (i < |parts| ==> SlotOf(parts[i]) == s)
    ensures forall j | 0 <= j < i :: SlotOf(parts[j]) != s
  {
    if parts == [] || SlotOf(parts[0]) == s then 0 else 1 + First(parts[1..], s)
  }

  function Lookup(parts: seq<Part>, s: Slot): Option<Part> {
    var i := First(parts, s);
    if i < |parts| then Some(parts[i]) else None
  }

  /** x in place of the first part of its slot, or at the end. */
  function Upsert(parts: seq<Part>, x: Part): seq<Part> {
    var i := First(parts, SlotOf(x));
    if i < |parts| then parts[i := x] else parts + [x]
  }

  /** The first part that is a reasoning part of any event, or the length. */
  function FirstReasoning(parts: seq<Part>): (i: nat)
    ensures i <= |parts| && (i < |parts| ==> parts[i].Reasoning?)
    ensures forall j | 0 <= j < i :: !parts[j].Reasoning?
  {
    if parts == [] || parts[0].Reasoning? then 0 else 1 + FirstReasoning(parts[1..])
  }

  function NewReasoning(eventID: string): Part {
    Reasoning(eventID, "", "", "", "", None, 0, 0)
  }

  function Grown(p: Part, delta: string): Part {
    if p.Text? then Text(p.text + delta) else p
  }

  /** AppendContent appends to every text part. */
  function GrowTexts(parts: seq<Part>, delta: string): seq<Part> {
    if parts == [] then [] else [Grown(parts[0], delta)] + GrowTexts(parts[1..], delta)
  }

  function EventIDs(parts: seq<Part>): seq<string> {
    if parts == [] then []
    else (if parts[0].Reasoning? then [parts[0].eventID] else []) + EventIDs(parts[1..])
  }

  function FinishEvents(parts: seq<Part>, ids: seq<string>, now: int): seq<Part>
    decreases |ids|
  {
    if ids == [] then parts else FinishEvents(FinishEvent(parts, ids[0], now), ids[1..], now)
  }

  function FinishEvent(parts: seq<Part>, e: string, now: int): seq<Part> {
    var i := First(parts, ReasoningSlot(e));
    if i < |parts| && parts[i].finishedAt == 0 then parts[i := parts[i].(finishedAt := now)] else parts
  }

  datatype Mutation =
    | AppendContent(delta: string)
    | AppendReasoning(event: string, delta: string, now: int)
    | AppendThoughtSignature(signature: string, toolID: string)
    | AppendReasoningSignature(signature: string)
    | SetResponses(event: string, responses: Option<ResponsesData>, now: int)
    | FinishThinking(now: int)
    | FinishThinkingFor(event: string, now: int)
    | FinishToolCall(id: string)
    | AppendToolCallInput(id: string, delta: string)
    | AddToolCall(call: Part)
    | SetToolCalls(calls: seq<Part>)
    | AddFinish(finish: Part)
    | Attach(attachments: seq<Part>)
    | ResetStreamed

  predicate AreCalls(calls: seq<Part>) {
    forall c | c in calls :: c.ToolCall?
  }

  /** The arguments have the types the program's mutators take. */
  predicate WellTyped(m: Mutation) {
    match m
    case AddToolCall(call) => call.ToolCall?
    case SetToolCalls(calls) => AreCalls(calls)
    case AddFinish(finish) => finish.Finish?
    case Attach(xs) => forall x | x in xs :: SlotOf(x) == Attached
    case _ => true
  }

  function Mutate(parts: seq<Part>, m: Mutation): seq<Part>
    requires WellTyped(m)
  {
    match m
    case AppendContent(delta) =>
      if First(parts, TextSlot) < |parts| then GrowTexts(parts, delta) else parts + [Text(delta)]
    case AppendReasoning(e, delta, now) =>
      var i := First(parts, ReasoningSlot(e));
      if i < |parts| then parts[i := parts[i].(thinking := parts[i].thinking + delta)]
      else parts + [NewReasoning(e).(thinking := delta, startedAt := now)]
    case AppendThoughtSignature(signature, toolID) =>
      var i := FirstReasoning(parts);
      if i < |parts|
      then parts[i := parts[i].(thoughtSignature := parts[i].thoughtSignature + signature, toolID := toolID)]
      else parts + [NewReasoning("").(thoughtSignature := signature)]
    case AppendReasoningSignature(signature) =>
      var i := FirstReasoning(parts);
      if i < |parts| then parts[i := parts[i].(signature := parts[i].signature + signature)]
      else parts + [NewReasoning("").(signature := signature)]
    case SetResponses(e, responses, now) =>
      var i := First(parts, ReasoningSlot(e));
      if i < |parts| then parts[i := parts[i].(responses := responses)]
      else parts + [NewReasoning(e).(responses := responses, startedAt := now)]
    case FinishThinking(now) => FinishEvents(parts, EventIDs(parts), now)
    case FinishThinkingFor(e, now) => FinishEvent(parts, e, now)
    case FinishToolCall(id) =>
      var i := First(parts, CallSlot(id));
      if i < |parts| then parts[i := ToolCall(parts[i].id, parts[i].name, parts[i].input, false, true)] else parts
    case AppendToolCallInput(id, delta) =>
      var i := First(parts, CallSlot(id));
      if i < |parts| then parts[i := ToolCall(parts[i].id, parts[i].name, parts[i].input + delta, false, parts[i].finished)]
      else parts
    case AddToolCall(call) => Upsert(parts, call)
    case SetToolCalls(calls) => Select(NotCalls, parts) + calls
    case AddFinish(finish) =>
      var i := First(parts, FinishSlot);
      (if i < |parts| then parts[..i] + parts[i + 1..] else parts) + [finish]
    case Attach(xs) => parts + xs
    case ResetStreamed => Select(OnlyAttached, parts)
  }

  /* ---- Canonical form ---- */

  /** A message in canonical form has at most one text, so appending grows that one. */
  lemma {:induction false} GrowTextsIs(parts: seq<Part>, delta: string)
    ensures var t := GrowTexts(parts, delta);
            |t| == |parts| && forall i | 0 <= i < |parts| :: t[i] == Grown(parts[i], delta)
  {
    if parts != [] { GrowTextsIs(parts[1..], delta); }
  }

  lemma GrowsTheText(parts: seq<Part>, delta: string)
    requires Canonical(parts) && First(parts, TextSlot) < |parts|
    ensures var i := First(parts, TextSlot); GrowTexts(parts, delta) == parts[i := Text(parts[i].text + delta)]
  {
    GrowTextsIs(parts, delta);
    var i := First(parts, TextSlot);
    assert parts[i].Text?;
    assert forall j | 0 <= j < |parts| :: parts[j].Text? ==> SlotOf(parts[j]) == SlotOf(parts[i]);
  }

  /** Selecting keeps the order, so it keeps slots apart. */
  lemma {:induction false} SelectKeepsCanonical(c: Choice, parts: seq<Part>)
    requires Canonical(parts)
    ensures Canonical(Select(c, parts))
  {
    if parts != [] {
      var rest := Select(c, parts[1..]);
      SelectKeepsCanonical(c, parts[1..]);
      if Chosen(c, SlotOf(parts[0])) {
        forall j | 0 <= j < |rest| ensures SlotOf(rest[j]) == SlotOf(parts[0]) ==> SlotOf(parts[0]) == Attached {
          SelectedFrom(c, parts[1..], rest[j]);
        }
      }
    }
  }

  lemma {:induction false} SelectedFrom(c: Choice, parts: seq<Part>, p: Part)
    ensures p in Select(c, parts) <==> p in parts && Chosen(c, SlotOf(p))
  {
    if parts != [] {
      SelectedFrom(c, parts[1..], p);
      assert parts == [parts[0]] + parts[1..];
    }
  }

  lemma {:induction false} FinishEventsKeepsCanonical(parts: seq<Part>, ids: seq<string>, now: int)
    requires Canonical(parts)
    ensures Canonical(FinishEvents(parts, ids, now))
    decreases |ids|
  {
    if ids != [] {
      FinishEventsKeepsCanonical(FinishEvent(parts, ids[0], now), ids[1..], now);
    }
  }

  lemma JoinCanonical(a: seq<Part>, b: seq<Part>)
    requires Canonical(a) && Canonical(b)
    requires forall x, y | x in a && y in b :: SlotOf(x) == SlotOf(y) ==> SlotOf(x) == Attached
    ensures Canonical(a + b)
  {
    var c := a + b;
    forall i, j | 0 <= i < j < |c| && SlotOf(c[i]) == SlotOf(c[j]) ensures SlotOf(c[i]) == Attached {
      if i < |a| <= j {
        assert c[i] in a && c[j] in b;
      } else if j < |a| {
        assert SlotOf(a[i]) == SlotOf(a[j]);
      } else {
        assert SlotOf(b[i - |a|]) == SlotOf(b[j - |a|]);
      }
    }
  }

  ghost predicate DistinctCalls(calls: seq<Part>)
    requires AreCalls(calls)
  {
    forall i, j | 0 <= i < j < |calls| :: calls[i].id != calls[j].id
  }

  lemma CallsCanonical(calls: seq<Part>)
    requires AreCalls(calls)
    ensures Canonical(calls) <==> DistinctCalls(calls)
  {
    assert forall i | 0 <= i < |calls| :: calls[i] in calls && SlotOf(calls[i]) == CallSlot(calls[i].id);
  }

  lemma SuffixCanonical(a: seq<Part>, b: seq<Part>)
    requires Canonical(a + b)
    ensures Canonical(b)
  {
    forall i, j | 0 <= i < j < |b| && SlotOf(b[i]) == SlotOf(b[j]) ensures SlotOf(b[i]) == Attached {
      assert SlotOf((a + b)[|a| + i]) == SlotOf((a + b)[|a| + j]);
    }
  }

  /** SetToolCalls keeps the canonical form exactly when its list has distinct IDs. */
  lemma SetToolCallsKeepsCanonical(parts: seq<Part>, calls: seq<Part>)
    requires Canonical(parts) && AreCalls(calls)
    ensures Canonical(Select(NotCalls, parts) + calls) <==> DistinctCalls(calls)
  {
    SelectKeepsCanonical(NotCalls, parts);
    CallsCanonical(calls);
    if DistinctCalls(calls) {
      forall x | x in Select(NotCalls, parts) ensures !SlotOf(x).CallSlot? { SelectedFrom(NotCalls, parts, x); }
      JoinCanonical(Select(NotCalls, parts), calls);
    }
    if Canonical(Select(NotCalls, parts) + calls) {
      SuffixCanonical(Select(NotCalls, parts), calls);
    }
  }

  lemma AddFinishKeepsCanonical(parts: seq<Part>, finish: Part)
    requires Canonical(parts) && finish.Finish?
    ensures Canonical(Mutate(parts, AddFinish(finish)))
  {
    var i := First(parts, FinishSlot);
    var rest := if i < |parts| then parts[..i] + parts[i + 1..] else parts;
    forall j | 0 <= j < |rest| ensures SlotOf(rest[j]) != FinishSlot {
      assert rest[j] == parts[if j < i then j else j + 1];
    }
    forall j, k | 0 <= j < k < |rest| && SlotOf(rest[j]) == SlotOf(rest[k]) ensures SlotOf(rest[j]) == Attached {
      assert SlotOf(parts[if j < i then j else j + 1]) == SlotOf(parts[if k < i then k else k + 1]);
    }
  }

  /** What SetToolCalls needs; every other mutator needs nothing. */
  ghost predicate Distinctly(m: Mutation)
    requires WellTyped(m)
  {
    m.SetToolCalls? ==> DistinctCalls(m.calls)
  }

  lemma ReasoningKeepsCanonical(parts: seq<Part>, m: Mutation)
    requires Canonical(parts)
    requires m.AppendReasoning? || m.AppendThoughtSignature? || m.AppendReasoningSignature? || m.SetResponses? || m.FinishThinkingFor?
    ensures Canonical(Mutate(parts, m))
  {
  }

  lemma CallsKeepCanonical(parts: seq<Part>, m: Mutation)
    requires WellTyped(m) && Canonical(parts)
    requires m.FinishToolCall? || m.AppendToolCallInput? || m.AddToolCall?
    ensures Canonical(Mutate(parts, m))
  {
  }

  /** A mutation keeps the canonical form, but for a SetToolCalls with repeated IDs, which breaks it. */
  lemma MutateKeepsCanonical(parts: seq<Part>, m: Mutation)
    requires WellTyped(m) && Canonical(parts)
    ensures Canonical(Mutate(parts, m)) <==> Distinctly(m)
  {
    match m
    case AppendContent(delta) =>
      if First(parts, TextSlot) < |parts| { GrowsTheText(parts, delta); }
    case FinishThinking(now) => FinishEventsKeepsCanonical(parts, EventIDs(parts), now);
    case SetToolCalls(calls) => SetToolCallsKeepsCanonical(parts, calls);
    case AddFinish(finish) => AddFinishKeepsCanonical(parts, finish);
    case Attach(xs) => JoinCanonical(parts, xs);
    case ResetStreamed => SelectKeepsCanonical(OnlyAttached, parts);
    case FinishToolCall(_) => CallsKeepCanonical(parts, m);
    case AppendToolCallInput(_, _) => CallsKeepCanonical(parts, m);
    case AddToolCall(_) => CallsKeepCanonical(parts, m);
    case _ => ReasoningKeepsCanonical(parts, m);
  }

  function MutateAll(parts: seq<Part>, ms: seq<Mutation>): seq<Part>
    requires forall m | m in ms :: WellTyped(m)
  {
    if ms == [] then parts else Mutate(MutateAll(parts, ms[..|ms| - 1]), ms[|ms| - 1])
  }

  /** From an empty list on, any sequence of mutations whose SetToolCalls lists are distinct. */
  lemma {:induction false} StreamStaysCanonical(ms: seq<Mutation>)
    requires forall m | m in ms :: WellTyped(m) && Distinctly(m)
    ensures Canonical(MutateAll([], ms))
  {
    if ms != [] {
      StreamStaysCanonical(ms[..|ms| - 1]);
      MutateKeepsCanonical(MutateAll([], ms[..|ms| - 1]), ms[|ms| - 1]);
    }
  }

  /* ---- A message as a store of slots ---- */

  lemma {:induction false} SelectJoin(c: Choice, a: seq<Part>, b: seq<Part>)
    ensures Select(c, a + b) == Select(c, a) + Select(c, b)
  {
    if a == [] {
      assert a + b == b;
    } else {
      var head, rest := if Chosen(c, SlotOf(a[0])) then [a[0]] else [], Select(c, a[1..]);
      SelectJoin(c, a[1..], b);
      HeadOfJoin(a, b);
      assert Select(c, a + b) == head + Select(c, a[1..] + b);
      Reassociate(head, rest, Select(c, b));
    }
  }

  lemma SelectOne(c: Choice, x: Part)
    ensures Select(c, [x]) == if Chosen(c, SlotOf(x)) then [x] else []
  {
    assert [x][1..] == [];
  }

  lemma SelectReplaced(c: Choice, parts: seq<Part>, i: nat, x: Part)
    requires i < |parts| && SlotOf(parts[i]) == SlotOf(x) && !Chosen(c, SlotOf(x))
    ensures Select(c, parts[i := x]) == Select(c, parts)
  {
    assert parts[i := x] == parts[..i] + ([x] + parts[i + 1..]) && parts == parts[..i] + ([parts[i]] + parts[i + 1..]);
    SelectJoin(c, parts[..i], [x] + parts[i + 1..]);
    SelectJoin(c, [x], parts[i + 1..]);
    SelectJoin(c, parts[..i], [parts[i]] + parts[i + 1..]);
    SelectJoin(c, [parts[i]], parts[i + 1..]);
    SelectOne(c, x);
    SelectOne(c, parts[i]);
  }

  lemma SelectAppended(c: Choice, parts: seq<Part>, x: Part)
    requires !Chosen(c, SlotOf(x))
    ensures Select(c, parts + [x]) == Select(c, parts)
  {
    SelectJoin(c, parts, [x]);
    SelectOne(c, x);
  }

  lemma {:induction false} SelectGrown(c: Choice, parts: seq<Part>, delta: string)
    requires !Chosen(c, TextSlot)
    ensures Select(c, GrowTexts(parts, delta)) == Select(c, parts)
  {
    if parts != [] { SelectGrown(c, parts[1..], delta); }
  }

  lemma SelectRemoved(c: Choice, parts: seq<Part>, i: nat)
    requires i < |parts| && !Chosen(c, SlotOf(parts[i]))
    ensures Select(c, parts[..i] + parts[i + 1..]) == Select(c, parts)
  {
    assert parts == parts[..i] + ([parts[i]] + parts[i + 1..]);
    SelectJoin(c, parts[..i], parts[i + 1..]);
    SelectJoin(c, parts[..i], [parts[i]] + parts[i + 1..]);
    SelectJoin(c, [parts[i]], parts[i + 1..]);
    SelectOne(c, parts[i]);
  }

  /** The slot a mutation is about, for those that are about one. */
  function Target(parts: seq<Part>, m: Mutation): Option<Slot>
    requires WellTyped(m)
  {
    match m
    case AppendContent(_) => Some(TextSlot)
    case AppendReasoning(e, _, _) => Some(ReasoningSlot(e))
    case SetResponses(e, _, _) => Some(ReasoningSlot(e))
    case FinishThinkingFor(e, _) => Some(ReasoningSlot(e))
    case AppendThoughtSignature(_, _) => Some(SomeReasoning(parts))
    case AppendReasoningSignature(_) => Some(SomeReasoning(parts))
    case FinishToolCall(id) => Some(CallSlot(id))
    case AppendToolCallInput(id, _) => Some(CallSlot(id))
    case AddToolCall(call) => Some(CallSlot(call.id))
    case AddFinish(_) => Some(FinishSlot)
    case _ => None
  }

  /** The slot of the first reasoning part, or of the one that would be added. */
  function SomeReasoning(parts: seq<Part>): Slot {
    var i := FirstReasoning(parts);
    if i < |parts| then SlotOf(parts[i]) else ReasoningSlot("")
  }

  lemma ElsewhereByReasoning(parts: seq<Part>, m: Mutation, c: Choice)
    requires WellTyped(m) && Target(parts, m).Some? && !Chosen(c, Target(parts, m).value)
    requires Target(parts, m).value.ReasoningSlot?
    ensures Select(c, Mutate(parts, m)) == Select(c, parts)
  {
    var i, j, t := First(parts, Target(parts, m).value), FirstReasoning(parts), Mutate(parts, m);
    var k := if m.AppendThoughtSignature? || m.AppendReasoningSignature? then j else i;
    if k < |parts| {
      SelectReplaced(c, parts, k, t[k]);
      assert t == parts[k := t[k]];
    } else if t != parts {
      SelectAppended(c, parts, t[|parts|]);
    }
  }

  lemma ElsewhereByCalls(parts: seq<Part>, m: Mutation, c: Choice)
    requires WellTyped(m) && Target(parts, m).Some? && !Chosen(c, Target(parts, m).value)
    requires Target(parts, m).value.CallSlot?
    ensures Select(c, Mutate(parts, m)) == Select(c, parts)
  {
    var i, t := First(parts, Target(parts, m).value), Mutate(parts, m);
    if i < |parts| {
      SelectReplaced(c, parts, i, t[i]);
      assert t == parts[i := t[i]];
    } else if t != parts {
      SelectAppended(c, parts, t[|parts|]);
    }
  }

  /** A mutation of one slot leaves the parts of all the others as they are, in order. */
  lemma ElsewhereUntouched(parts: seq<Part>, m: Mutation, c: Choice)
    requires WellTyped(m) && Target(parts, m).Some? && !Chosen(c, Target(parts, m).value)
    ensures Select(c, Mutate(parts, m)) == Select(c, parts)
  {
    if m.AppendContent? {
      SelectGrown(c, parts, m.delta);
      SelectAppended(c, parts, Text(m.delta));
    } else if m.AddFinish? {
      var i := First(parts, FinishSlot);
      if i < |parts| { SelectRemoved(c, parts, i); }
      SelectAppended(c, if i < |parts| then parts[..i] + parts[i + 1..] else parts, m.finish);
    } else if Target(parts, m).value.CallSlot? {
      ElsewhereByCalls(parts, m, c);
    } else {
      ElsewhereByReasoning(parts, m, c);
    }
  }

  /** What becomes of the slot's part; None stays None when nothing is added. */
  function Updated(m: Mutation, x: Option<Part>): Option<Part>
    requires WellTyped(m)
    requires x.Some? ==>
      match m
      case AppendContent(_) => x.value.Text?
      case AppendReasoning(_, _, _) => x.value.Reasoning?
      case SetResponses(_, _, _) => x.value.Reasoning?
      case FinishThinkingFor(_, _) => x.value.Reasoning?
      case AppendThoughtSignature(_, _) => x.value.Reasoning?
      case AppendReasoningSignature(_) => x.value.Reasoning?
      case FinishToolCall(_) => x.value.ToolCall?
      case AppendToolCallInput(_, _) => x.value.ToolCall?
      case _ => true
  {
    match m
    case AppendContent(d) => Some(Text((if x.Some? then x.value.text else "") + d))
    case AppendReasoning(e, d, now) =>
      if x.Some? then Some(x.value.(thinking := x.value.thinking + d))
      else Some(NewReasoning(e).(thinking := d, startedAt := now))
    case SetResponses(e, r, now) =>
      if x.Some? then Some(x.value.(responses := r)) else Some(NewReasoning(e).(responses := r, startedAt := now))
    case FinishThinkingFor(e, now) =>
      if x.Some? && x.value.finishedAt == 0 then Some(x.value.(finishedAt := now)) else x
    case AppendThoughtSignature(signature, toolID) =>
      if x.Some? then Some(x.value.(thoughtSignature := x.value.thoughtSignature + signature, toolID := toolID))
      else Some(NewReasoning("").(thoughtSignature := signature))
    case AppendReasoningSignature(signature) =>
      if x.Some? then Some(x.value.(signature := x.value.signature + signature))
      else Some(NewReasoning("").(signature := signature))
    case FinishToolCall(_) => if x.Some? then Some(x.value.(providerExecuted := false, finished := true)) else x
    case AppendToolCallInput(_, d) =>
      if x.Some? then Some(x.value.(providerExecuted := false, input := x.value.input + d)) else x
    case AddToolCall(call) => Some(call)
    case AddFinish(finish) => Some(finish)
    case _ => x
  }

  lemma FirstIs(parts: seq<Part>, s: Slot, i: nat)
    requires i < |parts| && SlotOf(parts[i]) == s && forall j | 0 <= j < i :: SlotOf(parts[j]) != s
    ensures First(parts, s) == i
  {
  }

  lemma LookupReplaced(parts: seq<Part>, s: Slot, x: Part)
    requires First(parts, s) < |parts| && SlotOf(x) == s
    ensures Lookup(parts[First(parts, s) := x], s) == Some(x)
  {
    FirstIs(parts[First(parts, s) := x], s, First(parts, s));
  }

  lemma LookupAppended(parts: seq<Part>, s: Slot, x: Part)
    requires First(parts, s) == |parts| && SlotOf(x) == s
    ensures Lookup(parts + [x], s) == Some(x)
  {
    FirstIs(parts + [x], s, |parts|);
  }

  lemma FinishUpdated(parts: seq<Part>, finish: Part)
    requires finish.Finish? && Canonical(parts)
    ensures Lookup(Mutate(parts, AddFinish(finish)), FinishSlot) == Some(finish)
  {
    var i := First(parts, FinishSlot);
    var rest := if i < |parts| then parts[..i] + parts[i + 1..] else parts;
    forall j | 0 <= j < |rest| ensures SlotOf(rest[j]) != FinishSlot {
      assert rest[j] == parts[if j < i then j else j + 1];
    }
    FirstIs(rest + [finish], FinishSlot, |rest|);
  }

  lemma TextUpdated(parts: seq<Part>, delta: string)
    requires Canonical(parts)
    ensures Lookup(Mutate(parts, AppendContent(delta)), TextSlot) == Updated(AppendContent(delta), Lookup(parts, TextSlot))
  {
    var i := First(parts, TextSlot);
    if i < |parts| {
      GrowsTheText(parts, delta);
      LookupReplaced(parts, TextSlot, Text(parts[i].text + delta));
    } else {
      LookupAppended(parts, TextSlot, Text(delta));
      assert "" + delta == delta;
    }
  }

  /** The first reasoning part is the first of its slot. */
  lemma FirstOfItsSlot(parts: seq<Part>)
    ensures First(parts, SomeReasoning(parts)) == FirstReasoning(parts)
  {
    var i := FirstReasoning(parts);
    if i < |parts| { FirstIs(parts, SomeReasoning(parts), i); }
  }

  lemma SignatureUpdated(parts: seq<Part>, m: Mutation)
    requires m.AppendThoughtSignature? || m.AppendReasoningSignature?
    ensures Lookup(parts, SomeReasoning(parts)).Some? ==> Lookup(parts, SomeReasoning(parts)).value.Reasoning?
    ensures Lookup(Mutate(parts, m), SomeReasoning(parts)) == Updated(m, Lookup(parts, SomeReasoning(parts)))
  {
    var s, i := SomeReasoning(parts), FirstReasoning(parts);
    FirstOfItsSlot(parts);
    var x := Updated(m, Lookup(parts, s)).value;
    if i < |parts| { LookupReplaced(parts, s, x); } else { LookupAppended(parts, s, x); }
  }

  /** In canonical form a mutation of one slot does to that slot's part what it is named for. */
  lemma SlotUpdated(parts: seq<Part>, m: Mutation)
    requires WellTyped(m) && Canonical(parts) && Target(parts, m).Some?
    ensures Lookup(Mutate(parts, m), Target(parts, m).value) == Updated(m, Lookup(parts, Target(parts, m).value))
  {
    if m.AddFinish? {
      FinishUpdated(parts, m.finish);
    } else if m.AppendContent? {
      TextUpdated(parts, m.delta);
    } else if m.AppendThoughtSignature? || m.AppendReasoningSignature? {
      SignatureUpdated(parts, m);
    } else {
      var s := Target(parts, m).value;
      var i, x := First(parts, s), Updated(m, Lookup(parts, s));
      if i < |parts| {
        LookupReplaced(parts, s, x.value);
        assert parts[i := parts[i]] == parts;
      } else if x.Some? {
        LookupAppended(parts, s, x.value);
      }
    }
  }

  /* ---- Finishing every thought ---- */

  function Finished(p: Part, now: int): Part {
    if p.Reasoning? && p.finishedAt == 0 then p.(finishedAt := now) else p
  }

  /** The parts with the reasoning of the given events finished. */
  ghost predicate FinishedAmong(parts: seq<Part>, t: seq<Part>, ids: seq<string>, now: int) {
    && |t| == |parts|
    && (forall i | 0 <= i < |parts| ::
          t[i] == if parts[i].Reasoning? && parts[i].eventID in ids then Finished(parts[i], now) else parts[i])
  }

  lemma FinishEventAmong(parts: seq<Part>, e: string, now: int)
    requires Canonical(parts)
    ensures FinishedAmong(parts, FinishEvent(parts, e, now), [e], now)
  {
    var k, t := First(parts, ReasoningSlot(e)), FinishEvent(parts, e, now);
    forall i | 0 <= i < |parts|
      ensures t[i] == if parts[i].Reasoning? && parts[i].eventID == e then Finished(parts[i], now) else parts[i]
    {
      assert k < i ==> SlotOf(parts[i]) != SlotOf(parts[k]);
    }
  }

  lemma {:induction false} FinishEventsAmong(parts: seq<Part>, ids: seq<string>, now: int)
    requires Canonical(parts)
    ensures FinishedAmong(parts, FinishEvents(parts, ids, now), ids, now)
    decreases |ids|
  {
    if ids != [] {
      var u := FinishEvent(parts, ids[0], now);
      FinishEventAmong(parts, ids[0], now);
      FinishEventsKeepsCanonical(parts, [ids[0]], now);
      assert FinishEvents(u, [ids[0]][1..], now) == u;
      FinishEventsAmong(u, ids[1..], now);
      assert ids == [ids[0]] + ids[1..];
    }
  }

  lemma {:induction false} EventIDsAre(parts: seq<Part>, p: Part)
    requires p in parts && p.Reasoning?
    ensures p.eventID in EventIDs(parts)
  {
    if parts[0] != p { EventIDsAre(parts[1..], p); }
  }

  /**
  In canonical form FinishThinking finishes every thought, keeps the times of those already
  finished, and touches nothing else.
  */
  lemma EveryThoughtFinished(parts: seq<Part>, now: int)
    requires Canonical(parts)
    ensures var t := Mutate(parts, FinishThinking(now));
            |t| == |parts| && forall i | 0 <= i < |parts| :: t[i] == Finished(parts[i], now)
  {
    FinishEventsAmong(parts, EventIDs(parts), now);
    forall i | 0 <= i < |parts| && parts[i].Reasoning? ensures parts[i].eventID in EventIDs(parts) {
      EventIDsAre(parts, parts[i]);
    }
  }

  /* ---- Starting over ---- */

  lemma {:induction false} SelectCalls(calls: seq<Part>)
    requires AreCalls(calls)
    ensures Select(OnlyAttached, calls) == []
  {
    if calls != [] { SelectCalls(calls[1..]); }
  }

  lemma {:induction false} SelectTwice(c: Choice, parts: seq<Part>)
    requires c == NotCalls || c == OnlyAttached
    ensures Select(OnlyAttached, Select(c, parts)) == Select(OnlyAttached, parts)
  {
    if parts != [] {
      var head, rest := if Chosen(c, SlotOf(parts[0])) then [parts[0]] else [], Select(c, parts[1..]);
      SelectTwice(c, parts[1..]);
      SelectJoin(OnlyAttached, head, rest);
      SelectOne(OnlyAttached, parts[0]);
    }
  }

  lemma {:induction false} SelectFinished(parts: seq<Part>, ids: seq<string>, now: int)
    ensures Select(OnlyAttached, FinishEvents(parts, ids, now)) == Select(OnlyAttached, parts)
    decreases |ids|
  {
    if ids != [] {
      ElsewhereUntouched(parts, FinishThinkingFor(ids[0], now), OnlyAttached);
      SelectFinished(FinishEvent(parts, ids[0], now), ids[1..], now);
    }
  }

  lemma AttachmentsUntouched(parts: seq<Part>, m: Mutation)
    requires WellTyped(m) && !m.Attach?
    ensures Select(OnlyAttached, Mutate(parts, m)) == Select(OnlyAttached, parts)
  {
    if m.FinishThinking? {
      SelectFinished(parts, EventIDs(parts), m.now);
    } else if m.SetToolCalls? {
      SelectJoin(OnlyAttached, Select(NotCalls, parts), m.calls);
      SelectCalls(m.calls);
      SelectTwice(NotCalls, parts);
    } else if m.ResetStreamed? {
      SelectTwice(OnlyAttached, parts);
    } else {
      ElsewhereUntouched(parts, m, OnlyAttached);
    }
  }

  /**
  However much was streamed into a message, resetting it gives what resetting it before would
  have given: its attachments, in order, for the retry to start from.
  */
  lemma {:induction false} ResetForgetsTheStream(parts: seq<Part>, ms: seq<Mutation>)
    requires forall m | m in ms :: WellTyped(m) && !m.Attach?
    ensures Mutate(MutateAll(parts, ms), ResetStreamed) == Mutate(parts, ResetStreamed)
  {
    if ms != [] {
      ResetForgetsTheStream(parts, ms[..|ms| - 1]);
      AttachmentsUntouched(MutateAll(parts, ms[..|ms| - 1]), ms[|ms| - 1]);
    }
  }

  /** Text streamed in pieces is the text streamed at once. */
  lemma {:induction false} PiecesJoin(parts: seq<Part>, a: string, b: string)
    requires Canonical(parts)
    ensures Mutate(Mutate(parts, AppendContent(a)), AppendContent(b)) == Mutate(parts, AppendContent(a + b))
  {
    var i := First(parts, TextSlot);
    var u := Mutate(parts, AppendContent(a));
    MutateKeepsCanonical(parts, AppendContent(a));
    if i < |parts| {
      GrowsTheText(parts, a);
      GrowsTheText(parts, a + b);
      assert parts[i].text + (a + b) == parts[i].text + a + b;
    }
    FirstIs(u, TextSlot, i);
    GrowsTheText(u, b);
    assert u[i := Text(u[i].text + b)] == Mutate(parts, AppendContent(a + b));
  }
}
