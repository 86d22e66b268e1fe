/** Tool calls and results stay closed under each other, from the stored messages to the request. */
module PromptClosure {
  import opened Common
  import opened Messages
  import opened Histories
  import opened Prompts

  function CallsIn(content: seq<AIPart>): set<string> {
    set p | p in content && p.ToolCallPart? :: p.id
  }

  function ResultsIn(content: seq<AIPart>): set<string> {
    set p | p in content && p.ToolResultPart? :: p.callID
  }

  function EmittedCalls(ms: seq<AIMessage>): set<string> {
    set m, x | m in ms && x in CallsIn(m.content) :: x
  }

  function EmittedResults(ms: seq<AIMessage>): set<string> {
    set m, x | m in ms && x in ResultsIn(m.content) :: x
  }

  /** The IDs of the calls and those of the results are the same. */
  predicate Closed(ms: seq<AIMessage>) {
    EmittedCalls(ms) == EmittedResults(ms)
  }

  lemma Joined(a: seq<AIMessage>, b: seq<AIMessage>)
    ensures EmittedCalls(a + b) == EmittedCalls(a) + EmittedCalls(b)
    ensures EmittedResults(a + b) == EmittedResults(a) + EmittedResults(b)
  {
    assert forall m :: m in a + b <==> m in a || m in b;
  }

  lemma Single(m: AIMessage)
    ensures EmittedCalls([m]) == CallsIn(m.content) && EmittedResults([m]) == ResultsIn(m.content)
  {
    assert m in [m];
  }

  lemma ContentJoined(a: seq<AIPart>, b: seq<AIPart>)
    ensures CallsIn(a + b) == CallsIn(a) + CallsIn(b) && ResultsIn(a + b) == ResultsIn(a) + ResultsIn(b)
  {
    assert forall p :: p in a + b <==> p in a || p in b;
  }

  lemma FirstAndRest(parts: seq<Part>)
    requires parts != []
    ensures CallIDs(parts) == CallIDs(parts[1..]) + if parts[0].ToolCall? then {parts[0].id} else {}
    ensures ResultIDs(parts) == ResultIDs(parts[1..]) + if parts[0].ToolResult? then {parts[0].callID} else {}
  {
    assert parts == [parts[0]] + parts[1..];
  }

  /* ---- One message ---- */

  lemma {:induction false} AssistantEmits(c: Codec, parts: seq<Part>)
    ensures CallsIn(AssistantParts(c, parts)) == CallIDs(parts) && ResultsIn(AssistantParts(c, parts)) == {}
  {
    if parts != [] {
      AssistantEmits(c, parts[1..]);
      ContentJoined(AssistantPart(c, parts[0]), AssistantParts(c, parts[1..]));
      FirstAndRest(parts);
      assert parts[0].ToolCall? ==> AssistantPart(c, parts[0])[0] in AssistantPart(c, parts[0]);
    }
  }

  lemma {:induction false} StrippedKeepsCalls(parts: seq<Part>)
    ensures CallIDs(Stripped(parts)) == CallIDs(parts)
  {
    if parts != [] {
      StrippedKeepsCalls(parts[1..]);
      FirstAndRest(parts);
      FirstAndRest(Stripped(parts));
      assert Stripped(parts)[1..] == Stripped(parts[1..]);
    }
  }

  lemma {:induction false} ToolEmits(c: Codec, parts: seq<Part>, calls: set<string>)
    ensures var content := KnownOnly(ToolParts(c, parts), calls);
            CallsIn(content) == {} && ResultsIn(content) == ResultIDs(parts) * calls
  {
    if parts != [] {
      ToolEmits(c, parts[1..], calls);
      FirstAndRest(parts);
      var rest := ToolParts(c, parts[1..]);
      if parts[0].ToolResult? {
        var head := ToolResultPart(parts[0].callID, OutputOf(c, parts[0]));
        assert ([head] + rest)[1..] == rest;
        ContentJoined(if head.callID in calls then [head] else [], KnownOnly(rest, calls));
        assert head in [head];
      } else {
        assert [] + rest == rest;
      }
    }
  }

  lemma {:induction false} SyntheticEmits(parts: seq<Part>, results: set<string>)
    ensures CallsIn(Synthetic(parts, results)) == {} && ResultsIn(Synthetic(parts, results)) == CallIDs(parts) - results
  {
    if parts != [] {
      SyntheticEmits(parts[1..], results);
      FirstAndRest(parts);
      if parts[0].ToolCall? && parts[0].id !in results {
        var head := ToolResultPart(parts[0].id, OutError(INTERRUPTED));
        ContentJoined([head], Synthetic(parts[1..], results));
        assert head in [head];
      } else {
        assert [] + Synthetic(parts[1..], results) == Synthetic(parts[1..], results);
      }
    }
  }

  lemma {:induction false} UserEmits(parts: seq<Part>)
    ensures CallsIn(Files(parts)) == {} && ResultsIn(Files(parts)) == {}
  {
    if parts != [] {
      UserEmits(parts[1..]);
      assert forall p :: p in Files(parts) ==> p.FilePart? || p in Files(parts[1..]);
    }
  }

  lemma {:induction false} WithoutFilesIs(content: seq<AIPart>)
    ensures forall p :: p in WithoutFiles(content) <==> p in content && !p.FilePart?
  {
    if content != [] { WithoutFilesIs(content[1..]); }
  }

  lemma MessageOfEmits(role: Role, content: seq<AIPart>)
    ensures EmittedCalls(MessageOf(role, content)) == CallsIn(content)
    ensures EmittedResults(MessageOf(role, content)) == ResultsIn(content)
  {
    if content != [] { Single(AIMessage(role, content)); }
  }

  lemma UserMessageEmits(c: Codec, m: Msg, model: Model, calls: set<string>, results: set<string>)
    requires Replayed(m) && m.role == User
    ensures EmittedCalls(Render(c, m, model, calls, results)) == {} && EmittedResults(Render(c, m, model, calls, results)) == {}
  {
    var content := UserParts(c, m.parts);
    UserEmits(m.parts);
    ContentJoined(if c.userText(m.parts) != "" then [TextPart(c.userText(m.parts))] else [], Files(m.parts));
    WithoutFilesIs(content);
    Single(AIMessage(User, if model.supportsImages then content else WithoutFiles(content)));
  }

  lemma AssistantMessageEmits(c: Codec, m: Msg, model: Model, calls: set<string>, results: set<string>)
    requires Replayed(m) && m.role == Assistant
    ensures EmittedCalls(Render(c, m, model, calls, results)) == CallIDs(m.parts)
    ensures EmittedResults(Render(c, m, model, calls, results)) == CallIDs(m.parts) - results
  {
    var n := ForModel(m, model);
    StrippedKeepsCalls(m.parts);
    AssistantEmits(c, n.parts);
    SyntheticEmits(n.parts, results);
    Single(AIMessage(Assistant, AssistantParts(c, n.parts)));
    MessageOfEmits(Tool, Synthetic(n.parts, results));
    Joined([AIMessage(Assistant, AssistantParts(c, n.parts))], MessageOf(Tool, Synthetic(n.parts, results)));
  }

  /** What one stored message contributes to the calls and to the results of the request. */
  lemma RenderEmits(c: Codec, m: Msg, model: Model, calls: set<string>, results: set<string>)
    ensures EmittedCalls(Render(c, m, model, calls, results)) == if m.role == Assistant then CallIDs(m.parts) else {}
    ensures EmittedResults(Render(c, m, model, calls, results)) ==
            if m.role == Assistant then CallIDs(m.parts) - results
            else if m.role == Tool then ResultIDs(m.parts) * calls else {}
  {
    if Replayed(m) {
      match m.role
      case User => UserMessageEmits(c, m, model, calls, results);
      case Assistant => AssistantMessageEmits(c, m, model, calls, results);
      case Tool =>
        ToolEmits(c, m.parts, calls);
        MessageOfEmits(Tool, KnownOnly(ToolParts(c, m.parts), calls));
      case System =>
    } else {
      assert m.parts == [] ==> CallIDs(m.parts) == {} && ResultIDs(m.parts) == {};
    }
  }

  /* ---- The whole history ---- */

  lemma KnownJoined(msgs: seq<Msg>)
    requires msgs != []
    ensures KnownCalls(msgs) == KnownCalls(msgs[1..]) + if msgs[0].role == Assistant then CallIDs(msgs[0].parts) else {}
    ensures KnownResults(msgs) == KnownResults(msgs[1..]) + if msgs[0].role == Tool then ResultIDs(msgs[0].parts) else {}
  {
    assert msgs == [msgs[0]] + msgs[1..];
  }

  lemma Distributes(k: set<string>, l: set<string>, r: set<string>, q: set<string>, calls: set<string>, results: set<string>)
    ensures (k + l - results) + (r + q) * calls == ((k - results) + r * calls) + ((l - results) + q * calls)
  {
  }

  lemma RenderFirst(c: Codec, msgs: seq<Msg>, model: Model, calls: set<string>, results: set<string>)
    requires msgs != []
    ensures var r, rest := RenderAll(c, msgs, model, calls, results), RenderAll(c, msgs[1..], model, calls, results);
            var k := if msgs[0].role == Assistant then CallIDs(msgs[0].parts) else {};
            var q := if msgs[0].role == Tool then ResultIDs(msgs[0].parts) else {};
            EmittedCalls(r) == EmittedCalls(rest) + k && EmittedResults(r) == EmittedResults(rest) + ((k - results) + q * calls)
  {
    RenderEmits(c, msgs[0], model, calls, results);
    Joined(Render(c, msgs[0], model, calls, results), RenderAll(c, msgs[1..], model, calls, results));
  }

  lemma {:induction false} RenderAllEmits(c: Codec, msgs: seq<Msg>, model: Model, calls: set<string>, results: set<string>)
    ensures var r := RenderAll(c, msgs, model, calls, results);
            && EmittedCalls(r) == KnownCalls(msgs)
            && EmittedResults(r) == (KnownCalls(msgs) - results) + KnownResults(msgs) * calls
  {
    if msgs != [] {
      RenderAllEmits(c, msgs[1..], model, calls, results);
      RenderFirst(c, msgs, model, calls, results);
      KnownJoined(msgs);
      Distributes(KnownCalls(msgs[1..]), if msgs[0].role == Assistant then CallIDs(msgs[0].parts) else {},
                  KnownResults(msgs[1..]), if msgs[0].role == Tool then ResultIDs(msgs[0].parts) else {}, calls, results);
    }
  }

  /**
  After a successful preparation the tool calls in the request are those of the assistant
  messages, and exactly those have results in it.
  */
  lemma PreparedIsClosed(c: Codec, msgs: seq<Msg>, model: Model)
    requires Prepare(c, msgs, model).Some?
    ensures var r := Prepare(c, msgs, model).value;
            EmittedCalls(r) == KnownCalls(msgs) && EmittedResults(r) == KnownCalls(msgs)
  {
    RenderAllEmits(c, msgs, model, KnownCalls(msgs), KnownResults(msgs));
  }

  lemma Inserted(a: seq<AIMessage>, m: AIMessage, b: seq<AIMessage>)
    requires CallsIn(m.content) == {} && ResultsIn(m.content) == {}
    ensures EmittedCalls(a + [m] + b) == EmittedCalls(a + b) && EmittedResults(a + [m] + b) == EmittedResults(a + b)
  {
    Single(m);
    Joined(a, [m]);
    Joined(a + [m], b);
    Joined(a, b);
  }

  lemma TodoEmitsTheSame(ms: seq<AIMessage>, reminder: string)
    ensures EmittedCalls(WithTodo(ms, reminder)) == EmittedCalls(ms) && EmittedResults(WithTodo(ms, reminder)) == EmittedResults(ms)
  {
    var n := SystemPrefix(ms);
    Inserted(ms[..n], AIMessage(User, [TextPart(reminder)]), ms[n..]);
    assert ms == ms[..n] + ms[n..];
  }

  lemma {:induction false} ConvertedEmits(c: Codec, content: seq<AIPart>, images: bool)
    ensures CallsIn(ConvertedAll(c, content, images)) == CallsIn(content)
    ensures ResultsIn(ConvertedAll(c, content, images)) == ResultsIn(content)
  {
    if content != [] {
      var head, rest := Converted(c, content[0], images), ConvertedAll(c, content[1..], images);
      ConvertedEmits(c, content[1..], images);
      ContentJoined([head], rest);
      ContentJoined([content[0]], content[1..]);
      assert content == [content[0]] + content[1..];
      assert head in [head] && content[0] in [content[0]];
    }
  }

  lemma {:induction false} DetachedAreFiles(c: Codec, content: seq<AIPart>, images: bool)
    ensures forall p | p in Detached(c, content, images) :: p.FilePart?
  {
    if content != [] { DetachedAreFiles(c, content[1..], images); }
  }

  lemma DetourEmits(c: Codec, m: AIMessage, images: bool)
    ensures EmittedCalls(Detour(c, m, images)) == CallsIn(m.content) && EmittedResults(Detour(c, m, images)) == ResultsIn(m.content)
  {
    Single(m);
    if m.role == Tool {
      var t := AIMessage(Tool, ConvertedAll(c, m.content, images));
      var files := Detached(c, m.content, images);
      var u := AIMessage(User, [TextPart(MEDIA_HERE)] + files);
      ConvertedEmits(c, m.content, images);
      DetachedAreFiles(c, m.content, images);
      Single(t);
      Single(u);
      assert CallsIn(u.content) == {} && ResultsIn(u.content) == {};
      Joined([t], [u]);
      assert [t] + [] == [t];
    }
  }

  lemma {:induction false} DetourAllEmits(c: Codec, ms: seq<AIMessage>, images: bool)
    ensures EmittedCalls(DetourAll(c, ms, images)) == EmittedCalls(ms) && EmittedResults(DetourAll(c, ms, images)) == EmittedResults(ms)
  {
    if ms != [] {
      DetourAllEmits(c, ms[1..], images);
      DetourEmits(c, ms[0], images);
      Joined(Detour(c, ms[0], images), DetourAll(c, ms[1..], images));
      Joined([ms[0]], ms[1..]);
      Single(ms[0]);
      assert ms == [ms[0]] + ms[1..];
    }
  }

  /** The todo reminder and the media detour keep any request closed, and what it calls. */
  lemma StepsKeepClosure(c: Codec, ms: seq<AIMessage>, model: Model, reminder: string)
    ensures var r := Workaround(c, WithTodo(ms, reminder), model);
            EmittedCalls(r) == EmittedCalls(ms) && EmittedResults(r) == EmittedResults(ms) && (Closed(r) <==> Closed(ms))
  {
    TodoEmitsTheSame(ms, reminder);
    DetourAllEmits(c, WithTodo(ms, reminder), model.supportsImages);
  }

  /** For every history: once prepared, reminded of its todos and rid of media results, it is closed. */
  lemma RequestIsClosed(c: Codec, msgs: seq<Msg>, model: Model, reminder: string)
    requires Prepare(c, msgs, model).Some?
    ensures Closed(Workaround(c, WithTodo(Prepare(c, msgs, model).value, reminder), model))
  {
    PreparedIsClosed(c, msgs, model);
    StepsKeepClosure(c, Prepare(c, msgs, model).value, model, reminder);
  }
}
