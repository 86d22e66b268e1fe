/**
What was said is sent: the texts, thoughts, tool calls and results of a request, in order, read off the
stored history by projections that know nothing of how messages are rendered.
*/
module PromptContent {
  import opened Common
  import opened Messages
  import opened Histories
  import opened Prompts

  /* ---- Projections ---- */

  function Flat<A, B>(f: A -> seq<B>, xs: seq<A>): seq<B> {
    if xs == [] then [] else f(xs[0]) + Flat(f, xs[1..])
  }

  /** What f finds in the messages of one role. */
  function In<B>(role: Role, f: AIPart -> seq<B>, ms: seq<AIMessage>): seq<B> {
    if ms == [] then [] else (if ms[0].role == role then Flat(f, ms[0].content) else []) + In(role, f, ms[1..])
  }

  lemma {:induction false} FlatJoin<A, B>(f: A -> seq<B>, a: seq<A>, b: seq<A>)
    ensures Flat(f, a + b) == Flat(f, a) + Flat(f, b)
  {
    if a == [] {
      assert a + b == b;
    } else {
      HeadOfJoin(a, b);
      FlatJoin(f, a[1..], b);
      Reassociate(f(a[0]), Flat(f, a[1..]), Flat(f, b));
    }
  }

  lemma {:induction false} InJoin<B>(role: Role, f: AIPart -> seq<B>, a: seq<AIMessage>, b: seq<AIMessage>)
    ensures In(role, f, a + b) == In(role, f, a) + In(role, f, b)
  {
    if a == [] {
      assert a + b == b;
    } else {
      HeadOfJoin(a, b);
      InJoin(role, f, a[1..], b);
      Reassociate(if a[0].role == role then Flat(f, a[0].content) else [], In(role, f, a[1..]), In(role, f, b));
    }
  }

  lemma InOne<B>(role: Role, f: AIPart -> seq<B>, m: AIMessage)
    ensures In(role, f, [m]) == if m.role == role then Flat(f, m.content) else []
  {
    assert [m][1..] == [];
  }

  lemma FlatOne<A, B>(f: A -> seq<B>, x: A)
    ensures Flat(f, [x]) == f(x)
  {
    assert [x][1..] == [];
  }

  lemma {:induction false} FlatEmpty<A, B>(f: A -> seq<B>, xs: seq<A>)
    requires forall x | x in xs :: f(x) == []
    ensures Flat(f, xs) == []
  {
    if xs != [] { FlatEmpty(f, xs[1..]); }
  }

  lemma {:induction false} FlatSame<A, B>(f: A -> seq<B>, g: A -> seq<B>, xs: seq<A>)
    requires forall x | x in xs :: f(x) == g(x)
    ensures Flat(f, xs) == Flat(g, xs)
  {
    if xs != [] { FlatSame(f, g, xs[1..]); }
  }

  /** g leaves out some of what f finds; nothing is missing exactly if it leaves out nothing. */
  lemma {:induction false} FlatLess<A, B>(f: A -> seq<B>, g: A -> seq<B>, xs: seq<A>)
    requires forall x | x in xs :: g(x) == f(x) || g(x) == []
    ensures |Flat(g, xs)| <= |Flat(f, xs)|
    ensures Flat(g, xs) == Flat(f, xs) <==> forall x | x in xs :: g(x) == f(x)
  {
    if xs != [] {
      FlatLess(f, g, xs[1..]);
      assert xs == [xs[0]] + xs[1..];
      if g(xs[0]) == f(xs[0]) {
        assert Flat(f, xs)[|f(xs[0])|..] == Flat(f, xs[1..]) && Flat(g, xs)[|f(xs[0])|..] == Flat(g, xs[1..]);
      } else {
        assert |Flat(g, xs)| < |Flat(f, xs)|;
      }
    }
  }

  /* ---- What a request says ---- */

  datatype Thought = Thought(thinking: string, signature: string, thoughtSignature: string, toolID: string,
                             responses: Option<ResponsesData>)

  datatype Invocation = Invocation(id: string, name: string, input: string, providerExecuted: bool)

  datatype Reply = Reply(callID: string, output: Output)

  datatype Kind = Words | Reason | Invoke

  function TextOf(p: AIPart): seq<string> {
    if p.TextPart? then [p.text] else []
  }

  function ThoughtOf(p: AIPart): seq<Thought> {
    if !p.ReasoningPart? then []
    else [Thought(p.thinking, if p.signature.Some? then p.signature.value else "",
                  if p.thought.Some? then p.thought.value.0 else "", if p.thought.Some? then p.thought.value.1 else "",
                  p.responses)]
  }

  function CallOf(p: AIPart): seq<Invocation> {
    if p.ToolCallPart? then [Invocation(p.id, p.name, p.input, p.providerExecuted)] else []
  }

  function KindOf(p: AIPart): seq<Kind> {
    match p
    case TextPart(_) => [Words]
    case ReasoningPart(_, _, _, _) => [Reason]
    case ToolCallPart(_, _, _, _) => [Invoke]
    case _ => []
  }

  function ReplyOf(p: AIPart): seq<Reply> {
    if p.ToolResultPart? then [Reply(p.callID, p.output)] else []
  }

  function FileOf(p: AIPart): seq<AIPart> {
    if p.FilePart? then [p] else []
  }

  /* ---- What a history says ---- */

  /** Text that is left after trimming. */
  function TextIn(c: Codec): Part -> seq<string> {
    (p: Part) => if p.Text? && c.trim(p.text) != "" then [c.trim(p.text)] else []
  }

  /** foreign: of another model, whose Responses data is not for this one. */
  function ThoughtIn(foreign: bool): Part -> seq<Thought> {
    (p: Part) =>
      if p.Reasoning? && (p.thinking != "" || p.signature != "" || p.thoughtSignature != "" || (p.responses.Some? && !foreign))
      then [Thought(p.thinking, p.signature, p.thoughtSignature, if p.thoughtSignature != "" then p.toolID else "",
                    if foreign then None else p.responses)]
      else []
  }

  function CallIn(p: Part): seq<Invocation> {
    if p.ToolCall? then [Invocation(p.id, p.name, p.input, p.providerExecuted)] else []
  }

  function KindIn(c: Codec, foreign: bool): Part -> seq<Kind> {
    (p: Part) => if TextIn(c)(p) != [] then [Words] else if ThoughtIn(foreign)(p) != [] then [Reason]
                 else if CallIn(p) != [] then [Invoke] else []
  }

  /** The result of a known call: its error, its media if base64 round-trips, or its text. */
  function ReplyIn(c: Codec, calls: set<string>): Part -> seq<Reply> {
    (p: Part) =>
      if !p.ToolResult? || p.callID !in calls then []
      else if p.isError then [Reply(p.callID, OutError(p.content))]
      else if p.data == "" then [Reply(p.callID, OutText(p.content))]
      else if c.decode(p.data).Some? && c.encode(c.decode(p.data).value) == p.data
      then [Reply(p.callID, OutMedia(p.data, p.mimeType))]
      else [Reply(p.callID, OutText("[Image data could not be loaded]"))]
  }

  /** What stands in for the result that a call never got. */
  function MissingIn(results: set<string>): Part -> seq<Reply> {
    (p: Part) => if p.ToolCall? && p.id !in results then [Reply(p.id, OutError(INTERRUPTED))] else []
  }

  /** An attachment that is not text, which is part of the user's text already. */
  function FileIn(p: Part): seq<AIPart> {
    if p.Binary? && !("text/" <= p.mimeType) then [FilePart(p.path, p.bytes, p.mimeType)] else []
  }

  predicate Foreign(m: Msg, model: Model) {
    model.provider != "" && (m.provider != model.provider || m.model != model.id)
  }

  /** An assistant message that was cancelled before it returned anything: no call, no thought, an empty first text. */
  ghost predicate Blank(m: Msg) {
    && m.role == Assistant
    && (forall p | p in m.parts :: !p.ToolCall? && !p.Reasoning?)
    && (forall i | 0 <= i < |m.parts| && m.parts[i].Text? && (forall j | 0 <= j < i :: !m.parts[j].Text?) :: m.parts[i].text == "")
  }

  function Said(c: Codec): Msg -> seq<string> {
    (m: Msg) => if m.role == Assistant then Flat(TextIn(c), m.parts) else []
  }

  function Thinking(model: Model): Msg -> seq<Thought> {
    (m: Msg) => if m.role == Assistant then Flat(ThoughtIn(Foreign(m, model)), m.parts) else []
  }

  function Called(m: Msg): seq<Invocation> {
    if m.role == Assistant then Flat(CallIn, m.parts) else []
  }

  function Kinds(c: Codec, model: Model): Msg -> seq<Kind> {
    (m: Msg) => if m.role == Assistant then Flat(KindIn(c, Foreign(m, model)), m.parts) else []
  }

  function Replied(c: Codec, calls: set<string>, results: set<string>): Msg -> seq<Reply> {
    (m: Msg) => if m.role == Tool then Flat(ReplyIn(c, calls), m.parts)
                else if m.role == Assistant then Flat(MissingIn(results), m.parts) else []
  }

  function UserSaid(c: Codec): Msg -> seq<string> {
    (m: Msg) => if m.role == User && m.parts != [] && c.userText(m.parts) != "" then [c.userText(m.parts)] else []
  }

  function UserFiles(images: bool): Msg -> seq<AIPart> {
    (m: Msg) => if m.role == User && images then Flat(FileIn, m.parts) else []
  }

  /* ---- One message ---- */

  lemma BlankIff(m: Msg)
    ensures Replayed(m) <==> m.parts != [] && !Blank(m)
  {
    var t, f := First(m.parts, TextSlot), FirstReasoning(m.parts);
    assert forall p | p in m.parts && p.Reasoning? :: f < |m.parts|;
    assert CallIDs(m.parts) == {} <==> forall p | p in m.parts :: !p.ToolCall? by {
      if p :| p in m.parts && p.ToolCall? { assert p.id in CallIDs(m.parts); }
    }
    assert forall i | 0 <= i < |m.parts| && m.parts[i].Text? && (forall j | 0 <= j < i :: !m.parts[j].Text?) :: i == t;
  }

  lemma {:induction false} FlatAssistant<B>(f: AIPart -> seq<B>, g: Part -> seq<B>, c: Codec, parts: seq<Part>)
    requires forall p: Part :: Flat(f, AssistantPart(c, p)) == g(p)
    ensures Flat(f, AssistantParts(c, parts)) == Flat(g, parts)
  {
    if parts != [] {
      FlatAssistant(f, g, c, parts[1..]);
      FlatJoin(f, AssistantPart(c, parts[0]), AssistantParts(c, parts[1..]));
    }
  }

  lemma AssistantPartIsOne<B>(f: AIPart -> seq<B>, c: Codec, p: Part)
    ensures |AssistantPart(c, p)| <= 1
    ensures Flat(f, AssistantPart(c, p)) == if AssistantPart(c, p) == [] then [] else f(AssistantPart(c, p)[0])
  {
    if AssistantPart(c, p) != [] {
      assert AssistantPart(c, p) == [AssistantPart(c, p)[0]];
      FlatOne(f, AssistantPart(c, p)[0]);
    }
  }

  /** A part as another model gets it. */
  function Shown(p: Part, foreign: bool): Part {
    if p.Reasoning? && foreign then p.(responses := None) else p
  }

  lemma {:induction false} FlatStripped<B>(g: Part -> seq<B>, h: Part -> seq<B>, parts: seq<Part>)
    requires forall p: Part :: g(Shown(p, true)) == h(p)
    ensures Flat(g, Stripped(parts)) == Flat(h, parts)
  {
    if parts != [] {
      FlatStripped(g, h, parts[1..]);
      assert Stripped(parts)[0] == Shown(parts[0], true) && Stripped(parts)[1..] == Stripped(parts[1..]);
    }
  }

  /** What f finds in what an assistant message becomes. */
  lemma FlatForModel<B>(f: AIPart -> seq<B>, h: Part -> seq<B>, c: Codec, m: Msg, model: Model)
    requires m.role == Assistant
    requires forall p: Part :: Flat(f, AssistantPart(c, Shown(p, Foreign(m, model)))) == h(p)
    ensures Flat(f, AssistantParts(c, ForModel(m, model).parts)) == Flat(h, m.parts)
  {
    var g := (p: Part) => Flat(f, AssistantPart(c, p));
    FlatAssistant(f, g, c, ForModel(m, model).parts);
    if Foreign(m, model) {
      FlatStripped(g, h, m.parts);
    } else {
      assert forall p: Part :: Shown(p, false) == p;
      assert forall p: Part :: g(p) == Flat(f, AssistantPart(c, Shown(p, Foreign(m, model))));
      FlatSame(g, h, m.parts);
    }
  }

  lemma InMessageOf<B>(role: Role, f: AIPart -> seq<B>, r: Role, content: seq<AIPart>)
    ensures In(role, f, MessageOf(r, content)) == if r == role then Flat(f, content) else []
  {
    if content != [] { InOne(role, f, AIMessage(r, content)); }
  }

  lemma InAssistant<B>(role: Role, f: AIPart -> seq<B>, c: Codec, m: Msg, model: Model, calls: set<string>, results: set<string>)
    requires Replayed(m) && m.role == Assistant
    ensures In(role, f, Render(c, m, model, calls, results)) ==
            if role == Assistant then Flat(f, AssistantParts(c, ForModel(m, model).parts))
            else if role == Tool then Flat(f, Synthetic(m.parts, results)) else []
  {
    var first, made := AIMessage(Assistant, AssistantParts(c, ForModel(m, model).parts)), MessageOf(Tool, Synthetic(m.parts, results));
    SyntheticStripped(m.parts, results);
    assert Render(c, m, model, calls, results) == [first] + made;
    InJoin(role, f, [first], made);
    InOne(role, f, first);
    InMessageOf(role, f, Tool, Synthetic(m.parts, results));
  }

  lemma InUser<B>(role: Role, f: AIPart -> seq<B>, c: Codec, m: Msg, model: Model, calls: set<string>, results: set<string>)
    requires Replayed(m) && m.role == User
    ensures In(role, f, Render(c, m, model, calls, results)) ==
            if role != User then []
            else Flat(f, if model.supportsImages then UserParts(c, m.parts) else WithoutFiles(UserParts(c, m.parts)))
  {
    InOne(role, f, AIMessage(User, if model.supportsImages then UserParts(c, m.parts) else WithoutFiles(UserParts(c, m.parts))));
  }

  lemma InTool<B>(role: Role, f: AIPart -> seq<B>, c: Codec, m: Msg, model: Model, calls: set<string>, results: set<string>)
    requires Replayed(m) && m.role == Tool
    ensures In(role, f, Render(c, m, model, calls, results)) ==
            if role == Tool then Flat(f, KnownOnly(ToolParts(c, m.parts), calls)) else []
  {
    InMessageOf(role, f, Tool, KnownOnly(ToolParts(c, m.parts), calls));
  }

  /** Nothing of a role comes from a stored message of another one, but for the results made for calls. */
  lemma InOther<B>(role: Role, f: AIPart -> seq<B>, c: Codec, m: Msg, model: Model, calls: set<string>, results: set<string>)
    requires !Replayed(m) || (m.role != role && !(role == Tool && m.role == Assistant))
    ensures In(role, f, Render(c, m, model, calls, results)) == []
  {
    if Replayed(m) {
      if m.role == Assistant { InAssistant(role, f, c, m, model, calls, results); }
      if m.role == User { InUser(role, f, c, m, model, calls, results); }
      if m.role == Tool { InTool(role, f, c, m, model, calls, results); }
    }
  }

  lemma {:induction false} SyntheticStripped(parts: seq<Part>, results: set<string>)
    ensures Synthetic(Stripped(parts), results) == Synthetic(parts, results)
  {
    if parts != [] {
      SyntheticStripped(parts[1..], results);
      assert Stripped(parts)[1..] == Stripped(parts[1..]);
    }
  }

  lemma {:induction false} InRenderAll<B>(role: Role, f: AIPart -> seq<B>, g: Msg -> seq<B>, c: Codec, msgs: seq<Msg>, model: Model,
                                          calls: set<string>, results: set<string>)
    requires forall m | m in msgs :: In(role, f, Render(c, m, model, calls, results)) == g(m)
    ensures In(role, f, RenderAll(c, msgs, model, calls, results)) == Flat(g, msgs)
  {
    if msgs != [] {
      InRenderAll(role, f, g, c, msgs[1..], model, calls, results);
      InJoin(role, f, Render(c, msgs[0], model, calls, results), RenderAll(c, msgs[1..], model, calls, results));
    }
  }

  /* ---- Assistants ---- */

  lemma TextShown(c: Codec, p: Part, foreign: bool)
    ensures Flat(TextOf, AssistantPart(c, Shown(p, foreign))) == TextIn(c)(p)
  {
    AssistantPartIsOne(TextOf, c, Shown(p, foreign));
  }

  lemma ThoughtShown(c: Codec, p: Part, foreign: bool)
    ensures Flat(ThoughtOf, AssistantPart(c, Shown(p, foreign))) == ThoughtIn(foreign)(p)
  {
    AssistantPartIsOne(ThoughtOf, c, Shown(p, foreign));
  }

  lemma CallShown(c: Codec, p: Part, foreign: bool)
    ensures Flat(CallOf, AssistantPart(c, Shown(p, foreign))) == CallIn(p)
  {
    AssistantPartIsOne(CallOf, c, Shown(p, foreign));
  }

  lemma KindShown(c: Codec, p: Part, foreign: bool)
    ensures Flat(KindOf, AssistantPart(c, Shown(p, foreign))) == KindIn(c, foreign)(p)
  {
    AssistantPartIsOne(KindOf, c, Shown(p, foreign));
    var t, h := TextIn(c)(p), ThoughtIn(foreign)(p);
    assert KindIn(c, foreign)(p) == if t != [] then [Words] else if h != [] then [Reason] else if CallIn(p) != [] then [Invoke] else [];
  }

  lemma BlankSaysNoMore(m: Msg, model: Model)
    requires !Replayed(m)
    ensures Called(m) == [] && Thinking(model)(m) == []
  {
    BlankIff(m);
    if m.role == Assistant {
      FlatEmpty(CallIn, m.parts);
      FlatEmpty(ThoughtIn(Foreign(m, model)), m.parts);
    }
  }

  lemma CallsRendered(c: Codec, m: Msg, model: Model, calls: set<string>, results: set<string>)
    ensures In(Assistant, CallOf, Render(c, m, model, calls, results)) == Called(m)
  {
    if Replayed(m) && m.role == Assistant {
      InAssistant(Assistant, CallOf, c, m, model, calls, results);
    } else {
      InOther(Assistant, CallOf, c, m, model, calls, results);
    }
    if !Replayed(m) {
      BlankSaysNoMore(m, model);
    } else if m.role == Assistant {
      forall p: Part ensures Flat(CallOf, AssistantPart(c, Shown(p, Foreign(m, model)))) == CallIn(p) {
        CallShown(c, p, Foreign(m, model));
      }
      FlatForModel(CallOf, CallIn, c, m, model);
    }
  }

  lemma ThoughtsRendered(c: Codec, m: Msg, model: Model, calls: set<string>, results: set<string>)
    ensures In(Assistant, ThoughtOf, Render(c, m, model, calls, results)) == Thinking(model)(m)
  {
    if Replayed(m) && m.role == Assistant {
      InAssistant(Assistant, ThoughtOf, c, m, model, calls, results);
    } else {
      InOther(Assistant, ThoughtOf, c, m, model, calls, results);
    }
    if !Replayed(m) {
      BlankSaysNoMore(m, model);
    } else if m.role == Assistant {
      var h := ThoughtIn(Foreign(m, model));
      forall p: Part ensures Flat(ThoughtOf, AssistantPart(c, Shown(p, Foreign(m, model)))) == h(p) {
        ThoughtShown(c, p, Foreign(m, model));
      }
      FlatForModel(ThoughtOf, h, c, m, model);
    }
  }

  /**
  Every tool call of every assistant message is sent, in order, with its ID, name and input, and every
  thought that holds anything, with its signatures, and with its Responses data if it is this model's.
  */
  lemma CallsAndThoughtsAreSent(c: Codec, msgs: seq<Msg>, model: Model)
    requires Prepare(c, msgs, model).Some?
    ensures In(Assistant, CallOf, Prepare(c, msgs, model).value) == Flat(Called, msgs)
    ensures In(Assistant, ThoughtOf, Prepare(c, msgs, model).value) == Flat(Thinking(model), msgs)
  {
    var calls, results := KnownCalls(msgs), KnownResults(msgs);
    forall m | m in msgs
      ensures In(Assistant, CallOf, Render(c, m, model, calls, results)) == Called(m)
      ensures In(Assistant, ThoughtOf, Render(c, m, model, calls, results)) == Thinking(model)(m)
    {
      CallsRendered(c, m, model, calls, results);
      ThoughtsRendered(c, m, model, calls, results);
    }
    InRenderAll(Assistant, CallOf, Called, c, msgs, model, calls, results);
    InRenderAll(Assistant, ThoughtOf, Thinking(model), c, msgs, model, calls, results);
  }

  function SaidUnlessBlank(c: Codec): Msg -> seq<string> {
    (m: Msg) => if Replayed(m) then Said(c)(m) else []
  }

  function KindsUnlessBlank(c: Codec, model: Model): Msg -> seq<Kind> {
    (m: Msg) => if Replayed(m) then Kinds(c, model)(m) else []
  }

  lemma SaidIs(c: Codec, m: Msg)
    ensures Said(c)(m) == if m.role == Assistant then Flat(TextIn(c), m.parts) else []
    ensures SaidUnlessBlank(c)(m) == if Replayed(m) then Said(c)(m) else []
  {
  }

  lemma KindsAre(c: Codec, m: Msg, model: Model)
    ensures Kinds(c, model)(m) == if m.role == Assistant then Flat(KindIn(c, Foreign(m, model)), m.parts) else []
    ensures KindsUnlessBlank(c, model)(m) == if Replayed(m) then Kinds(c, model)(m) else []
  {
  }

  lemma TextsRendered(c: Codec, m: Msg, model: Model, calls: set<string>, results: set<string>)
    ensures In(Assistant, TextOf, Render(c, m, model, calls, results)) == SaidUnlessBlank(c)(m)
  {
    if Replayed(m) && m.role == Assistant {
      InAssistant(Assistant, TextOf, c, m, model, calls, results);
    } else {
      InOther(Assistant, TextOf, c, m, model, calls, results);
    }
    SaidIs(c, m);
    if Replayed(m) && m.role == Assistant {
      var h := TextIn(c);
      forall p: Part ensures Flat(TextOf, AssistantPart(c, Shown(p, Foreign(m, model)))) == h(p) {
        TextShown(c, p, Foreign(m, model));
      }
      FlatForModel(TextOf, h, c, m, model);
    }
  }

  lemma KindsRendered(c: Codec, m: Msg, model: Model, calls: set<string>, results: set<string>)
    ensures In(Assistant, KindOf, Render(c, m, model, calls, results)) == KindsUnlessBlank(c, model)(m)
  {
    if Replayed(m) && m.role == Assistant {
      InAssistant(Assistant, KindOf, c, m, model, calls, results);
    } else {
      InOther(Assistant, KindOf, c, m, model, calls, results);
    }
    KindsAre(c, m, model);
    if Replayed(m) && m.role == Assistant {
      var h := KindIn(c, Foreign(m, model));
      forall p: Part ensures Flat(KindOf, AssistantPart(c, Shown(p, Foreign(m, model)))) == h(p) {
        KindShown(c, p, Foreign(m, model));
      }
      FlatForModel(KindOf, h, c, m, model);
    }
  }

  lemma RenderedTexts(c: Codec, msgs: seq<Msg>, model: Model)
    requires Prepare(c, msgs, model).Some?
    ensures In(Assistant, TextOf, Prepare(c, msgs, model).value) == Flat(SaidUnlessBlank(c), msgs)
    ensures In(Assistant, KindOf, Prepare(c, msgs, model).value) == Flat(KindsUnlessBlank(c, model), msgs)
  {
    var calls, results := KnownCalls(msgs), KnownResults(msgs);
    forall m | m in msgs
      ensures In(Assistant, TextOf, Render(c, m, model, calls, results)) == SaidUnlessBlank(c)(m)
      ensures In(Assistant, KindOf, Render(c, m, model, calls, results)) == KindsUnlessBlank(c, model)(m)
    {
      TextsRendered(c, m, model, calls, results);
      KindsRendered(c, m, model, calls, results);
    }
    InRenderAll(Assistant, TextOf, SaidUnlessBlank(c), c, msgs, model, calls, results);
    InRenderAll(Assistant, KindOf, KindsUnlessBlank(c, model), c, msgs, model, calls, results);
  }

  lemma {:induction false} KindsOfTexts(c: Codec, foreign: bool, parts: seq<Part>)
    requires forall p | p in parts :: !p.ToolCall? && !p.Reasoning?
    ensures |Flat(KindIn(c, foreign), parts)| == |Flat(TextIn(c), parts)|
  {
    if parts != [] { KindsOfTexts(c, foreign, parts[1..]); }
  }

  lemma BlankKinds(c: Codec, m: Msg, model: Model)
    requires !Replayed(m)
    ensures Kinds(c, model)(m) == [] <==> Said(c)(m) == []
  {
    BlankIff(m);
    if m.role == Assistant { KindsOfTexts(c, Foreign(m, model), m.parts); }
  }

  lemma SaidIff(c: Codec, msgs: seq<Msg>)
    ensures Flat(SaidUnlessBlank(c), msgs) == Flat(Said(c), msgs) <==> forall m | m in msgs && Blank(m) :: Said(c)(m) == []
  {
    forall m: Msg
      ensures SaidUnlessBlank(c)(m) == Said(c)(m) || SaidUnlessBlank(c)(m) == []
      ensures SaidUnlessBlank(c)(m) == Said(c)(m) <==> (Blank(m) ==> Said(c)(m) == [])
    {
      SaidIs(c, m);
      BlankIff(m);
      assert m.parts == [] ==> Flat(TextIn(c), m.parts) == [];
    }
    FlatLess(Said(c), SaidUnlessBlank(c), msgs);
  }

  lemma KindsIff(c: Codec, msgs: seq<Msg>, model: Model)
    ensures Flat(KindsUnlessBlank(c, model), msgs) == Flat(Kinds(c, model), msgs) <==>
            forall m | m in msgs && Blank(m) :: Said(c)(m) == []
  {
    forall m: Msg
      ensures KindsUnlessBlank(c, model)(m) == Kinds(c, model)(m) || KindsUnlessBlank(c, model)(m) == []
      ensures KindsUnlessBlank(c, model)(m) == Kinds(c, model)(m) <==> (Blank(m) ==> Said(c)(m) == [])
    {
      KindsAre(c, m, model);
      SaidIs(c, m);
      BlankIff(m);
      if !Replayed(m) { BlankKinds(c, m, model); }
      assert m.parts == [] ==> Flat(TextIn(c), m.parts) == [];
    }
    FlatLess(Kinds(c, model), KindsUnlessBlank(c, model), msgs);
  }

  /**
  The texts of a request's assistant messages are, in order, the trimmed texts of the history's, and
  stand in the same order among thoughts and calls, exactly if no message that counts as cancelled
  before it returned anything holds a text after all, behind an empty first one.
  */
  lemma TextsAreSentIff(c: Codec, msgs: seq<Msg>, model: Model)
    requires Prepare(c, msgs, model).Some?
    ensures In(Assistant, TextOf, Prepare(c, msgs, model).value) == Flat(Said(c), msgs) <==>
            forall m | m in msgs && Blank(m) :: Said(c)(m) == []
    ensures In(Assistant, KindOf, Prepare(c, msgs, model).value) == Flat(Kinds(c, model), msgs) <==>
            forall m | m in msgs && Blank(m) :: Said(c)(m) == []
  {
    RenderedTexts(c, msgs, model);
    SaidIff(c, msgs);
    KindsIff(c, msgs, model);
  }

  /** So all of it is sent when messages have one text each, as streamed ones have, and trimming nothing leaves nothing. */
  lemma TextsAreSent(c: Codec, msgs: seq<Msg>, model: Model)
    requires Prepare(c, msgs, model).Some? && c.trim("") == ""
    requires forall m | m in msgs && m.role == Assistant :: Canonical(m.parts)
    ensures In(Assistant, TextOf, Prepare(c, msgs, model).value) == Flat(Said(c), msgs)
    ensures In(Assistant, KindOf, Prepare(c, msgs, model).value) == Flat(Kinds(c, model), msgs)
  {
    forall m | m in msgs && Blank(m) ensures Said(c)(m) == [] {
      forall p | p in m.parts && p.Text? ensures p.text == "" {
        var i :| 0 <= i < |m.parts| && m.parts[i] == p;
        assert forall j | 0 <= j < i :: SlotOf(m.parts[j]) != TextSlot;
      }
      FlatEmpty(TextIn(c), m.parts);
    }
    TextsAreSentIff(c, msgs, model);
  }

  lemma {:induction false} NothingRendered(c: Codec, msgs: seq<Msg>, model: Model, calls: set<string>, results: set<string>)
    requires forall m | m in msgs :: !Replayed(m)
    ensures RenderAll(c, msgs, model, calls, results) == [] && Items(msgs, model) == []
  {
    if msgs != [] { NothingRendered(c, msgs[1..], model, calls, results); }
  }

  /** And a history of which a text is not sent. */
  lemma SecondTextIsNotSent(c: Codec, m: Msg, x: string, model: Model)
    requires m.role == Assistant && m.parts == [Text(""), Text(x)] && c.trim(x) != ""
    ensures Prepare(c, [m], model) == Some([]) && c.trim(x) in Flat(Said(c), [m])
  {
    assert m.parts[0].Text? && m.parts[0].text == "" && forall p | p in m.parts :: p.Text?;
    assert Blank(m);
    BlankIff(m);
    FlatOne(Said(c), m);
    SaidIs(c, m);
    assert m.parts == [Text("")] + [Text(x)];
    FlatJoin(TextIn(c), [Text("")], [Text(x)]);
    FlatOne(TextIn(c), Text(x));
    NothingRendered(c, [m], model, KnownCalls([m]), KnownResults([m]));
    assert Flat(TextIn(c), m.parts) == Flat(TextIn(c), [Text("")]) + [c.trim(x)];
  }

  /* ---- Tool results ---- */

  lemma {:induction false} RepliesKept(c: Codec, parts: seq<Part>, calls: set<string>)
    ensures Flat(ReplyOf, KnownOnly(ToolParts(c, parts), calls)) == Flat(ReplyIn(c, calls), parts)
  {
    if parts != [] {
      RepliesKept(c, parts[1..], calls);
      var rest := ToolParts(c, parts[1..]);
      if parts[0].ToolResult? {
        var head := ToolResultPart(parts[0].callID, OutputOf(c, parts[0]));
        assert ([head] + rest)[1..] == rest;
        FlatJoin(ReplyOf, if head.callID in calls then [head] else [], KnownOnly(rest, calls));
        FlatOne(ReplyOf, head);
      } else {
        assert [] + rest == rest;
      }
    }
  }

  lemma {:induction false} RepliesMade(parts: seq<Part>, results: set<string>)
    ensures Flat(ReplyOf, Synthetic(parts, results)) == Flat(MissingIn(results), parts)
  {
    if parts != [] {
      RepliesMade(parts[1..], results);
      if parts[0].ToolCall? && parts[0].id !in results {
        var made := ToolResultPart(parts[0].id, OutError(INTERRUPTED));
        FlatJoin(ReplyOf, [made], Synthetic(parts[1..], results));
        FlatOne(ReplyOf, made);
      } else {
        assert [] + Synthetic(parts[1..], results) == Synthetic(parts[1..], results);
      }
    }
  }

  lemma RepliesRendered(c: Codec, m: Msg, model: Model, calls: set<string>, results: set<string>)
    ensures In(Tool, ReplyOf, Render(c, m, model, calls, results)) == Replied(c, calls, results)(m)
  {
    if !Replayed(m) {
      InOther(Tool, ReplyOf, c, m, model, calls, results);
      BlankIff(m);
      if m.role == Assistant { FlatEmpty(MissingIn(results), m.parts); }
    } else if m.role == Assistant {
      InAssistant(Tool, ReplyOf, c, m, model, calls, results);
      RepliesMade(m.parts, results);
    } else if m.role == Tool {
      InTool(Tool, ReplyOf, c, m, model, calls, results);
      RepliesKept(c, m.parts, calls);
    } else {
      InOther(Tool, ReplyOf, c, m, model, calls, results);
    }
  }

  /**
  The tool results of a request are, in order: every stored result of a known call, with its error, its
  media or its text, and for every call without a stored result, where the call is, an error that says so.
  */
  lemma ResultsAreSent(c: Codec, msgs: seq<Msg>, model: Model)
    requires Prepare(c, msgs, model).Some?
    ensures In(Tool, ReplyOf, Prepare(c, msgs, model).value) == Flat(Replied(c, KnownCalls(msgs), KnownResults(msgs)), msgs)
  {
    var calls, results := KnownCalls(msgs), KnownResults(msgs);
    forall m | m in msgs ensures In(Tool, ReplyOf, Render(c, m, model, calls, results)) == Replied(c, calls, results)(m) {
      RepliesRendered(c, m, model, calls, results);
    }
    InRenderAll(Tool, ReplyOf, Replied(c, calls, results), c, msgs, model, calls, results);
  }

  /* ---- Users ---- */

  lemma {:induction false} FilesKept(parts: seq<Part>)
    ensures Flat(FileOf, Files(parts)) == Flat(FileIn, parts) && Flat(TextOf, Files(parts)) == []
  {
    if parts != [] {
      FilesKept(parts[1..]);
      var head := if parts[0].Binary? && !IsTextType(parts[0].mimeType)
                  then [FilePart(parts[0].path, parts[0].bytes, parts[0].mimeType)] else [];
      FlatJoin(FileOf, head, Files(parts[1..]));
      FlatJoin(TextOf, head, Files(parts[1..]));
      if head != [] { FlatOne(FileOf, head[0]); FlatOne(TextOf, head[0]); }
    }
  }

  lemma {:induction false} FilesGone(content: seq<AIPart>)
    ensures Flat(FileOf, WithoutFiles(content)) == [] && Flat(TextOf, WithoutFiles(content)) == Flat(TextOf, content)
  {
    if content != [] {
      FilesGone(content[1..]);
      var head := if content[0].FilePart? then [] else [content[0]];
      FlatJoin(FileOf, head, WithoutFiles(content[1..]));
      FlatJoin(TextOf, head, WithoutFiles(content[1..]));
      FlatOne(FileOf, content[0]);
      FlatOne(TextOf, content[0]);
    }
  }

  lemma UserTextIs(c: Codec, parts: seq<Part>)
    ensures Flat(TextOf, UserParts(c, parts)) == if c.userText(parts) != "" then [c.userText(parts)] else []
  {
    FilesKept(parts);
    if c.userText(parts) != "" {
      FlatJoin(TextOf, [TextPart(c.userText(parts))], Files(parts));
      FlatOne(TextOf, TextPart(c.userText(parts)));
    } else {
      assert [] + Files(parts) == Files(parts);
    }
  }

  lemma UserFilesAre(c: Codec, parts: seq<Part>)
    ensures Flat(FileOf, UserParts(c, parts)) == Flat(FileIn, parts)
  {
    FilesKept(parts);
    if c.userText(parts) != "" {
      FlatJoin(FileOf, [TextPart(c.userText(parts))], Files(parts));
      FlatOne(FileOf, TextPart(c.userText(parts)));
    } else {
      assert [] + Files(parts) == Files(parts);
    }
  }

  lemma UserTextRendered(c: Codec, m: Msg, model: Model, calls: set<string>, results: set<string>)
    ensures In(User, TextOf, Render(c, m, model, calls, results)) == UserSaid(c)(m)
  {
    if Replayed(m) && m.role == User {
      InUser(User, TextOf, c, m, model, calls, results);
      UserTextIs(c, m.parts);
      FilesGone(UserParts(c, m.parts));
    } else {
      InOther(User, TextOf, c, m, model, calls, results);
    }
  }

  lemma UserFilesRendered(c: Codec, m: Msg, model: Model, calls: set<string>, results: set<string>)
    ensures In(User, FileOf, Render(c, m, model, calls, results)) == UserFiles(model.supportsImages)(m)
  {
    if Replayed(m) && m.role == User {
      InUser(User, FileOf, c, m, model, calls, results);
      UserFilesAre(c, m.parts);
      FilesGone(UserParts(c, m.parts));
    } else {
      InOther(User, FileOf, c, m, model, calls, results);
      assert m.parts == [] ==> Flat(FileIn, m.parts) == [];
    }
  }

  /** The users' texts are sent, in order, and their files that are not text, if the model takes images. */
  lemma UsersAreSent(c: Codec, msgs: seq<Msg>, model: Model)
    requires Prepare(c, msgs, model).Some?
    ensures In(User, TextOf, Prepare(c, msgs, model).value) == Flat(UserSaid(c), msgs)
    ensures In(User, FileOf, Prepare(c, msgs, model).value) == Flat(UserFiles(model.supportsImages), msgs)
  {
    var calls, results := KnownCalls(msgs), KnownResults(msgs);
    forall m | m in msgs
      ensures In(User, TextOf, Render(c, m, model, calls, results)) == UserSaid(c)(m)
      ensures In(User, FileOf, Render(c, m, model, calls, results)) == UserFiles(model.supportsImages)(m)
    {
      UserTextRendered(c, m, model, calls, results);
      UserFilesRendered(c, m, model, calls, results);
    }
    InRenderAll(User, TextOf, UserSaid(c), c, msgs, model, calls, results);
    InRenderAll(User, FileOf, UserFiles(model.supportsImages), c, msgs, model, calls, results);
  }

  /** In a user message the text, if any, comes first. */
  ghost predicate TextFirst(m: AIMessage) {
    m.role == User ==> forall i | 0 < i < |m.content| :: !m.content[i].TextPart?
  }

  lemma {:induction false} NoTextAmong(parts: seq<Part>)
    ensures forall p | p in Files(parts) :: p.FilePart?
    ensures WithoutFiles(Files(parts)) == []
  {
    if parts != [] {
      NoTextAmong(parts[1..]);
      var head := if parts[0].Binary? && !IsTextType(parts[0].mimeType)
                  then [FilePart(parts[0].path, parts[0].bytes, parts[0].mimeType)] else [];
      if head != [] {
        assert (head + Files(parts[1..]))[1..] == Files(parts[1..]);
      } else {
        assert head + Files(parts[1..]) == Files(parts[1..]);
      }
    }
  }

  lemma UserTextFirst(c: Codec, parts: seq<Part>)
    ensures TextFirst(AIMessage(User, UserParts(c, parts))) && TextFirst(AIMessage(User, WithoutFiles(UserParts(c, parts))))
  {
    NoTextAmong(parts);
    var files := Files(parts);
    assert forall i | 0 <= i < |files| :: files[i] in files;
    if c.userText(parts) != "" {
      assert ([TextPart(c.userText(parts))] + files)[1..] == files;
    } else {
      assert UserParts(c, parts) == files;
    }
  }

  lemma {:induction false} UsersTextFirst(c: Codec, msgs: seq<Msg>, model: Model, calls: set<string>, results: set<string>)
    ensures forall m | m in RenderAll(c, msgs, model, calls, results) :: TextFirst(m)
  {
    if msgs != [] {
      UsersTextFirst(c, msgs[1..], model, calls, results);
      UserTextFirst(c, msgs[0].parts);
    }
  }
}
