/** What the todo reminder and the media detour do to any request, and what they leave alone. */
module PromptSteps {
  import opened Common
  import opened Messages
  import opened Histories
  import opened Prompts
  import opened PromptContent

  /* ---- The reminder ---- */

  /** The request with the reminder is the request with one user message more, right after the leading system messages. */
  lemma TodoPlaced(ms: seq<AIMessage>, reminder: string) returns (n: nat)
    ensures var r := WithTodo(ms, reminder);
            && n < |r| && r[n] == AIMessage(User, [TextPart(reminder)]) && r[..n] + r[n + 1..] == ms
            && (forall i | 0 <= i < n :: r[i].role == System) && (n + 1 < |r| ==> r[n + 1].role != System)
  {
    n := SystemPrefix(ms);
    assert ms[..n] + ms[n..] == ms;
  }

  /* ---- The detour ---- */

  /** The messages of one role, in order. */
  function OfRole(role: Role, ms: seq<AIMessage>): seq<AIMessage> {
    if ms == [] then [] else (if ms[0].role == role then [ms[0]] else []) + OfRole(role, ms[1..])
  }

  lemma {:induction false} OfRoleJoin(role: Role, a: seq<AIMessage>, b: seq<AIMessage>)
    ensures OfRole(role, a + b) == OfRole(role, a) + OfRole(role, b)
  {
    if a == [] {
      assert a + b == b;
    } else {
      HeadOfJoin(a, b);
      OfRoleJoin(role, a[1..], b);
      Reassociate(if a[0].role == role then [a[0]] else [], OfRole(role, a[1..]), OfRole(role, b));
    }
  }

  lemma OfRoleOne(role: Role, m: AIMessage)
    ensures OfRole(role, [m]) == if m.role == role then [m] else []
  {
    assert [m][1..] == [];
  }

  /** A tool result with media in it that can be sent as a file. */
  predicate Movable(c: Codec, p: AIPart, images: bool) {
    p.ToolResultPart? && p.output.OutMedia? && images && c.decode(p.output.media).Some?
  }

  /** From part a of a tool message to part b: media became a placeholder, or stays if it cannot be decoded. */
  predicate Replaced(c: Codec, a: AIPart, b: AIPart, images: bool) {
    if !a.ToolResultPart? || !a.output.OutMedia? then b == a
    else if !images then b == ToolResultPart(a.callID, OutText("[Image/media content not supported by this model]"))
    else if c.decode(a.output.media).None? then b == a
    else b == ToolResultPart(a.callID, OutText("[Image/media content loaded - see attached file]"))
  }

  /** Part by part. */
  ghost predicate ReplacedIn(c: Codec, a: AIMessage, b: AIMessage, images: bool) {
    && b.role == a.role && |b.content| == |a.content|
    && forall i | 0 <= i < |a.content| :: Replaced(c, a.content[i], b.content[i], images)
  }

  /** The file for a result with media in it. */
  function MediaFile(c: Codec, images: bool): AIPart -> seq<AIPart> {
    (p: AIPart) => if Movable(c, p, images)
                   then [FilePart(FileName(p.callID), c.decode(p.output.media).value, p.output.mediaType)] else []
  }

  function FileName(callID: string): string {
    "tool-result-" + callID
  }

  lemma {:induction false} ConvertedReplaces(c: Codec, content: seq<AIPart>, images: bool)
    ensures var t := ConvertedAll(c, content, images);
            |t| == |content| && forall i | 0 <= i < |content| :: Replaced(c, content[i], t[i], images)
  {
    if content != [] { ConvertedReplaces(c, content[1..], images); }
  }

  lemma FileIs(c: Codec, p: AIPart, images: bool)
    ensures AsFile(c, p, images) == MediaFile(c, images)(p)
  {
    if Movable(c, p, images) {
      assert AsFile(c, p, images) == [FilePart(FileName(p.callID), c.decode(p.output.media).value, p.output.mediaType)];
      assert MediaFile(c, images)(p) == [FilePart(FileName(p.callID), c.decode(p.output.media).value, p.output.mediaType)];
    } else {
      assert AsFile(c, p, images) == [];
      assert MediaFile(c, images)(p) == [];
    }
  }

  lemma {:induction false} DetachedIs(c: Codec, content: seq<AIPart>, images: bool)
    ensures Detached(c, content, images) == Flat(MediaFile(c, images), content)
    ensures Detached(c, content, images) == [] <==> forall p | p in content :: !Movable(c, p, images)
  {
    if content != [] {
      DetachedIs(c, content[1..], images);
      assert content == [content[0]] + content[1..];
      FileIs(c, content[0], images);
    }
  }

  /**
  A message that is not a tool message is passed on. A tool message keeps its results, part by part,
  with placeholders for media; and exactly if some of the media can be sent as a file, a user message
  follows that announces those files and holds them, in order.
  */
  lemma DetourOnParts(c: Codec, m: AIMessage, images: bool)
    ensures var r := Detour(c, m, images);
            && (m.role != Tool ==> r == [m])
            && (m.role == Tool ==>
                  && r != [] && ReplacedIn(c, m, r[0], images)
                  && (if exists p :: p in m.content && Movable(c, p, images)
                      then r[1..] == [AIMessage(User, [TextPart(MEDIA_HERE)] + Flat(MediaFile(c, images), m.content))]
                      else r[1..] == []))
  {
    if m.role == Tool {
      ConvertedReplaces(c, m.content, images);
      DetachedIs(c, m.content, images);
    }
  }

  lemma {:induction false} DetourJoin(c: Codec, a: seq<AIMessage>, b: seq<AIMessage>, images: bool)
    ensures DetourAll(c, a + b, images) == DetourAll(c, a, images) + DetourAll(c, b, images)
  {
    if a == [] {
      assert a + b == b;
    } else {
      HeadOfJoin(a, b);
      DetourJoin(c, a[1..], b, images);
      Reassociate(Detour(c, a[0], images), DetourAll(c, a[1..], images), DetourAll(c, b, images));
    }
  }

  lemma DetourOfRole(c: Codec, m: AIMessage, images: bool, role: Role)
    ensures role == Assistant || role == System ==> OfRole(role, Detour(c, m, images)) == if m.role == role then [m] else []
    ensures OfRole(Tool, Detour(c, m, images)) == if m.role == Tool then [Detour(c, m, images)[0]] else []
  {
    var r := Detour(c, m, images);
    DetourOnParts(c, m, images);
    OfRoleOne(role, m);
    OfRoleOne(Tool, m);
    if m.role == Tool {
      assert r == [r[0]] + r[1..];
      OfRoleJoin(role, [r[0]], r[1..]);
      OfRoleJoin(Tool, [r[0]], r[1..]);
      OfRoleOne(role, r[0]);
      OfRoleOne(Tool, r[0]);
      if r[1..] != [] {
        OfRoleOne(role, r[1..][0]);
        OfRoleOne(Tool, r[1..][0]);
      }
    }
  }

  lemma {:induction false} DetourAllOfRole(c: Codec, ms: seq<AIMessage>, images: bool, role: Role)
    requires role == Assistant || role == System
    ensures OfRole(role, DetourAll(c, ms, images)) == OfRole(role, ms)
  {
    if ms != [] {
      DetourAllOfRole(c, ms[1..], images, role);
      DetourOfRole(c, ms[0], images, role);
      OfRoleJoin(role, Detour(c, ms[0], images), DetourAll(c, ms[1..], images));
    }
  }

  lemma {:induction false} DetourAllTools(c: Codec, ms: seq<AIMessage>, images: bool)
    ensures var a, b := OfRole(Tool, ms), OfRole(Tool, DetourAll(c, ms, images));
            |b| == |a| && forall i | 0 <= i < |a| :: ReplacedIn(c, a[i], b[i], images)
  {
    if ms != [] {
      DetourAllTools(c, ms[1..], images);
      DetourOfRole(c, ms[0], images, Tool);
      DetourOnParts(c, ms[0], images);
      OfRoleJoin(Tool, Detour(c, ms[0], images), DetourAll(c, ms[1..], images));
    }
  }

  /**
  For every request: a provider that takes media in results gets the request unchanged. For another
  one the assistant and system messages are unchanged, in order, and the tool messages answer the same
  calls in the same places, with placeholders for media only.
  */
  lemma DetourChangesMediaOnly(c: Codec, ms: seq<AIMessage>, model: Model)
    ensures var r := Workaround(c, ms, model);
            && (model.mediaInResults ==> r == ms)
            && OfRole(Assistant, r) == OfRole(Assistant, ms) && OfRole(System, r) == OfRole(System, ms)
            && (!model.mediaInResults ==>
                  var a, b := OfRole(Tool, ms), OfRole(Tool, r);
                  |b| == |a| && forall i | 0 <= i < |a| :: ReplacedIn(c, a[i], b[i], model.supportsImages))
  {
    DetourAllOfRole(c, ms, model.supportsImages, Assistant);
    DetourAllOfRole(c, ms, model.supportsImages, System);
    DetourAllTools(c, ms, model.supportsImages);
  }

  /* ---- Both steps ---- */

  lemma {:induction false} InIsOfRole<B>(role: Role, f: AIPart -> seq<B>, ms: seq<AIMessage>)
    ensures In(role, f, ms) == In(role, f, OfRole(role, ms))
  {
    if ms != [] {
      InIsOfRole(role, f, ms[1..]);
      InJoin(role, f, if ms[0].role == role then [ms[0]] else [], OfRole(role, ms[1..]));
      InOne(role, f, ms[0]);
    }
  }

  lemma TodoKeepsAssistants<B>(f: AIPart -> seq<B>, ms: seq<AIMessage>, reminder: string)
    ensures In(Assistant, f, WithTodo(ms, reminder)) == In(Assistant, f, ms)
  {
    var n, todo := SystemPrefix(ms), AIMessage(User, [TextPart(reminder)]);
    InJoin(Assistant, f, ms[..n] + [todo], ms[n..]);
    InJoin(Assistant, f, ms[..n], [todo]);
    InOne(Assistant, f, todo);
    InJoin(Assistant, f, ms[..n], ms[n..]);
    assert ms[..n] + ms[n..] == ms;
  }

  lemma DetourKeepsAssistants<B>(f: AIPart -> seq<B>, c: Codec, ms: seq<AIMessage>, model: Model)
    ensures In(Assistant, f, Workaround(c, ms, model)) == In(Assistant, f, ms)
  {
    DetourAllOfRole(c, ms, model.supportsImages, Assistant);
    InIsOfRole(Assistant, f, ms);
    InIsOfRole(Assistant, f, DetourAll(c, ms, model.supportsImages));
  }

  /** Whatever is found in a request's assistant messages, with any projection, both steps leave as it is. */
  lemma StepsKeepAssistants<B>(f: AIPart -> seq<B>, c: Codec, ms: seq<AIMessage>, model: Model, reminder: string)
    ensures In(Assistant, f, Workaround(c, WithTodo(ms, reminder), model)) == In(Assistant, f, ms)
  {
    TodoKeepsAssistants(f, ms, reminder);
    DetourKeepsAssistants(f, c, WithTodo(ms, reminder), model);
  }

  /** So what assistants said, called and thought is in the request that goes out. */
  lemma RequestSaysWhatWasSaid(c: Codec, msgs: seq<Msg>, model: Model, reminder: string)
    requires Prepare(c, msgs, model).Some? && c.trim("") == ""
    requires forall m | m in msgs && m.role == Assistant :: Canonical(m.parts)
    ensures var r := Workaround(c, WithTodo(Prepare(c, msgs, model).value, reminder), model);
            && In(Assistant, TextOf, r) == Flat(Said(c), msgs) && In(Assistant, CallOf, r) == Flat(Called, msgs)
            && In(Assistant, ThoughtOf, r) == Flat(Thinking(model), msgs)
  {
    var ms := Prepare(c, msgs, model).value;
    TextsAreSent(c, msgs, model);
    CallsAndThoughtsAreSent(c, msgs, model);
    StepsKeepAssistants(TextOf, c, ms, model, reminder);
    StepsKeepAssistants(CallOf, c, ms, model, reminder);
    StepsKeepAssistants(ThoughtOf, c, ms, model, reminder);
  }
}
