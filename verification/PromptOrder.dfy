/** What a request keeps in order: reasoning items once each, synthetic results in place, media as files. */
module PromptOrder {
  import opened Common
  import opened Messages
  import opened Histories
  import opened Prompts
  import opened PromptClosure

  /* ---- Reasoning items ---- */

  function PartItems(content: seq<AIPart>): seq<string> {
    if content == [] then []
    else (if content[0].ReasoningPart? && content[0].responses.Some? && content[0].responses.value.itemID != ""
          then [content[0].responses.value.itemID] else []) + PartItems(content[1..])
  }

  /** The Responses reasoning items of a request, in order. */
  function EmittedItems(ms: seq<AIMessage>): seq<string> {
    if ms == [] then [] else PartItems(ms[0].content) + EmittedItems(ms[1..])
  }

  lemma {:induction false} PartItemsJoin(a: seq<AIPart>, b: seq<AIPart>)
    ensures PartItems(a + b) == PartItems(a) + PartItems(b)
  {
    if a == [] {
      assert a + b == b;
    } else {
      var head := if a[0].ReasoningPart? && a[0].responses.Some? && a[0].responses.value.itemID != ""
                  then [a[0].responses.value.itemID] else [];
      HeadOfJoin(a, b);
      PartItemsJoin(a[1..], b);
      Reassociate(head, PartItems(a[1..]), PartItems(b));
    }
  }

  lemma {:induction false} ItemsJoin(a: seq<AIMessage>, b: seq<AIMessage>)
    ensures EmittedItems(a + b) == EmittedItems(a) + EmittedItems(b)
  {
    if a == [] {
      assert a + b == b;
    } else {
      HeadOfJoin(a, b);
      ItemsJoin(a[1..], b);
      Reassociate(PartItems(a[0].content), EmittedItems(a[1..]), EmittedItems(b));
    }
  }

  lemma OneMessageItems(m: AIMessage)
    ensures EmittedItems([m]) == PartItems(m.content)
  {
    assert [m][1..] == [];
  }

  lemma {:induction false} AssistantItems(c: Codec, parts: seq<Part>)
    ensures PartItems(AssistantParts(c, parts)) == ItemIDs(parts)
  {
    if parts != [] {
      AssistantItems(c, parts[1..]);
      var head := AssistantPart(c, parts[0]);
      PartItemsJoin(head, AssistantParts(c, parts[1..]));
      assert head != [] ==> head == [head[0]] && head[1..] == [];
    }
  }

  lemma {:induction false} NoItems(content: seq<AIPart>)
    requires forall p | p in content :: !p.ReasoningPart?
    ensures PartItems(content) == []
  {
    if content != [] { NoItems(content[1..]); }
  }

  lemma {:induction false} ToolContent(c: Codec, parts: seq<Part>, calls: set<string>, results: set<string>)
    ensures forall p | p in ToolParts(c, parts) :: p.ToolResultPart? && (IsMedia(p) ==> c.decode(p.output.media).Some?)
    ensures forall p | p in Synthetic(parts, results) :: p.ToolResultPart? && !IsMedia(p)
  {
    if parts != [] { ToolContent(c, parts[1..], calls, results); }
  }

  lemma {:induction false} KnownOnlyIs(content: seq<AIPart>, calls: set<string>)
    ensures forall p :: p in KnownOnly(content, calls) <==> p in content && (p.ToolResultPart? ==> p.callID in calls)
  {
    if content != [] { KnownOnlyIs(content[1..], calls); }
  }

  lemma {:induction false} FilesContent(parts: seq<Part>)
    ensures forall p | p in Files(parts) :: p.FilePart?
  {
    if parts != [] { FilesContent(parts[1..]); }
  }

  lemma UserContent(c: Codec, parts: seq<Part>)
    ensures forall p | p in UserParts(c, parts) :: p.TextPart? || p.FilePart?
    ensures forall p | p in WithoutFiles(UserParts(c, parts)) :: p.TextPart?
  {
    FilesContent(parts);
    WithoutFilesIs(UserParts(c, parts));
  }

  lemma UserItems(c: Codec, m: Msg, model: Model, calls: set<string>, results: set<string>)
    requires Replayed(m) && m.role == User
    ensures EmittedItems(Render(c, m, model, calls, results)) == []
  {
    var content := if model.supportsImages then UserParts(c, m.parts) else WithoutFiles(UserParts(c, m.parts));
    UserContent(c, m.parts);
    NoItems(content);
    OneMessageItems(AIMessage(User, content));
  }

  lemma ToolItems(content: seq<AIPart>)
    requires forall p | p in content :: p.ToolResultPart?
    ensures EmittedItems(MessageOf(Tool, content)) == []
  {
    NoItems(content);
    OneMessageItems(AIMessage(Tool, content));
  }

  lemma RenderItems(c: Codec, m: Msg, model: Model, calls: set<string>, results: set<string>)
    ensures EmittedItems(Render(c, m, model, calls, results)) ==
            if Replayed(m) && m.role == Assistant then ItemIDs(ForModel(m, model).parts) else []
  {
    if Replayed(m) {
      var n := ForModel(m, model);
      match m.role
      case User => UserItems(c, m, model, calls, results);
      case Assistant =>
        var first := AIMessage(Assistant, AssistantParts(c, n.parts));
        AssistantItems(c, n.parts);
        OneMessageItems(first);
        ToolContent(c, n.parts, calls, results);
        ToolItems(Synthetic(n.parts, results));
        ItemsJoin([first], MessageOf(Tool, Synthetic(n.parts, results)));
      case Tool =>
        ToolContent(c, m.parts, calls, results);
        KnownOnlyIs(ToolParts(c, m.parts), calls);
        ToolItems(KnownOnly(ToolParts(c, m.parts), calls));
      case System =>
    }
  }

  lemma SubsequenceJoin<T>(a: seq<T>, p: seq<T>, b: seq<T>)
    requires Subsequence(a, b)
    ensures Subsequence(p + a, p + b) && Subsequence(a, p + b)
  {
    SubsequencePrepend(p, a, b);
    SubsequenceSkip(p, a, b);
  }

  lemma {:induction false} ItemsAreChecked(c: Codec, msgs: seq<Msg>, model: Model, calls: set<string>, results: set<string>)
    ensures Subsequence(EmittedItems(RenderAll(c, msgs, model, calls, results)), Items(msgs, model))
  {
    if msgs != [] {
      var a, b := Render(c, msgs[0], model, calls, results), RenderAll(c, msgs[1..], model, calls, results);
      var checked := Checked(msgs[0], model);
      ItemsAreChecked(c, msgs[1..], model, calls, results);
      RenderItems(c, msgs[0], model, calls, results);
      ItemsJoin(a, b);
      SubsequenceJoin(EmittedItems(b), checked, Items(msgs[1..], model));
      assert [] + EmittedItems(b) == EmittedItems(b);
    }
  }

  lemma {:induction false} SubsequenceMembers<T>(a: seq<T>, b: seq<T>, x: T)
    requires Subsequence(a, b) && x in a
    ensures x in b
    decreases |b|
  {
    if a[0] == b[0] && Subsequence(a[1..], b[1..]) {
      if x != a[0] { SubsequenceMembers(a[1..], b[1..], x); }
    } else {
      SubsequenceMembers(a, b[1..], x);
    }
  }

  lemma {:induction false} SubsequenceDistinct<T>(a: seq<T>, b: seq<T>)
    requires Subsequence(a, b) && Distinct(b)
    ensures Distinct(a)
    decreases |b|
  {
    if a != [] {
      assert forall i, j | 0 <= i < j < |b[1..]| :: b[1..][i] == b[i + 1] && b[1..][j] == b[j + 1];
      if a[0] == b[0] && Subsequence(a[1..], b[1..]) {
        SubsequenceDistinct(a[1..], b[1..]);
        forall i, j | 0 <= i < j < |a| ensures a[i] != a[j] {
          if i == 0 {
            SubsequenceMembers(a[1..], b[1..], a[1..][j - 1]);
          } else {
            assert a[1..][i - 1] != a[1..][j - 1];
          }
        }
      } else {
        SubsequenceDistinct(a, b[1..]);
      }
    }
  }

  /** A request that is not refused replays every Responses reasoning item at most once. */
  lemma ItemsReplayedOnce(c: Codec, msgs: seq<Msg>, model: Model)
    requires Prepare(c, msgs, model).Some?
    ensures Distinct(EmittedItems(Prepare(c, msgs, model).value))
  {
    ItemsAreChecked(c, msgs, model, KnownCalls(msgs), KnownResults(msgs));
    SubsequenceDistinct(EmittedItems(Replay(c, msgs, model)), Items(msgs, model));
  }

  /** The items that are looked at but not sent: those of messages that are not the assistant's. */
  function UnsentItems(msgs: seq<Msg>, model: Model): seq<string> {
    if msgs == [] then []
    else (if msgs[0].role == Assistant then [] else Checked(msgs[0], model)) + UnsentItems(msgs[1..], model)
  }

  lemma {:induction false} CheckedAreSentOrNot(c: Codec, msgs: seq<Msg>, model: Model, calls: set<string>, results: set<string>)
    ensures multiset(Items(msgs, model)) ==
            multiset(EmittedItems(RenderAll(c, msgs, model, calls, results)) + UnsentItems(msgs, model))
  {
    if msgs != [] {
      CheckedAreSentOrNot(c, msgs[1..], model, calls, results);
      RenderItems(c, msgs[0], model, calls, results);
      ItemsJoin(Render(c, msgs[0], model, calls, results), RenderAll(c, msgs[1..], model, calls, results));
    }
  }

  lemma DistinctHead<T>(s: seq<T>)
    requires s != []
    ensures Distinct(s) <==> s[0] !in s[1..] && Distinct(s[1..])
  {
    assert forall j | 0 < j < |s| :: s[j] == s[1..][j - 1];
    if s[0] !in s[1..] && Distinct(s[1..]) {
      forall i, j | 0 <= i < j < |s| ensures s[i] != s[j] {
        assert s[j] in s[1..] && (i > 0 ==> s[1..][i - 1] != s[1..][j - 1]);
      }
    }
    if Distinct(s) {
      forall i, j | 0 <= i < j < |s[1..]| ensures s[1..][i] != s[1..][j] { assert s[i + 1] != s[j + 1]; }
    }
  }

  /** Being distinct is a matter of how often each element occurs. */
  lemma {:induction false} DistinctIsCount<T>(s: seq<T>)
    ensures Distinct(s) <==> forall x :: multiset(s)[x] <= 1
  {
    if s != [] {
      var rest := s[1..];
      DistinctIsCount(rest);
      DistinctHead(s);
      assert s == [s[0]] + rest;
      assert multiset(s) == multiset{s[0]} + multiset(rest);
      if s[0] in rest {
        assert multiset(s)[s[0]] > 1;
      } else {
        assert forall x :: multiset(s)[x] == if x == s[0] then 1 else multiset(rest)[x];
      }
    }
  }

  /** A request is refused exactly if an item occurs twice among those it would send and those it leaves out. */
  lemma RefusedIff(c: Codec, msgs: seq<Msg>, model: Model)
    ensures Prepare(c, msgs, model).None? <==>
            !Distinct(EmittedItems(Replay(c, msgs, model)) + UnsentItems(msgs, model))
  {
    CheckedAreSentOrNot(c, msgs, model, KnownCalls(msgs), KnownResults(msgs));
    DistinctIsCount(Items(msgs, model));
    DistinctIsCount(EmittedItems(Replay(c, msgs, model)) + UnsentItems(msgs, model));
  }

  lemma {:induction false} NothingUnsent(msgs: seq<Msg>, model: Model)
    requires forall m | m in msgs && m.role != Assistant :: ItemIDs(m.parts) == []
    ensures UnsentItems(msgs, model) == []
  {
    if msgs != [] { NothingUnsent(msgs[1..], model); }
  }

  /** So for histories whose reasoning is the assistant's it is refused exactly if an item would be sent twice. */
  lemma RefusedIffRepeated(c: Codec, msgs: seq<Msg>, model: Model)
    requires forall m | m in msgs && m.role != Assistant :: ItemIDs(m.parts) == []
    ensures Prepare(c, msgs, model).None? <==> !Distinct(EmittedItems(Replay(c, msgs, model)))
  {
    RefusedIff(c, msgs, model);
    NothingUnsent(msgs, model);
    assert EmittedItems(Replay(c, msgs, model)) + [] == EmittedItems(Replay(c, msgs, model));
  }

  /* ---- Synthetic results ---- */

  /** The unanswered calls of message i are answered by message i + 1. */
  ghost predicate AnsweredNext(ms: seq<AIMessage>, i: nat, results: set<string>) {
    i < |ms| && ms[i].role == Assistant && !(CallsIn(ms[i].content) <= results) ==>
      && i + 1 < |ms| && ms[i + 1].role == Tool
      && CallsIn(ms[i].content) - results <= ResultsIn(ms[i + 1].content)
  }

  lemma RenderAnswers(c: Codec, m: Msg, model: Model, calls: set<string>, results: set<string>, i: nat)
    ensures AnsweredNext(Render(c, m, model, calls, results), i, results)
  {
    if Replayed(m) && m.role == Assistant {
      var n := ForModel(m, model);
      AssistantEmits(c, n.parts);
      SyntheticEmits(n.parts, results);
      var first, s := AIMessage(Assistant, AssistantParts(c, n.parts)), Synthetic(n.parts, results);
      if !(CallIDs(n.parts) <= results) {
        var id :| id in CallIDs(n.parts) && id !in results;
        assert id in ResultsIn(s);
        assert s != [];
        assert Render(c, m, model, calls, results) == [first] + [AIMessage(Tool, s)];
      } else {
        assert forall j | 0 < j < |Render(c, m, model, calls, results)| ::
            Render(c, m, model, calls, results)[j] == MessageOf(Tool, s)[j - 1];
      }
    }
  }

  /**
  A call that was interrupted is answered at once: the message right after the assistant message
  holds a result for each of its calls that no tool message answers.
  */
  lemma {:induction false} SyntheticFollows(c: Codec, msgs: seq<Msg>, model: Model, calls: set<string>, results: set<string>, i: nat)
    ensures AnsweredNext(RenderAll(c, msgs, model, calls, results), i, results)
  {
    if msgs != [] {
      var a, b := Render(c, msgs[0], model, calls, results), RenderAll(c, msgs[1..], model, calls, results);
      if i < |a| {
        RenderAnswers(c, msgs[0], model, calls, results, i);
      } else {
        SyntheticFollows(c, msgs[1..], model, calls, results, i - |a|);
        assert i < |a + b| ==> (a + b)[i] == b[i - |a|];
        assert i + 1 < |a + b| ==> (a + b)[i + 1] == b[i + 1 - |a|];
      }
    }
  }

  /** The todo reminder never comes between such a message and its results. */
  lemma TodoSeparatesNothing(ms: seq<AIMessage>, reminder: string, results: set<string>, i: nat)
    requires forall j :: AnsweredNext(ms, j, results)
    ensures AnsweredNext(WithTodo(ms, reminder), i, results)
  {
    var n, r := SystemPrefix(ms), WithTodo(ms, reminder);
    assert |r| == |ms| + 1;
    if n < i < |r| {
      assert r[i] == ms[i - 1] && (i < |ms| ==> r[i + 1] == ms[i]);
      assert AnsweredNext(ms, i - 1, results);
    } else if i < n {
      assert r[i] == ms[i];
    }
  }

  /* ---- Media ---- */

  /** The media in a request that were left as they are. */
  ghost predicate NoMedia(ms: seq<AIMessage>) {
    forall m, p | m in ms && p in m.content :: !IsMedia(p)
  }

  /** Media only in tool messages, and decodable. */
  ghost predicate Decodable(c: Codec, ms: seq<AIMessage>) {
    forall m, p | m in ms && p in m.content && IsMedia(p) :: m.role == Tool && c.decode(p.output.media).Some?
  }

  lemma {:induction false} AssistantContent(c: Codec, parts: seq<Part>)
    ensures forall p | p in AssistantParts(c, parts) :: !IsMedia(p)
  {
    if parts != [] { AssistantContent(c, parts[1..]); }
  }

  lemma ContentDecodable(c: Codec, content: seq<AIPart>)
    requires forall p | p in content :: IsMedia(p) ==> c.decode(p.output.media).Some?
    ensures Decodable(c, MessageOf(Tool, content))
  {
  }

  lemma JoinedDecodable(c: Codec, m: AIMessage, content: seq<AIPart>)
    requires forall p | p in m.content :: !IsMedia(p)
    requires forall p | p in content :: !IsMedia(p)
    ensures Decodable(c, [m] + MessageOf(Tool, content))
  {
    ContentDecodable(c, content);
    assert forall x | x in [m] + MessageOf(Tool, content) :: x == m || x in MessageOf(Tool, content);
  }

  lemma AssistantDecodable(c: Codec, parts: seq<Part>, calls: set<string>, results: set<string>)
    ensures Decodable(c, [AIMessage(Assistant, AssistantParts(c, parts))] + MessageOf(Tool, Synthetic(parts, results)))
  {
    AssistantContent(c, parts);
    ToolContent(c, parts, calls, results);
    JoinedDecodable(c, AIMessage(Assistant, AssistantParts(c, parts)), Synthetic(parts, results));
  }

  lemma ToolDecodable(c: Codec, parts: seq<Part>, calls: set<string>, results: set<string>)
    ensures Decodable(c, MessageOf(Tool, KnownOnly(ToolParts(c, parts), calls)))
  {
    ToolContent(c, parts, calls, results);
    KnownOnlyIs(ToolParts(c, parts), calls);
    ContentDecodable(c, KnownOnly(ToolParts(c, parts), calls));
  }

  lemma UserDecodable(c: Codec, parts: seq<Part>, model: Model)
    ensures Decodable(c, [AIMessage(User, if model.supportsImages then UserParts(c, parts) else WithoutFiles(UserParts(c, parts)))])
  {
    UserContent(c, parts);
  }

  lemma RenderDecodable(c: Codec, m: Msg, model: Model, calls: set<string>, results: set<string>)
    ensures Decodable(c, Render(c, m, model, calls, results))
  {
    if Replayed(m) {
      match m.role
      case Assistant => AssistantDecodable(c, ForModel(m, model).parts, calls, results);
      case Tool => ToolDecodable(c, m.parts, calls, results);
      case User => UserDecodable(c, m.parts, model);
      case System =>
    }
  }

  lemma {:induction false} RenderAllDecodable(c: Codec, msgs: seq<Msg>, model: Model, calls: set<string>, results: set<string>)
    ensures Decodable(c, RenderAll(c, msgs, model, calls, results))
  {
    if msgs != [] {
      RenderDecodable(c, msgs[0], model, calls, results);
      RenderAllDecodable(c, msgs[1..], model, calls, results);
    }
  }

  lemma {:induction false} ConvertedIs(c: Codec, content: seq<AIPart>, images: bool)
    ensures forall p | p in ConvertedAll(c, content, images) :: exists q | q in content :: p == Converted(c, q, images)
  {
    if content != [] { ConvertedIs(c, content[1..], images); }
  }

  lemma DetourLeavesNoMedia(c: Codec, m: AIMessage, images: bool)
    requires Decodable(c, [m])
    ensures NoMedia(Detour(c, m, images))
  {
    assert m in [m];
    ConvertedIs(c, m.content, images);
    DetachedAreFiles(c, m.content, images);
  }

  lemma {:induction false} DetourAllLeavesNoMedia(c: Codec, ms: seq<AIMessage>, images: bool)
    requires Decodable(c, ms)
    ensures NoMedia(DetourAll(c, ms, images))
  {
    if ms != [] {
      assert forall m | m in [ms[0]] :: m in ms;
      DetourLeavesNoMedia(c, ms[0], images);
      DetourAllLeavesNoMedia(c, ms[1..], images);
    }
  }

  lemma TodoKeepsDecodable(c: Codec, ms: seq<AIMessage>, reminder: string)
    requires Decodable(c, ms)
    ensures Decodable(c, WithTodo(ms, reminder))
  {
    var m := AIMessage(User, [TextPart(reminder)]);
    assert forall x | x in WithTodo(ms, reminder) :: x in ms || x == m;
  }

  /** A provider that takes no media in tool results gets none, for every history. */
  lemma NoMediaInResults(c: Codec, msgs: seq<Msg>, model: Model, reminder: string)
    requires Prepare(c, msgs, model).Some? && !model.mediaInResults
    ensures NoMedia(Workaround(c, WithTodo(Prepare(c, msgs, model).value, reminder), model))
  {
    var r := Replay(c, msgs, model);
    RenderAllDecodable(c, msgs, model, KnownCalls(msgs), KnownResults(msgs));
    TodoKeepsDecodable(c, r, reminder);
    DetourAllLeavesNoMedia(c, WithTodo(r, reminder), model.supportsImages);
  }

  lemma {:induction false} DetachedHolds(c: Codec, content: seq<AIPart>, p: AIPart)
    requires p in content && IsMedia(p) && c.decode(p.output.media).Some?
    ensures FilePart("tool-result-" + p.callID, c.decode(p.output.media).value, p.output.mediaType) in Detached(c, content, true)
  {
    if p != content[0] { DetachedHolds(c, content[1..], p); }
  }

  /** What was media in a tool result is, decoded, a file of the user message that follows it. */
  lemma MediaBecomesAFile(c: Codec, m: AIMessage, p: AIPart)
    requires m.role == Tool && p in m.content && IsMedia(p) && c.decode(p.output.media).Some?
    ensures var r := Detour(c, m, true);
            && |r| == 2 && r[0].role == Tool && r[1].role == User
            && FilePart("tool-result-" + p.callID, c.decode(p.output.media).value, p.output.mediaType) in r[1].content
  {
    DetachedHolds(c, m.content, p);
  }
}
