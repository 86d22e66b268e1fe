/** The loops of preparePromptForModel and of the two steps after it, against what they are to compute. */
module PromptPreparation {
  import opened Common
  import opened Messages
  import opened Histories
  import opened Prompts
  import Loops = HistorySelections

  method CollectKnown(msgs: seq<Msg>) returns (calls: set<string>, results: set<string>)
    ensures calls == KnownCalls(msgs) && results == KnownResults(msgs)
  {
    calls, results := {}, {};
    var i := 0;
    while i < |msgs|
      invariant i <= |msgs| && calls + KnownCalls(msgs[i..]) == KnownCalls(msgs)
      invariant results + KnownResults(msgs[i..]) == KnownResults(msgs)
    {
      assert msgs[i..] == [msgs[i]] + msgs[i + 1..];
      if msgs[i].role == Assistant {
        var ids := Loops.CallsOf(msgs[i].parts);
        calls := calls + ids;
      } else if msgs[i].role == Tool {
        var ids := Loops.ResultsIn(msgs[i].parts);
        results := results + ids;
      }
      i := i + 1;
    }
  }

  /** collectResponsesItemIDs. ok: no item was seen before. */
  method CollectResponsesItemIDs(parts: seq<Part>, seen: seq<string>) returns (ok: bool, all: seq<string>)
    requires Distinct(seen)
    ensures ok <==> Distinct(seen + ItemIDs(parts))
    ensures ok ==> all == seen + ItemIDs(parts)
  {
    all := seen;
    var i := 0;
    while i < |parts|
      invariant i <= |parts| && Distinct(all) && all + ItemIDs(parts[i..]) == seen + ItemIDs(parts)
    {
      assert parts[i..][0] == parts[i] && parts[i..][1..] == parts[i + 1..];
      if parts[i].Reasoning? && parts[i].responses.Some? && parts[i].responses.value.itemID != "" {
        var id := parts[i].responses.value.itemID;
        Reassociate(all, [id], ItemIDs(parts[i + 1..]));
        if id in all {
          var j :| 0 <= j < |all| && all[j] == id;
          assert (seen + ItemIDs(parts))[j] == (seen + ItemIDs(parts))[|all|];
          return false, all;
        }
        all := all + [id];
      } else {
        Reassociate(all, [], ItemIDs(parts[i + 1..]));
      }
      i := i + 1;
    }
    assert all + [] == all;
    return true, all;
  }

  method WithoutResponsesReasoning(parts: seq<Part>) returns (clone: seq<Part>)
    ensures clone == Stripped(parts)
  {
    clone := parts;
    var i := 0;
    while i < |clone|
      invariant i <= |clone| == |parts| && clone[i..] == parts[i..]
      invariant clone[..i] + Stripped(parts[i..]) == Stripped(parts)
    {
      assert parts[i..][0] == parts[i] && parts[i..][1..] == parts[i + 1..] && clone[i] == clone[i..][0];
      ghost var was := clone;
      if clone[i].Reasoning? && clone[i].responses.Some? {
        clone := clone[i := clone[i].(responses := None)];
      }
      assert clone[..i + 1] == was[..i] + [clone[i]];
      Reassociate(was[..i], [clone[i]], Stripped(parts[i + 1..]));
      i := i + 1;
    }
    assert clone[..i] + [] == clone;
  }

  method FilterFileParts(content: seq<AIPart>) returns (filtered: seq<AIPart>)
    ensures filtered == WithoutFiles(content)
  {
    filtered := [];
    var i := 0;
    while i < |content|
      invariant i <= |content| && filtered + WithoutFiles(content[i..]) == WithoutFiles(content)
    {
      assert content[i..][0] == content[i] && content[i..][1..] == content[i + 1..];
      Reassociate(filtered, if content[i].FilePart? then [] else [content[i]], WithoutFiles(content[i + 1..]));
      if !content[i].FilePart? {
        filtered := filtered + [content[i]];
      }
      i := i + 1;
    }
    assert filtered + [] == filtered;
  }

  method FilterOrphanedToolResults(content: seq<AIPart>, known: set<string>) returns (kept: seq<AIPart>)
    ensures kept == KnownOnly(content, known)
  {
    kept := [];
    var i := 0;
    while i < |content|
      invariant i <= |content| && kept + KnownOnly(content[i..], known) == KnownOnly(content, known)
    {
      assert content[i..][0] == content[i] && content[i..][1..] == content[i + 1..];
      ghost var rest := KnownOnly(content[i + 1..], known);
      if !content[i].ToolResultPart? || content[i].callID in known {
        Reassociate(kept, [content[i]], rest);
        kept := kept + [content[i]];
      } else {
        assert [] + rest == rest;
      }
      i := i + 1;
    }
    assert kept + [] == kept;
  }

  method SyntheticToolResults(parts: seq<Part>, known: set<string>) returns (made: seq<AIPart>)
    ensures made == Synthetic(parts, known)
  {
    made := [];
    var i := 0;
    while i < |parts|
      invariant i <= |parts| && made + Synthetic(parts[i..], known) == Synthetic(parts, known)
    {
      assert parts[i..][0] == parts[i] && parts[i..][1..] == parts[i + 1..];
      if parts[i].ToolCall? && parts[i].id !in known {
        var result := ToolResultPart(parts[i].id, OutError(INTERRUPTED));
        Reassociate(made, [result], Synthetic(parts[i + 1..], known));
        made := made + [result];
      } else {
        Reassociate(made, [], Synthetic(parts[i + 1..], known));
        assert made + [] == made;
      }
      i := i + 1;
    }
    assert made + [] == made;
  }

  /** ToAIMessage's loop for an assistant. */
  method AssistantContent(c: Codec, parts: seq<Part>) returns (content: seq<AIPart>)
    ensures content == AssistantParts(c, parts)
  {
    content := [];
    var i := 0;
    while i < |parts|
      invariant i <= |parts| && content + AssistantParts(c, parts[i..]) == AssistantParts(c, parts)
    {
      assert parts[i..][0] == parts[i] && parts[i..][1..] == parts[i + 1..];
      Reassociate(content, AssistantPart(c, parts[i]), AssistantParts(c, parts[i + 1..]));
      content := content + AssistantPart(c, parts[i]);
      i := i + 1;
    }
    assert content + [] == content;
  }

  /** ToAIMessage's loop for a tool message. */
  method ToolContent(c: Codec, parts: seq<Part>) returns (content: seq<AIPart>)
    ensures content == ToolParts(c, parts)
  {
    content := [];
    var i := 0;
    while i < |parts|
      invariant i <= |parts| && content + ToolParts(c, parts[i..]) == ToolParts(c, parts)
    {
      assert parts[i..][0] == parts[i] && parts[i..][1..] == parts[i + 1..];
      if parts[i].ToolResult? {
        var part := ToolResultPart(parts[i].callID, OutputOf(c, parts[i]));
        Reassociate(content, [part], ToolParts(c, parts[i + 1..]));
        content := content + [part];
      } else {
        Reassociate(content, [], ToolParts(c, parts[i + 1..]));
        assert content + [] == content;
      }
      i := i + 1;
    }
    assert content + [] == content;
  }

  /** One turn of preparePromptForModel's loop, for a message that passed the item check. */
  method RenderOne(c: Codec, m: Msg, model: Model, calls: set<string>, results: set<string>) returns (ms: seq<AIMessage>)
    ensures ms == Render(c, m, model, calls, results)
  {
    if !Replayed(m) {
      return [];
    }
    match m.role
    case Tool =>
      var content := ToolContent(c, m.parts);
      var kept := FilterOrphanedToolResults(content, calls);
      return if kept == [] then [] else [AIMessage(Tool, kept)];
    case Assistant =>
      var parts := m.parts;
      if model.provider != "" && (m.provider != model.provider || m.model != model.id) {
        parts := WithoutResponsesReasoning(parts);
      }
      var content := AssistantContent(c, parts);
      ms := [AIMessage(Assistant, content)];
      var synthetic := SyntheticToolResults(parts, results);
      if synthetic != [] {
        ms := ms + [AIMessage(Tool, synthetic)];
      }
    case User =>
      var content := UserParts(c, m.parts);
      if !model.supportsImages {
        content := FilterFileParts(content);
      }
      ms := [AIMessage(User, content)];
    case System =>
      ms := [];
  }

  lemma PrefixDistinct<T>(a: seq<T>, b: seq<T>)
    requires Distinct(a + b)
    ensures Distinct(a)
  {
    assert forall i | 0 <= i < |a| :: (a + b)[i] == a[i];
  }

  /** The item check of one message. */
  method CheckItems(m: Msg, model: Model, seen: seq<string>) returns (ok: bool, all: seq<string>)
    requires Distinct(seen)
    ensures ok <==> Distinct(seen + Checked(m, model))
    ensures ok ==> all == seen + Checked(m, model)
  {
    if Replayed(m) && m.role != Tool {
      ok, all := CollectResponsesItemIDs(ForModel(m, model).parts, seen);
    } else {
      ok, all := true, seen;
      assert seen + [] == seen;
    }
  }

  lemma NextMessage(c: Codec, msgs: seq<Msg>, i: nat, model: Model, calls: set<string>, results: set<string>)
    requires i < |msgs|
    ensures Items(msgs[i..], model) == Checked(msgs[i], model) + Items(msgs[i + 1..], model)
    ensures RenderAll(c, msgs[i..], model, calls, results) ==
            Render(c, msgs[i], model, calls, results) + RenderAll(c, msgs[i + 1..], model, calls, results)
  {
    assert msgs[i..][0] == msgs[i] && msgs[i..][1..] == msgs[i + 1..];
  }

  method PreparePromptForModel(c: Codec, msgs: seq<Msg>, model: Model) returns (r: Option<seq<AIMessage>>)
    ensures r == Prepare(c, msgs, model)
  {
    var calls, results := CollectKnown(msgs);
    var history, seen := [], [];
    var i := 0;
    while i < |msgs|
      invariant i <= |msgs| && Distinct(seen) && seen + Items(msgs[i..], model) == Items(msgs, model)
      invariant history + RenderAll(c, msgs[i..], model, calls, results) == Replay(c, msgs, model)
    {
      NextMessage(c, msgs, i, model, calls, results);
      Reassociate(seen, Checked(msgs[i], model), Items(msgs[i + 1..], model));
      Reassociate(history, Render(c, msgs[i], model, calls, results), RenderAll(c, msgs[i + 1..], model, calls, results));
      var ok, all := CheckItems(msgs[i], model, seen);
      if !ok {
        assert !Distinct(Items(msgs, model)) by {
          if Distinct(Items(msgs, model)) { PrefixDistinct(seen + Checked(msgs[i], model), Items(msgs[i + 1..], model)); }
        }
        return None;
      }
      seen := all;
      var ms := RenderOne(c, msgs[i], model, calls, results);
      history := history + ms;
      i := i + 1;
    }
    assert seen + [] == seen && history + [] == history;
    return Some(history);
  }

  method InsertTodoReminder(ms: seq<AIMessage>, reminder: string) returns (updated: seq<AIMessage>)
    ensures updated == WithTodo(ms, reminder)
  {
    var insert := 0;
    while insert < |ms| && ms[insert].role == System
      invariant insert <= SystemPrefix(ms)
    {
      insert := insert + 1;
    }
    updated := ms[..insert] + [AIMessage(User, [TextPart(reminder)])] + ms[insert..];
  }

  /** One part of a tool message, and the file it leaves, if any. */
  method DetourPart(c: Codec, p: AIPart, images: bool) returns (part: AIPart, file: seq<AIPart>)
    ensures part == Converted(c, p, images) && file == AsFile(c, p, images)
  {
    part, file := p, [];
    if p.ToolResultPart? && p.output.OutMedia? {
      if !images {
        part := p.(output := OutText(MEDIA_UNSUPPORTED));
        return;
      }
      var decoded := c.decode(p.output.media);
      if decoded == None {
        return;
      }
      file := [FilePart("tool-result-" + p.callID, decoded.value, p.output.mediaType)];
      part := p.(output := OutText(MEDIA_LOADED));
    }
  }

  /** The inner loop of the media workaround: the parts of one tool message. */
  method DetourParts(c: Codec, content: seq<AIPart>, images: bool) returns (parts: seq<AIPart>, files: seq<AIPart>)
    ensures parts == ConvertedAll(c, content, images) && files == Detached(c, content, images)
  {
    parts, files := [], [];
    var i := 0;
    while i < |content|
      invariant i <= |content| && parts + ConvertedAll(c, content[i..], images) == ConvertedAll(c, content, images)
      invariant files + Detached(c, content[i..], images) == Detached(c, content, images)
    {
      var part, file := DetourPart(c, content[i], images);
      assert content[i..][0] == content[i] && content[i..][1..] == content[i + 1..];
      Reassociate(parts, [part], ConvertedAll(c, content[i + 1..], images));
      Reassociate(files, file, Detached(c, content[i + 1..], images));
      parts, files := parts + [part], files + file;
      i := i + 1;
    }
    assert parts + [] == parts && files + [] == files;
  }

  method WorkaroundProviderMediaLimitations(c: Codec, ms: seq<AIMessage>, model: Model) returns (converted: seq<AIMessage>)
    ensures converted == Workaround(c, ms, model)
  {
    if model.mediaInResults {
      return ms;
    }
    converted := [];
    var i := 0;
    while i < |ms|
      invariant i <= |ms|
      invariant converted + DetourAll(c, ms[i..], model.supportsImages) == DetourAll(c, ms, model.supportsImages)
    {
      var m := ms[i];
      assert ms[i..][0] == m && ms[i..][1..] == ms[i + 1..];
      Reassociate(converted, Detour(c, m, model.supportsImages), DetourAll(c, ms[i + 1..], model.supportsImages));
      i := i + 1;
      if m.role != Tool {
        converted := converted + [m];
      } else {
        var parts, files := DetourParts(c, m.content, model.supportsImages);
        var out := [AIMessage(Tool, parts)];
        if files != [] {
          out := out + [AIMessage(User, [TextPart(MEDIA_HERE)] + files)];
        }
        assert out == Detour(c, m, model.supportsImages);
        converted := converted + out;
      }
    }
    assert converted + [] == converted;
  }
}
