/** The message whose parts the streaming callbacks update, mutator by mutator. */
module StreamedMessages {
  import opened Common
  import opened Messages

  lemma NextEvent(parts: seq<Part>, ids: seq<string>, i: nat, now: int)
    requires i < |ids|
    ensures FinishEvents(parts, ids[i..], now) == FinishEvents(FinishEvent(parts, ids[i], now), ids[i + 1..], now)
  {
    assert ids[i..][0] == ids[i] && ids[i..][1..] == ids[i + 1..];
  }

  lemma AllGrown(was: seq<Part>, t: seq<Part>, delta: string)
    requires |t| == |was| && forall j | 0 <= j < |was| :: t[j] == Grown(was[j], delta)
    ensures t == GrowTexts(was, delta)
    ensures First(was, TextSlot) < |was| <==> exists j | 0 <= j < |was| :: was[j].Text?
    ensures First(was, TextSlot) == |was| ==> t == was
  {
    GrowTextsIs(was, delta);
    assert forall j | 0 <= j < |was| :: was[j].Text? <==> SlotOf(was[j]) == TextSlot;
  }

  class Message {
    var parts: seq<Part>

    constructor ()
      ensures parts == []
    {
      parts := [];
    }

    method AppendContent(delta: string)
      modifies this
      ensures parts == Mutate(old(parts), Mutation.AppendContent(delta))
    {
      var found := false;
      var i := 0;
      ghost var was := parts;
      while i < |parts|
        invariant i <= |parts| == |was|
        invariant forall j | 0 <= j < i :: parts[j] == Grown(was[j], delta)
        invariant forall j | i <= j < |parts| :: parts[j] == was[j]
        invariant found <==> exists j | 0 <= j < i :: was[j].Text?
      {
        if parts[i].Text? {
          parts := parts[i := Text(parts[i].text + delta)];
          found := true;
        }
        i := i + 1;
      }
      AllGrown(was, parts, delta);
      if !found {
        parts := parts + [Text(delta)];
      }
    }

    method AppendReasoningContentForID(event: string, delta: string, now: int)
      modifies this
      ensures parts == Mutate(old(parts), AppendReasoning(event, delta, now))
    {
      var i := 0;
      while i < |parts|
        invariant i <= |parts| && parts == old(parts)
        invariant forall j | 0 <= j < i :: SlotOf(parts[j]) != ReasoningSlot(event)
      {
        if parts[i].Reasoning? && parts[i].eventID == event {
          FirstIs(parts, ReasoningSlot(event), i);
          parts := parts[i := parts[i].(thinking := parts[i].thinking + delta)];
          return;
        }
        i := i + 1;
      }
      var added := NewReasoning(event);
      parts := parts + [added.(thinking := delta, startedAt := now)];
    }

    method AppendThoughtSignature(signature: string, toolID: string)
      modifies this
      ensures parts == Mutate(old(parts), Mutation.AppendThoughtSignature(signature, toolID))
    {
      var i := 0;
      while i < |parts|
        invariant i <= |parts| && parts == old(parts)
        invariant forall j | 0 <= j < i :: !parts[j].Reasoning?
      {
        if parts[i].Reasoning? {
          parts := parts[i := parts[i].(thoughtSignature := parts[i].thoughtSignature + signature, toolID := toolID)];
          return;
        }
        i := i + 1;
      }
      var added := NewReasoning("");
      parts := parts + [added.(thoughtSignature := signature)];
    }

    method AppendReasoningSignature(signature: string)
      modifies this
      ensures parts == Mutate(old(parts), Mutation.AppendReasoningSignature(signature))
    {
      var i := 0;
      while i < |parts|
        invariant i <= |parts| && parts == old(parts)
        invariant forall j | 0 <= j < i :: !parts[j].Reasoning?
      {
        if parts[i].Reasoning? {
          parts := parts[i := parts[i].(signature := parts[i].signature + signature)];
          return;
        }
        i := i + 1;
      }
      var added := NewReasoning("");
      parts := parts + [added.(signature := signature)];
    }

    method SetReasoningResponsesDataForID(event: string, responses: Option<ResponsesData>, now: int)
      modifies this
      ensures parts == Mutate(old(parts), SetResponses(event, responses, now))
    {
      var i := 0;
      while i < |parts|
        invariant i <= |parts| && parts == old(parts)
        invariant forall j | 0 <= j < i :: SlotOf(parts[j]) != ReasoningSlot(event)
      {
        if parts[i].Reasoning? && parts[i].eventID == event {
          FirstIs(parts, ReasoningSlot(event), i);
          parts := parts[i := parts[i].(responses := responses)];
          return;
        }
        i := i + 1;
      }
      var added := NewReasoning(event);
      parts := parts + [added.(responses := responses, startedAt := now)];
    }

    method FinishThinking(now: int)
      modifies this
      ensures parts == Mutate(old(parts), Mutation.FinishThinking(now))
    {
      var ids := EventIDs(parts);
      assert ids[0..] == ids;
      var i := 0;
      while i < |ids|
        invariant i <= |ids|
        invariant FinishEvents(parts, ids[i..], now) == FinishEvents(old(parts), ids, now)
      {
        NextEvent(parts, ids, i, now);
        FinishThinkingForID(ids[i], now);
        i := i + 1;
      }
    }

    method FinishThinkingForID(event: string, now: int)
      modifies this
      ensures parts == FinishEvent(old(parts), event, now)
    {
      var i := 0;
      while i < |parts|
        invariant i <= |parts| && parts == old(parts)
        invariant forall j | 0 <= j < i :: SlotOf(parts[j]) != ReasoningSlot(event)
      {
        if parts[i].Reasoning? && parts[i].eventID == event {
          FirstIs(parts, ReasoningSlot(event), i);
          if parts[i].finishedAt == 0 {
            parts := parts[i := parts[i].(finishedAt := now)];
          }
          return;
        }
        i := i + 1;
      }
    }

    method FinishToolCall(id: string)
      modifies this
      ensures parts == Mutate(old(parts), Mutation.FinishToolCall(id))
    {
      var i := 0;
      while i < |parts|
        invariant i <= |parts| && parts == old(parts)
        invariant forall j | 0 <= j < i :: SlotOf(parts[j]) != CallSlot(id)
      {
        if parts[i].ToolCall? && parts[i].id == id {
          FirstIs(parts, CallSlot(id), i);
          parts := parts[i := ToolCall(parts[i].id, parts[i].name, parts[i].input, false, true)];
          return;
        }
        i := i + 1;
      }
    }

    method AppendToolCallInput(id: string, delta: string)
      modifies this
      ensures parts == Mutate(old(parts), Mutation.AppendToolCallInput(id, delta))
    {
      var i := 0;
      while i < |parts|
        invariant i <= |parts| && parts == old(parts)
        invariant forall j | 0 <= j < i :: SlotOf(parts[j]) != CallSlot(id)
      {
        if parts[i].ToolCall? && parts[i].id == id {
          FirstIs(parts, CallSlot(id), i);
          parts := parts[i := ToolCall(parts[i].id, parts[i].name, parts[i].input + delta, false, parts[i].finished)];
          return;
        }
        i := i + 1;
      }
    }

    method AddToolCall(call: Part)
      requires call.ToolCall?
      modifies this
      ensures parts == Mutate(old(parts), Mutation.AddToolCall(call))
    {
      var i := 0;
      while i < |parts|
        invariant i <= |parts| && parts == old(parts)
        invariant forall j | 0 <= j < i :: SlotOf(parts[j]) != CallSlot(call.id)
      {
        if parts[i].ToolCall? && parts[i].id == call.id {
          FirstIs(parts, CallSlot(call.id), i);
          parts := parts[i := call];
          return;
        }
        i := i + 1;
      }
      parts := parts + [call];
    }

    method SetToolCalls(calls: seq<Part>)
      requires AreCalls(calls)
      modifies this
      ensures parts == Mutate(old(parts), Mutation.SetToolCalls(calls))
    {
      var kept := [];
      var i := 0;
      while i < |parts|
        invariant i <= |parts| && parts == old(parts)
        invariant kept == Select(NotCalls, parts[..i])
      {
        assert parts[..i + 1] == parts[..i] + [parts[i]];
        SelectJoin(NotCalls, parts[..i], [parts[i]]);
        SelectOne(NotCalls, parts[i]);
        if !parts[i].ToolCall? {
          kept := kept + [parts[i]];
        }
        i := i + 1;
      }
      assert parts[..i] == parts;
      parts := kept;
      i := 0;
      while i < |calls|
        invariant i <= |calls| && parts == kept + calls[..i]
      {
        parts := parts + [calls[i]];
        i := i + 1;
      }
      assert calls[..i] == calls;
    }

    method AddFinish(finish: Part)
      requires finish.Finish?
      modifies this
      ensures parts == Mutate(old(parts), Mutation.AddFinish(finish))
    {
      var i := 0;
      while i < |parts| && !parts[i].Finish?
        invariant i <= |parts| && parts == old(parts)
        invariant forall j | 0 <= j < i :: SlotOf(parts[j]) != FinishSlot
      {
        i := i + 1;
      }
      if i < |parts| {
        FirstIs(parts, FinishSlot, i);
        parts := parts[..i] + parts[i + 1..];
      }
      parts := parts + [finish];
    }

    /** AddToolResult, SetToolResults, AddImageURL and AddBinary. */
    method Attach(attachments: seq<Part>)
      requires forall x | x in attachments :: SlotOf(x) == Attached
      modifies this
      ensures parts == Mutate(old(parts), Mutation.Attach(attachments))
    {
      parts := parts + attachments;
    }

    method ResetStreamedContent()
      modifies this
      ensures parts == Mutate(old(parts), ResetStreamed)
    {
      var a := new Part[|parts|](i requires 0 <= i < |parts| reads this => parts[i]);
      assert a[..] == parts;
      var n := CompactInPlace(a);
      parts := a[..n];
    }

    /** The attachments, moved to the front of the array they are read from. */
    static method CompactInPlace(a: array<Part>) returns (n: nat)
      modifies a
      ensures n <= a.Length && a[..n] == Select(OnlyAttached, old(a[..]))
    {
      n := 0;
      var i := 0;
      while i < a.Length
        invariant n <= i <= a.Length
        invariant a[..n] == Select(OnlyAttached, old(a[..])[..i])
        invariant forall j | i <= j < a.Length :: a[j] == old(a[..])[j]
      {
        ghost var was := old(a[..]);
        assert was[..i + 1] == was[..i] + [was[i]];
        SelectJoin(OnlyAttached, was[..i], [was[i]]);
        SelectOne(OnlyAttached, was[i]);
        if SlotOf(a[i]) == Attached {
          ghost var front := a[..n];
          a[n] := a[i];
          n := n + 1;
          assert a[..n] == front + [was[i]];
        }
        i := i + 1;
      }
      assert old(a[..])[..i] == old(a[..]);
    }
  }
}
