/** The selection as it runs: the history compacted in its own array, and anchors tried from the end. */
module HistorySelections {
  import opened Common
  import opened Messages
  import opened Histories

  /** Moves the committed messages to the front. */
  method Compact(msgs: array<Msg>, summary: string) returns (committed: nat)
    modifies msgs
    ensures committed <= msgs.Length && msgs[..committed] == Committed(old(msgs[..]), summary)
  {
    committed := 0;
    ghost var was := msgs[..];
    var i := 0;
    while i < msgs.Length
      invariant committed <= i <= msgs.Length
      invariant msgs[..committed] == Committed(was[..i], summary)
      invariant forall j | i <= j < msgs.Length :: msgs[j] == was[j]
    {
      assert was[..i + 1] == was[..i] + [was[i]];
      CommittedJoin(was[..i], [was[i]], summary);
      CommittedOne(was[i], summary);
      var m := msgs[i];
      if !(m.isSummary && m.id != summary) {
        ghost var front := msgs[..committed];
        msgs[committed] := m;
        committed := committed + 1;
        assert msgs[..committed] == front + [m];
      }
      i := i + 1;
    }
    assert was[..i] == was;
  }

  method FindSummary(msgs: seq<Msg>, summary: string) returns (i: nat)
    ensures i == IndexOf(msgs, summary)
  {
    i := 0;
    while i < |msgs| && msgs[i].id != summary
      invariant i <= |msgs| && forall j | 0 <= j < i :: msgs[j].id != summary
    {
      i := i + 1;
    }
    if i < |msgs| { IndexIs(msgs, summary, i); }
  }

  /** ToolCalls, by ID. */
  method CallsOf(parts: seq<Part>) returns (ids: set<string>)
    ensures ids == CallIDs(parts)
  {
    ids := {};
    var i := 0;
    while i < |parts|
      invariant i <= |parts| && ids == CallIDs(parts[..i])
    {
      assert parts[..i + 1] == parts[..i] + [parts[i]];
      if parts[i].ToolCall? {
        ids := ids + {parts[i].id};
      }
      i := i + 1;
    }
    assert parts[..i] == parts;
  }

  method ResultsIn(parts: seq<Part>) returns (ids: set<string>)
    ensures ids == ResultIDs(parts)
  {
    ids := {};
    var i := 0;
    while i < |parts|
      invariant i <= |parts| && ids == ResultIDs(parts[..i])
    {
      assert parts[..i + 1] == parts[..i] + [parts[i]];
      if parts[i].ToolResult? {
        ids := ids + {parts[i].callID};
      }
      i := i + 1;
    }
    assert parts[..i] == parts;
  }

  lemma ResultsOfOneMore(msgs: seq<Msg>, m: Msg)
    ensures ResultsOf(msgs + [m]) == ResultsOf(msgs) + ResultIDs(m.parts)
  {
    assert forall x :: x in ResultIDs(m.parts) ==> m in msgs + [m];
    assert forall n :: n in msgs ==> n in msgs + [m];
  }

  /** The tool messages right behind an assistant message, and the calls they answer. */
  method CollectTools(prefix: seq<Msg>, start: nat) returns (tools: seq<Msg>, results: set<string>)
    requires start < |prefix|
    ensures tools == prefix[start + 1..ToolsEnd(prefix, start + 1)] && results == ResultsOf(tools)
  {
    tools, results := [], {};
    var end := start + 1;
    while end < |prefix| && prefix[end].role == Tool
      invariant start < end <= |prefix| && tools == prefix[start + 1..end] && results == ResultsOf(tools)
      invariant ToolsEnd(prefix, end) == ToolsEnd(prefix, start + 1)
    {
      ResultsOfOneMore(tools, prefix[end]);
      assert prefix[start + 1..end + 1] == tools + [prefix[end]];
      tools := tools + [prefix[end]];
      var ids := ResultsIn(prefix[end].parts);
      results := results + ids;
      end := end + 1;
    }
  }

  /** latestCompleteAssistantAnchor. */
  method LatestAnchor(prefix: seq<Msg>) returns (group: seq<Msg>)
    ensures group == Anchor(prefix)
  {
    var start := |prefix|;
    while start > 0
      invariant 0 <= start <= |prefix| && Anchor(prefix) == AnchorBefore(prefix, start)
    {
      start := start - 1;
      var m := prefix[start];
      if m.role == Assistant && !m.isSummary && Viable(m) {
        var calls := CallsOf(m.parts);
        if calls == {} {
          return [m];
        }
        var tools, results := CollectTools(prefix, start);
        assert Group(prefix, start) == [m] + tools && ([m] + tools)[1..] == tools;
        if calls <= results {
          return [m] + tools;
        }
      }
    }
    return [];
  }

  /** selectHistoryWithAnchor. */
  method SelectHistoryWithAnchor(msgs: array<Msg>, summary: string) returns (result: seq<Msg>)
    modifies msgs
    ensures result == Histories.Select(old(msgs[..]), summary)
  {
    var committed := Compact(msgs, summary);
    var kept := msgs[..committed];
    if summary == "" {
      return kept;
    }
    var k := FindSummary(kept, summary);
    if k == |kept| {
      return kept;
    }
    var anchor := LatestAnchor(kept[..k]);
    result := anchor + kept[k..];
    result := result[|anchor| := result[|anchor|].(role := User)];
    assert result == anchor + FromSummary(kept, k);
  }
}
