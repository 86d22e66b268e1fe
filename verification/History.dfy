/**
Which messages of a summarized session reach the model: the committed summary, what follows it,
and before it the latest complete assistant turn of the compacted prefix.
*/
module Histories {
  import opened Common
  import opened Messages

  datatype Msg = Msg(id: string, role: Role, parts: seq<Part>, provider: string, model: string, isSummary: bool)

  function CallIDs(parts: seq<Part>): set<string> {
    set p | p in parts && p.ToolCall? :: p.id
  }

  function ResultIDs(parts: seq<Part>): set<string> {
    set p | p in parts && p.ToolResult? :: p.callID
  }

  function ResultsOf(msgs: seq<Msg>): set<string> {
    set m, x | m in msgs && x in ResultIDs(m.parts) :: x
  }

  /* ---- What is selected ---- */

  predicate Uncommitted(m: Msg, summary: string) {
    m.isSummary && m.id != summary
  }

  /** The messages without the summaries that were never committed. */
  function Committed(msgs: seq<Msg>, summary: string): seq<Msg> {
    if msgs == [] then []
    else (if Uncommitted(msgs[0], summary) then [] else [msgs[0]]) + Committed(msgs[1..], summary)
  }

  /** The position of the first message with this ID, or the length. */
  function IndexOf(msgs: seq<Msg>, id: string): (i: nat)
    ensures i <= |msgs| && (i < |msgs| ==> msgs[i].id == id)
    ensures forall j | 0 <= j < i :: msgs[j].id != id
  {
    if msgs == [] || msgs[0].id == id then 0 else 1 + IndexOf(msgs[1..], id)
  }

  /** assistantAnchorViable. */
  predicate Viable(m: Msg) {
    var text := Lookup(m.parts, TextSlot);
    || (text.Some? && text.value.text != "")
    || FirstReasoning(m.parts) < |m.parts|
    || CallIDs(m.parts) != {}
  }

  /** Where the tool messages that start at e end. */
  function ToolsEnd(msgs: seq<Msg>, e: nat): (f: nat)
    requires e <= |msgs|
    ensures e <= f <= |msgs| && (f < |msgs| ==> msgs[f].role != Tool)
    ensures forall j | e <= j < f :: msgs[j].role == Tool
    decreases |msgs| - e
  {
    if e < |msgs| && msgs[e].role == Tool then ToolsEnd(msgs, e + 1) else e
  }

  /** An assistant message with the tool messages right behind it, if it calls tools. */
  function Group(msgs: seq<Msg>, i: nat): seq<Msg>
    requires i < |msgs|
  {
    if CallIDs(msgs[i].parts) == {} then [msgs[i]] else msgs[i..ToolsEnd(msgs, i + 1)]
  }

  /** A viable assistant turn whose every call is answered inside its group. */
  predicate Anchors(msgs: seq<Msg>, i: nat)
    requires i < |msgs|
  {
    && msgs[i].role == Assistant && !msgs[i].isSummary && Viable(msgs[i])
    && CallIDs(msgs[i].parts) <= ResultsOf(Group(msgs, i)[1..])
  }

  /** The group of the last anchor before n. */
  function AnchorBefore(msgs: seq<Msg>, n: nat): seq<Msg>
    requires n <= |msgs|
  {
    if n == 0 then [] else if Anchors(msgs, n - 1) then Group(msgs, n - 1) else AnchorBefore(msgs, n - 1)
  }

  function Anchor(msgs: seq<Msg>): seq<Msg> {
    AnchorBefore(msgs, |msgs|)
  }

  /** The history from message i on, which speaks as the user. */
  function FromSummary(msgs: seq<Msg>, i: nat): (r: seq<Msg>)
    requires i < |msgs|
    ensures |r| == |msgs| - i && r[0] == msgs[i].(role := User) && r[1..] == msgs[i + 1..]
  {
    [msgs[i].(role := User)] + msgs[i + 1..]
  }

  /** selectHistoryWithAnchor. */
  function Select(msgs: seq<Msg>, summary: string): seq<Msg> {
    var kept := Committed(msgs, summary);
    var k := IndexOf(kept, summary);
    if summary == "" || k == |kept| then kept
    else Anchor(kept[..k]) + FromSummary(kept, k)
  }

  /* ---- What the selection guarantees ---- */

  /** The anchor is [] exactly if nothing anchors; otherwise it is the group of the last message that does. */
  lemma {:induction false} AnchorIsLatest(msgs: seq<Msg>, n: nat) returns (i: nat)
    requires n <= |msgs|
    ensures i <= n && forall j | i <= j < n :: !Anchors(msgs, j)
    ensures if i == 0 then AnchorBefore(msgs, n) == [] else Anchors(msgs, i - 1) && AnchorBefore(msgs, n) == Group(msgs, i - 1)
  {
    if n == 0 || Anchors(msgs, n - 1) {
      i := n;
    } else {
      i := AnchorIsLatest(msgs, n - 1);
    }
  }

  /** Every call in the anchor is answered inside it, and it holds one assistant message and its tool messages only. */
  lemma AnchorIsClosed(msgs: seq<Msg>)
    ensures var a := Anchor(msgs);
            a != [] ==>
              && a[0].role == Assistant && !a[0].isSummary && Viable(a[0]) && a[0] in msgs
              && CallIDs(a[0].parts) <= ResultsOf(a[1..])
              && forall j | 0 < j < |a| :: a[j].role == Tool && a[j] in msgs
  {
    var i := AnchorIsLatest(msgs, |msgs|);
  }

  /** Viable: the first text is not empty, or there is a thought, or a tool call. */
  lemma ViableIff(m: Msg)
    ensures Viable(m) <==>
            || (exists i :: 0 <= i < |m.parts| && m.parts[i].Text? && m.parts[i].text != "" && forall j | 0 <= j < i :: !m.parts[j].Text?)
            || (exists p :: p in m.parts && (p.Reasoning? || p.ToolCall?))
  {
    var t, f := First(m.parts, TextSlot), FirstReasoning(m.parts);
    assert forall i | 0 <= i < |m.parts| && m.parts[i].Text? && (forall j | 0 <= j < i :: !m.parts[j].Text?) :: i == t;
    assert t < |m.parts| ==> m.parts[t].Text? && forall j | 0 <= j < t :: !m.parts[j].Text?;
    assert f < |m.parts| ==> m.parts[f] in m.parts;
    assert forall p | p in m.parts && p.ToolCall? :: p.id in CallIDs(m.parts);
  }

  /** Call id is answered by a tool message in the unbroken run of tool messages right behind message i. */
  ghost predicate AnsweredBehind(msgs: seq<Msg>, i: nat, id: string) {
    exists j, p :: i < j < |msgs| && (forall k | i < k <= j :: msgs[k].role == Tool) &&
                   p in msgs[j].parts && p.ToolResult? && p.callID == id
  }

  lemma AnsweredInside(msgs: seq<Msg>, i: nat, e: nat, id: string)
    requires i < e <= |msgs| && id in ResultsOf(msgs[i + 1..e]) && forall k | i < k < e :: msgs[k].role == Tool
    ensures AnsweredBehind(msgs, i, id)
  {
    var m :| m in msgs[i + 1..e] && id in ResultIDs(m.parts);
    var k :| i < k < e && msgs[k] == m;
    var p :| p in m.parts && p.ToolResult? && p.callID == id;
    assert p in msgs[k].parts;
  }

  lemma BehindIsInside(msgs: seq<Msg>, i: nat, e: nat, id: string)
    requires i < e <= |msgs| && AnsweredBehind(msgs, i, id) && (e < |msgs| ==> msgs[e].role != Tool)
    ensures id in ResultsOf(msgs[i + 1..e])
  {
    var j, p :| i < j < |msgs| && (forall k | i < k <= j :: msgs[k].role == Tool) &&
                p in msgs[j].parts && p.ToolResult? && p.callID == id;
    assert j < e;
    assert msgs[j] in msgs[i + 1..e] && id in ResultIDs(msgs[j].parts);
  }

  lemma AnsweredIff(msgs: seq<Msg>, i: nat, id: string)
    requires i < |msgs| && CallIDs(msgs[i].parts) != {}
    ensures id in ResultsOf(Group(msgs, i)[1..]) <==> AnsweredBehind(msgs, i, id)
  {
    var e := ToolsEnd(msgs, i + 1);
    assert Group(msgs, i)[1..] == msgs[i + 1..e];
    if id in ResultsOf(msgs[i + 1..e]) { AnsweredInside(msgs, i, e, id); }
    if AnsweredBehind(msgs, i, id) { BehindIsInside(msgs, i, e, id); }
  }

  /**
  Which message anchors, read off the history: an assistant's that is no summary, holds something, and
  whose every call is answered by a tool message in the unbroken run of them right behind it.
  */
  lemma AnchorsIff(msgs: seq<Msg>, i: nat)
    requires i < |msgs|
    ensures Anchors(msgs, i) <==>
              && msgs[i].role == Assistant && !msgs[i].isSummary && Viable(msgs[i])
              && forall p | p in msgs[i].parts && p.ToolCall? :: AnsweredBehind(msgs, i, p.id)
  {
    if CallIDs(msgs[i].parts) != {} {
      forall id ensures id in ResultsOf(Group(msgs, i)[1..]) <==> AnsweredBehind(msgs, i, id) {
        AnsweredIff(msgs, i, id);
      }
    }
    assert forall p | p in msgs[i].parts && p.ToolCall? :: p.id in CallIDs(msgs[i].parts);
  }

  lemma {:induction false} CommittedIs(msgs: seq<Msg>, summary: string)
    ensures forall m :: m in Committed(msgs, summary) <==> m in msgs && !Uncommitted(m, summary)
  {
    if msgs != [] { CommittedIs(msgs[1..], summary); }
  }

  lemma SlicesBelong(msgs: seq<Msg>, k: nat, m: Msg)
    requires k < |msgs| && (m in msgs[..k] || m in FromSummary(msgs, k)[1..])
    ensures m in msgs
  {
  }

  /** In the selection every summary is the committed one, and it speaks as the user. */
  lemma OnlyTheCommittedSummary(msgs: seq<Msg>, summary: string)
    ensures var r := Select(msgs, summary);
            && (forall m | m in r :: m.isSummary ==> m.id == summary)
            && (summary != "" && (exists m | m in msgs :: m.id == summary) ==>
                  exists i | 0 <= i < |r| :: r[i].id == summary && r[i].role == User)
  {
    var kept := Committed(msgs, summary);
    CommittedIs(msgs, summary);
    var k := IndexOf(kept, summary);
    if summary != "" && k < |kept| {
      AnchorIsClosed(kept[..k]);
      var a, t := Anchor(kept[..k]), FromSummary(kept, k);
      assert (a + t)[|a|] == t[0];
      forall m | m in a + t ensures m.isSummary ==> m.id == summary {
        if m in a {
          SlicesBelong(kept, k, m);
        } else if m != t[0] {
          assert t == [t[0]] + t[1..];
          SlicesBelong(kept, k, m);
        }
      }
    } else if exists m | m in msgs :: m.id == summary {
      var m :| m in msgs && m.id == summary;
      assert m in kept;
    }
  }

  lemma {:induction false} CommittedJoin(a: seq<Msg>, b: seq<Msg>, summary: string)
    ensures Committed(a + b, summary) == Committed(a, summary) + Committed(b, summary)
  {
    if a == [] {
      assert a + b == b;
    } else {
      var head, rest := if Uncommitted(a[0], summary) then [] else [a[0]], Committed(a[1..], summary);
      HeadOfJoin(a, b);
      CommittedJoin(a[1..], b, summary);
      Reassociate(head, rest, Committed(b, summary));
    }
  }

  lemma CommittedOne(m: Msg, summary: string)
    ensures Committed([m], summary) == if Uncommitted(m, summary) then [] else [m]
  {
    assert [m][1..] == [];
  }

  lemma CommittedAround(msgs: seq<Msg>, summary: string, i: nat)
    requires i < |msgs| && msgs[i].id == summary
    ensures Committed(msgs, summary) == Committed(msgs[..i], summary) + ([msgs[i]] + Committed(msgs[i + 1..], summary))
  {
    assert msgs == msgs[..i] + ([msgs[i]] + msgs[i + 1..]);
    CommittedJoin(msgs[..i], [msgs[i]] + msgs[i + 1..], summary);
    CommittedJoin([msgs[i]], msgs[i + 1..], summary);
    CommittedOne(msgs[i], summary);
  }

  lemma {:induction false} FoundBehind(a: seq<Msg>, m: Msg, b: seq<Msg>)
    requires forall x | x in a :: x.id != m.id
    ensures IndexOf(a + ([m] + b), m.id) == |a|
  {
    if a == [] {
      assert a + ([m] + b) == [m] + b;
    } else {
      HeadOfJoin(a, [m] + b);
      FoundBehind(a[1..], m, b);
    }
  }

  lemma AfterTheSummary(a: seq<Msg>, m: Msg, b: seq<Msg>)
    ensures (a + ([m] + b))[..|a|] == a && FromSummary(a + ([m] + b), |a|) == [m.(role := User)] + b
  {
  }

  lemma SelectAround(msgs: seq<Msg>, a: seq<Msg>, m: Msg, b: seq<Msg>)
    requires m.id != "" && Committed(msgs, m.id) == a + ([m] + b) && forall x | x in a :: x.id != m.id
    ensures Select(msgs, m.id) == Anchor(a) + ([m.(role := User)] + b)
  {
    FoundBehind(a, m, b);
    AfterTheSummary(a, m, b);
  }

  /**
  Read off the history itself: with the committed summary at i, the selection is the anchor of
  what came before it, the summary as the user, and everything after it but uncommitted summaries.
  */
  lemma TailIsKept(msgs: seq<Msg>, summary: string)
    requires summary != "" && IndexOf(msgs, summary) < |msgs|
    ensures var i := IndexOf(msgs, summary);
            Select(msgs, summary) ==
            Anchor(Committed(msgs[..i], summary)) + ([msgs[i].(role := User)] + Committed(msgs[i + 1..], summary))
  {
    var i := IndexOf(msgs, summary);
    var a, b := Committed(msgs[..i], summary), Committed(msgs[i + 1..], summary);
    CommittedAround(msgs, summary, i);
    CommittedIs(msgs[..i], summary);
    forall m | m in a ensures m.id != summary { assert m in msgs[..i]; }
    SelectAround(msgs, a, msgs[i], b);
  }

  lemma {:induction false} CommittedKeepsOrder(msgs: seq<Msg>, summary: string)
    ensures Subsequence(Committed(msgs, summary), msgs)
  {
    if msgs != [] {
      CommittedKeepsOrder(msgs[1..], summary);
      var rest := Committed(msgs[1..], summary);
      assert ([msgs[0]] + rest)[1..] == rest && [] + rest == rest;
    }
  }

  lemma SliceKeepsOrder(msgs: seq<Msg>, i: nat, n: nat, rest: seq<Msg>)
    requires i <= n <= |msgs|
    ensures Subsequence(msgs[i..n] + rest, msgs + rest)
  {
    var p, a, q := msgs[..i], msgs[i..n], msgs[n..];
    SubsequenceRefl(rest);
    SubsequenceSkip(q, rest, rest);
    SubsequencePrepend(a, rest, q + rest);
    SubsequenceSkip(p, a + rest, a + (q + rest));
    assert msgs + rest == p + (a + (q + rest));
  }

  lemma AnchorKeepsOrder(msgs: seq<Msg>, rest: seq<Msg>)
    ensures Subsequence(Anchor(msgs) + rest, msgs + rest)
  {
    var i := AnchorIsLatest(msgs, |msgs|);
    if i == 0 {
      SliceKeepsOrder(msgs, 0, 0, rest);
      assert Anchor(msgs) == msgs[0..0];
    } else {
      SliceKeepsOrder(msgs, i - 1, i, rest);
      SliceKeepsOrder(msgs, i - 1, ToolsEnd(msgs, i), rest);
      assert msgs[i - 1..i] == [msgs[i - 1]];
    }
  }

  lemma OnlyTheRoleChanges(msgs: seq<Msg>, k: nat)
    requires k < |msgs|
    ensures msgs[..k] + FromSummary(msgs, k) == msgs[k := msgs[k].(role := User)]
  {
  }

  /** The messages with the committed summary, if there is one, speaking as the user. */
  function SummaryAsUser(msgs: seq<Msg>, summary: string): seq<Msg> {
    var k := IndexOf(msgs, summary);
    if summary == "" || k == |msgs| then msgs else msgs[k := msgs[k].(role := User)]
  }

  /**
  The selection is, in order, a part of the committed messages, where only the committed
  summary's role is changed; and those are, in order, a part of the history.
  */
  lemma SelectionKeepsOrder(msgs: seq<Msg>, summary: string)
    ensures Subsequence(Committed(msgs, summary), msgs)
    ensures Subsequence(Select(msgs, summary), SummaryAsUser(Committed(msgs, summary), summary))
  {
    CommittedKeepsOrder(msgs, summary);
    var kept := Committed(msgs, summary);
    var k := IndexOf(kept, summary);
    SubsequenceRefl(kept);
    if summary != "" && k < |kept| {
      OnlyTheRoleChanges(kept, k);
      AnchorKeepsOrder(kept[..k], FromSummary(kept, k));
    }
  }

  /* ---- Selecting twice ---- */

  lemma {:induction false} CommittedAll(msgs: seq<Msg>, summary: string)
    requires forall m | m in msgs :: !Uncommitted(m, summary)
    ensures Committed(msgs, summary) == msgs
  {
    if msgs != [] { CommittedAll(msgs[1..], summary); }
  }

  lemma IndexIs(msgs: seq<Msg>, id: string, i: nat)
    requires i < |msgs| && msgs[i].id == id && forall j | 0 <= j < i :: msgs[j].id != id
    ensures IndexOf(msgs, id) == i
  {
  }

  lemma ToolsEndIs(msgs: seq<Msg>, e: nat)
    requires e <= |msgs| && forall j | e <= j < |msgs| :: msgs[j].role == Tool
    ensures ToolsEnd(msgs, e) == |msgs|
  {
  }

  lemma {:induction false} NoAnchorInTools(msgs: seq<Msg>, n: nat)
    requires 1 <= n <= |msgs| && Anchors(msgs, 0) && forall j | 0 < j < |msgs| :: msgs[j].role == Tool
    ensures AnchorBefore(msgs, n) == Group(msgs, 0)
  {
    if n > 1 { NoAnchorInTools(msgs, n - 1); }
  }

  /** An anchor group is its own anchor. */
  lemma AnchorOfAnchor(msgs: seq<Msg>)
    ensures Anchor(Anchor(msgs)) == Anchor(msgs)
  {
    var a := Anchor(msgs);
    var i := AnchorIsLatest(msgs, |msgs|);
    if a != [] {
      AnchorIsClosed(msgs);
      ToolsEndIs(a, 1);
      assert Group(a, 0) == a by { assert CallIDs(a[0].parts) != {} ==> a[0..] == a; }
      NoAnchorInTools(a, |a|);
    }
  }

  lemma AlreadyUser(a: seq<Msg>, t: seq<Msg>)
    requires t != [] && t[0].role == User
    ensures FromSummary(a + t, |a|) == t
  {
    assert (a + t)[|a|] == t[0] && (a + t)[|a| + 1..] == t[1..];
    assert t == [t[0]] + t[1..];
  }

  /** A selection, selected from again. */
  lemma SelectAnchored(a: seq<Msg>, t: seq<Msg>, summary: string)
    requires t != [] && t[0].id == summary && t[0].role == User && summary != ""
    requires Anchor(a) == a && (forall m | m in a :: m.id != summary) && (forall m | m in a + t :: !Uncommitted(m, summary))
    ensures Select(a + t, summary) == a + t
  {
    var r := a + t;
    CommittedAll(r, summary);
    assert forall j | 0 <= j < |a| :: r[j] == a[j] && a[j] in a;
    IndexIs(r, summary, |a|);
    assert r[..|a|] == a;
    AlreadyUser(a, t);
  }

  /** Selecting from what was selected changes nothing, so a history survives any number of compactions of it. */
  lemma SelectingTwice(msgs: seq<Msg>, summary: string)
    ensures Select(Select(msgs, summary), summary) == Select(msgs, summary)
  {
    var kept := Committed(msgs, summary);
    var k := IndexOf(kept, summary);
    OnlyTheCommittedSummary(msgs, summary);
    if summary != "" && k < |kept| {
      var a := Anchor(kept[..k]);
      AnchorIsClosed(kept[..k]);
      AnchorOfAnchor(kept[..k]);
      forall m | m in a ensures m.id != summary {
        assert m in kept[..k];
      }
      SelectAnchored(a, FromSummary(kept, k), summary);
    } else {
      CommittedIs(msgs, summary);
      CommittedAll(kept, summary);
    }
  }
}
