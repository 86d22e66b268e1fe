/**
The message service: its map of pending states, and flushOne's retry loop. What other goroutines
do while a flush writes or waits is given by a list of turns.
*/
module MessageServices {
  import opened Common
  import opened Messages
  import opened Writers
  import opened WriterDecisions

  type ID = string

  /**
  Between two sections of a flush: the deltas that arrive, and how the write in flight goes, if it
  ends. A write that is reported as failed may have landed.
  */
  datatype Turn = Turn(deltas: seq<seq<Part>>, ends: bool, landed: bool, ok: bool)

  /** StillWaiting: the turns are used up and the loop has not returned. */
  datatype Outcome = Succeeded | Failed | StillWaiting

  /** The flags of a cell, with the snapshot of its write in flight, if any. */
  ghost predicate CellValid(c: Cell, writing: Option<Snap>) {
    && Coherent(c) && (c.flushing <==> writing.Some?)
    && (writing.Some? ==>
          && c.row.version <= writing.value.version <= c.latest.version
          && (!c.dirty ==> writing.value == c.latest))
  }

  /** From c to d versions did not go back. */
  predicate Advanced(c: Cell, d: Cell) {
    c.row.version <= d.row.version && c.latest.version <= d.latest.version && (c.present ==> d.present)
  }

  class MessageService {
    const immediate: bool
    var cells: map<ID, Cell>
    var writing: map<ID, Snap>

    constructor (immediate: bool, rows: map<ID, seq<Part>>)
      ensures Valid() && this.immediate == immediate && cells.Keys == rows.Keys
      ensures forall id | id in rows :: cells[id] == Initial(immediate, rows[id]).cell
    {
      this.immediate := immediate;
      cells := map id | id in rows :: Initial(immediate, rows[id]).cell;
      writing := map[];
    }

    ghost function InFlight(id: ID): Option<Snap>
      reads this
    {
      if id in writing then Some(writing[id]) else None
    }

    ghost predicate Valid()
      reads this
    {
      forall id | id in cells :: CellValid(cells[id], InFlight(id))
    }

    /** Only message id may have changed, and not backwards. */
    twostate predicate OnlyAdvances(id: ID)
      reads this
    {
      && cells.Keys == old(cells).Keys
      && (forall j | j in cells && j != id :: cells[j] == old(cells)[j] && InFlight(j) == old(InFlight(j)))
      && (id in cells ==> Advanced(old(cells)[id], cells[id]))
    }

    /** Update up to its unlock. flush: it goes on to flush synchronously. */
    method Buffer(id: ID, parts: seq<Part>) returns (flush: bool)
      requires Valid() && id in cells
      modifies this`cells
      ensures Valid() && OnlyAdvances(id)
      ensures cells == old(cells)[id := DoUpdate(old(cells)[id], parts, immediate)]
      ensures flush == FlushesAtOnce(old(cells)[id], parts, immediate)
    {
      var c := cells[id];
      var prev := if c.hasFlushed then Some(c.lastFlushed.parts) else None;
      c := c.(present := true, latest := Snap(c.latest.version + 1, parts), dirty := true);
      flush := immediate;
      if !immediate {
        flush := StructuralChange(prev, parts);
        if flush {
          c := c.(timer := false);
        } else if !c.timer && !c.flushing {
          c := c.(timer := true);
        }
      }
      cells := cells[id := c];
    }

    method Arrive(id: ID, deltas: seq<seq<Part>>)
      requires Valid() && id in cells
      modifies this`cells
      ensures Valid() && OnlyAdvances(id) && cells[id].flushing == old(cells)[id].flushing
    {
      var i := 0;
      while i < |deltas|
        invariant Valid() && OnlyAdvances(id) && cells[id].flushing == old(cells)[id].flushing
      {
        var flush := Buffer(id, deltas[i]);
        i := i + 1;
      }
    }

    /** The section after the write of snap. */
    method EndWrite(id: ID, landed: bool, ok: bool)
      requires Valid() && id in cells && cells[id].flushing && (ok ==> landed)
      modifies this
      ensures Valid() && OnlyAdvances(id) && !cells[id].flushing
      ensures id in old(writing)
      ensures var c, snap := old(cells)[id], old(writing)[id];
              cells[id] == DoFinish(if landed then c.(row := snap) else c, snap, ok)
    {
      var c, snap := cells[id], writing[id];
      if landed {
        c := c.(row := snap);
      }
      c := c.(flushing := false);
      if ok {
        c := c.(lastFlushed := snap, hasFlushed := true);
      } else {
        c := c.(dirty := true);
      }
      writing := writing - {id};
      cells := cells[id := c];
    }

    /** The section before a write. */
    method BeginWrite(id: ID)
      requires Valid() && id in cells && cells[id].dirty && !cells[id].flushing
      modifies this
      ensures Valid() && OnlyAdvances(id)
      ensures cells[id] == DoTake(old(cells)[id]) && InFlight(id) == Some(old(cells)[id].latest)
    {
      var c := cells[id];
      writing := writing[id := c.latest];
      cells := cells[id := c.(timer := false, flushing := true, dirty := false)];
    }

    /** One write of flushOne's loop. again: a delta arrived meanwhile. */
    method WriteOnce(id: ID, turn: Turn) returns (again: bool)
      requires Valid() && id in cells && cells[id].dirty && !cells[id].flushing
      modifies this
      ensures Valid() && OnlyAdvances(id) && !cells[id].flushing
      ensures !turn.ok ==> cells[id].dirty
      ensures turn.ok ==> again == cells[id].dirty
    {
      BeginWrite(id);
      Arrive(id, turn.deltas);
      EndWrite(id, turn.landed || turn.ok, turn.ok);
      again := cells[id].dirty;
    }

    method FlushOne(id: ID, sync: bool, turns: seq<Turn>) returns (r: Outcome)
      requires Valid()
      modifies this
      ensures Valid() && OnlyAdvances(id)
      ensures id in cells && sync && r == Succeeded ==>
                var c := cells[id]; !c.dirty && !c.flushing && c.row == c.latest && c.row.version >= old(cells)[id].latest.version
      ensures id in cells && r == Failed ==> cells[id].dirty
    {
      if id !in cells {
        return Succeeded;
      }
      var i := 0;
      while i < |turns|
        invariant i <= |turns| && Valid() && OnlyAdvances(id)
      {
        var c, turn := cells[id], turns[i];
        i := i + 1;
        if !c.present {
          return Succeeded;
        }
        if c.flushing {
          if !sync {
            return Succeeded;
          }
          Arrive(id, turn.deltas);
          if turn.ends {
            EndWrite(id, turn.landed || turn.ok, turn.ok);
          }
          continue;
        }
        if !c.dirty {
          return Succeeded;
        }
        var again := WriteOnce(id, turn);
        if !turn.ok {
          return Failed;
        }
        if !(again && sync) {
          return Succeeded;
        }
      }
      return StillWaiting;
    }

    method Update(id: ID, parts: seq<Part>, turns: seq<Turn>) returns (r: Outcome)
      requires Valid() && id in cells
      modifies this
      ensures Valid() && OnlyAdvances(id) && cells[id].latest.version > old(cells)[id].latest.version
      ensures (immediate || Structural(Written(old(cells)[id]), parts)) && r == Succeeded ==>
                cells[id].row == cells[id].latest && cells[id].row.version > old(cells)[id].latest.version
      ensures !immediate && !Structural(Written(old(cells)[id]), parts) ==>
                r == Succeeded && cells[id].row == old(cells)[id].row && cells[id].latest.parts == parts && cells[id].dirty
    {
      FlushesIff(Baseline(cells[id]), parts);
      var flush := Buffer(id, parts);
      r := Succeeded;
      if flush {
        r := FlushOne(id, true, turns);
      }
    }

    /** One turn of FlushAll's loop. */
    method FlushNext(id: ID, turns: seq<Turn>) returns (r: Outcome)
      requires Valid() && id in cells
      modifies this
      ensures Valid() && cells.Keys == old(cells).Keys
      ensures forall j | j in cells :: Advanced(old(cells)[j], cells[j])
      ensures r == Succeeded ==> cells[id].row.version >= old(cells)[id].latest.version
    {
      r := FlushOne(id, true, turns);
    }

    /** turns: what goes on during the flush of each message. */
    method FlushAll(turns: map<ID, seq<Turn>>) returns (r: Outcome)
      requires Valid()
      modifies this
      ensures Valid() && cells.Keys == old(cells).Keys
      ensures r == Succeeded ==> forall id | id in cells :: cells[id].row.version >= old(cells)[id].latest.version
    {
      var ids := set id | id in cells && (cells[id].dirty || cells[id].flushing);
      r := Succeeded;
      while ids != {}
        invariant Valid() && cells.Keys == old(cells).Keys && ids <= cells.Keys
        invariant forall id | id in cells :: Advanced(old(cells)[id], cells[id])
        invariant r == Succeeded ==>
                    forall id | id in cells && id !in ids :: cells[id].row.version >= old(cells)[id].latest.version
      {
        var id :| id in ids;
        ids := ids - {id};
        var one := FlushNext(id, if id in turns then turns[id] else []);
        if one != Succeeded && r == Succeeded {
          r := one;
        }
      }
    }
  }

  /** IsFinished. */
  method HasFinish(parts: seq<Part>) returns (r: bool)
    ensures r <==> exists p | p in parts :: p.Finish?
  {
    var i := 0;
    while i < |parts|
      invariant i <= |parts| && forall j | 0 <= j < i :: !parts[j].Finish?
    {
      if parts[i].Finish? {
        return true;
      }
      i := i + 1;
    }
    return false;
  }

  /** ToolCalls. */
  method ToolCalls(parts: seq<Part>) returns (calls: seq<Part>)
    ensures calls == CallsOf(parts)
  {
    calls := [];
    var i := 0;
    while i < |parts|
      invariant i <= |parts| && calls == CallsOf(parts[..i])
    {
      assert parts[..i + 1] == parts[..i] + [parts[i]];
      CallsJoin(parts[..i], [parts[i]]);
      assert [parts[i]][1..] == [];
      if parts[i].ToolCall? {
        calls := calls + [parts[i]];
      }
      i := i + 1;
    }
    assert parts[..i] == parts;
  }

  /** ReasoningContent().FinishedAt. */
  method ThoughtEnd(parts: seq<Part>) returns (t: int)
    ensures t == ReasoningEnd(parts)
  {
    var i := 0;
    while i < |parts|
      invariant i <= |parts| && forall j | 0 <= j < i :: !parts[j].Reasoning?
    {
      if parts[i].Reasoning? {
        return parts[i].finishedAt;
      }
      i := i + 1;
    }
    return 0;
  }

  /** The loop over the calls of two messages that have as many of them. */
  method FlagsDiffer(a: seq<Part>, b: seq<Part>) returns (r: bool)
    requires AreCalls(a) && AreCalls(b) && |a| == |b|
    ensures r <==> exists k :: 0 <= k < |a| && a[k].finished != b[k].finished
  {
    var i := 0;
    while i < |a|
      invariant i <= |a| && forall j | 0 <= j < i :: a[j].finished == b[j].finished
    {
      if a[i].finished != b[i].finished {
        return true;
      }
      i := i + 1;
    }
    return false;
  }

  lemma FlagsSettle(a: seq<Part>, b: seq<Part>)
    ensures AreCalls(CallsOf(a)) && AreCalls(CallsOf(b))
    ensures |CallsOf(a)| == |CallsOf(b)| ==>
              (CallsDiffer(a, b) <==> exists k :: 0 <= k < |CallsOf(a)| && CallsOf(a)[k].finished != CallsOf(b)[k].finished)
  {
    CallsAreCalls(a);
    CallsAreCalls(b);
    if k :| 0 <= k < |CallsOf(a)| && k < |CallsOf(b)| && CallsOf(a)[k].finished != CallsOf(b)[k].finished {
      assert CallDiffers(a, b, k);
    }
  }

  /** shouldFlushNow. */
  method StructuralChange(prev: Option<seq<Part>>, next: seq<Part>) returns (r: bool)
    ensures r == ShouldFlushNow(prev, next)
    ensures r <==> Structural(if prev.Some? then prev.value else [], next)
  {
    FlushesIff(prev, next);
    FlagsSettle(next, if prev.Some? then prev.value else []);
    var finished := HasFinish(next);
    if finished {
      return true;
    }
    var was, wasEnd := [], 0;
    if prev.Some? {
      was := ToolCalls(prev.value);
      wasEnd := ThoughtEnd(prev.value);
    }
    var calls := ToolCalls(next);
    if |calls| != |was| {
      return true;
    }
    var differ := FlagsDiffer(calls, was);
    if differ {
      return true;
    }
    var end := ThoughtEnd(next);
    return end > 0 && wasEnd == 0;
  }
}
