/**
 * The diagram store: the ordered block list, the connection list, the
 * selection and the drag flag, and the operations the canvas calls on them.
 */
module DiagramStore {
  import opened Sequences
  import opened DiagramTypes
  import opened Links
  import opened Layout
  import opened AutoConnect

  /** `toUpperCase` on one character, for the ASCII letters block type names are made of. */
  function UpperCase(c: char): (r: char)
    ensures 'a' <= c <= 'z' ==> 'A' <= r <= 'Z' && r as int - c as int == 'A' as int - 'a' as int
    ensures !('a' <= c <= 'z') ==> r == c
  {
    if 'a' <= c <= 'z' then (c as int - 32) as char else c
  }

  /** `s.charAt(0).toUpperCase() + s.slice(1)`. */
  function Capitalize(s: string): (r: string)
    ensures |r| == |s|
    ensures s != [] ==> r[0] == UpperCase(s[0]) && r[1..] == s[1..]
  {
    if s == [] then [] else [UpperCase(s[0])] + s[1..]
  }

  /** The label a new block gets: its capitalised type name followed by " Block". */
  function Label(kind: BlockType): (r: string)
    ensures |r| == |TypeName(kind)| + 6
    ensures r[|TypeName(kind)|..] == " Block"
    ensures 'A' <= r[0] <= 'Z' && r[1..|TypeName(kind)|] == TypeName(kind)[1..]
  {
    Capitalize(TypeName(kind)) + " Block"
  }

  lemma TriggerLabel()
    ensures Label(Trigger) == "Trigger Block"
  {
    assert "trigger"[1..] == "rigger";
  }

  lemma ExtractionLabel()
    ensures Label(Extraction) == "Extraction Block"
  {
    assert "extraction"[1..] == "xtraction";
  }

  lemma GenerationLabel()
    ensures Label(Generation) == "Generation Block"
  {
    assert "generation"[1..] == "eneration";
  }

  lemma ConditionLabel()
    ensures Label(Condition) == "Condition Block"
  {
    assert "condition"[1..] == "ondition";
  }

  lemma ActionLabel()
    ensures Label(Action) == "Action Block"
  {
    assert "action"[1..] == "ction";
  }

  lemma EndLabel()
    ensures Label(End) == "End Block"
  {
    assert "end"[1..] == "nd";
  }

  /** The label of a new block: its type name, capitalised, followed by " Block". */
  lemma BlockLabel(kind: BlockType)
    ensures Label(kind) == match kind
      case Trigger => "Trigger Block"
      case Extraction => "Extraction Block"
      case Generation => "Generation Block"
      case Condition => "Condition Block"
      case Action => "Action Block"
      case End => "End Block"
  {
    match kind
    case Trigger => TriggerLabel();
    case Extraction => ExtractionLabel();
    case Generation => GenerationLabel();
    case Condition => ConditionLabel();
    case Action => ActionLabel();
    case End => EndLabel();
  }

  /** Where `addBlock` puts a new block: 8 rows below the last block of the list, or row 5. */
  function NextPosition(blocks: seq<Block>): (p: Position)
    ensures p.column == InitialColumn
    ensures blocks == [] ==> p.row == FirstRow
    ensures blocks != [] ==> p.row - blocks[|blocks| - 1].position.row == VerticalSpacing
  {
    Position(if |blocks| > 0 then blocks[|blocks| - 1].position.row + VerticalSpacing else FirstRow,
             InitialColumn)
  }

  /** Appending at `NextPosition` keeps a strictly increasing layout strictly increasing. */
  lemma AppendKeepsRowsIncreasing(blocks: seq<Block>, b: Block)
    requires RowsIncreasing(blocks) && b.position == NextPosition(blocks)
    ensures RowsIncreasing(blocks + [b])
  {
    var r := blocks + [b];
    forall i, j | 0 <= i < j < |r|
      ensures r[i].position.row < r[j].position.row
    {
      if j == |blocks| && i < |blocks| - 1 {
        assert blocks[i].position.row < blocks[|blocks| - 1].position.row;
      }
    }
  }

  /** An id no block carries and no connection mentions, as a freshly generated id is. */
  predicate FreshBlockId(blocks: seq<Block>, conns: seq<Connection>, id: string)
  {
    !HasBlock(blocks, id) && forall c :: c in conns ==> c.sourceId != id && c.targetId != id
  }

  /** An id that no connection mentions has no sources and no targets. */
  lemma {:induction false} UnmentionedHasNoLinks(conns: seq<Connection>, id: string)
    requires forall c :: c in conns ==> c.sourceId != id && c.targetId != id
    ensures SourcesOf(conns, id) == [] && TargetsOf(conns, id) == []
  {
    if conns != [] {
      assert forall c :: c in conns[1..] ==> c in conns;
      UnmentionedHasNoLinks(conns[1..], id);
    }
  }

  /**
   * Appending an unconnected block with a fresh id keeps ids unique, the
   * lists in sync and every block within its limits.
   */
  lemma AppendFreshKeepsInvariants(blocks: seq<Block>, b: Block, conns: seq<Connection>)
    requires FreshBlockId(blocks, conns, b.id) && b.inputs == [] && b.outputs == []
    ensures UniqueIds(blocks) ==> UniqueIds(blocks + [b])
    ensures Linked(blocks, conns) ==> Linked(blocks + [b], conns)
    ensures WithinCapacity(blocks) ==> WithinCapacity(blocks + [b])
  {
    var r := blocks + [b];
    forall i, j | 0 <= i < j < |r| && UniqueIds(blocks)
      ensures r[i].id != r[j].id
    {
      if j == |blocks| {
        assert r[i] == blocks[i];
      }
    }
    UnmentionedHasNoLinks(conns, b.id);
    assert InSync(b, conns);
  }

  /** Two lists agreeing position by position on every block's id, type and derived lists. */
  predicate SameLinks(s: seq<Block>, r: seq<Block>)
  {
    |s| == |r| &&
    forall i :: 0 <= i < |s| ==>
      s[i].id == r[i].id && s[i].kind == r[i].kind && s[i].inputs == r[i].inputs && s[i].outputs == r[i].outputs
  }

  /**
   * An update that touches neither ids, types nor derived lists keeps ids
   * unique, lists in sync and blocks within their limits.
   */
  lemma SameLinksKeepInvariants(s: seq<Block>, r: seq<Block>, conns: seq<Connection>)
    requires SameLinks(s, r)
    ensures UniqueIds(s) ==> UniqueIds(r)
    ensures Linked(s, conns) ==> Linked(r, conns)
    ensures WithinCapacity(s) ==> WithinCapacity(r)
  {
    forall b | b in r
      ensures Linked(s, conns) ==> InSync(b, conns)
      ensures WithinCapacity(s) ==> Fits(b)
    {
      var i :| 0 <= i < |r| && r[i] == b;
      assert s[i] in s;
    }
  }

  /** Sorting and respacing moves blocks, but keeps the derived lists in sync and within their limits. */
  lemma ReorderKeepsInvariants(s: seq<Block>, conns: seq<Connection>)
    ensures Linked(s, conns) ==> Linked(Respace(SortByRow(s)), conns)
    ensures WithinCapacity(s) ==> WithinCapacity(SortByRow(s)) && WithinCapacity(Respace(SortByRow(s)))
  {
    var sorted := SortByRow(s);
    forall b | b in sorted
      ensures Linked(s, conns) ==> InSync(b, conns)
      ensures WithinCapacity(s) ==> Fits(b)
    {
      assert b in multiset(s);
    }
    SameLinksKeepInvariants(sorted, Respace(sorted), conns);
  }

  /** The block update of `updateBlockPosition`: the block with `id` gets `position`. */
  function SetPosition(blocks: seq<Block>, id: string, position: Position): (r: seq<Block>)
    ensures |r| == |blocks|
    ensures forall i :: 0 <= i < |r| ==> r[i].(position := blocks[i].position) == blocks[i]
    ensures forall i :: 0 <= i < |r| ==> r[i].position == if blocks[i].id == id then position else blocks[i].position
  {
    seq(|blocks|, i requires 0 <= i < |blocks| =>
      if blocks[i].id == id then blocks[i].(position := position) else blocks[i])
  }

  /** The block update of `updateBlockState`: only the `state` of the block with `id` changes. */
  function SetState(blocks: seq<Block>, id: string, state: BlockState): (r: seq<Block>)
    ensures |r| == |blocks|
    ensures forall i :: 0 <= i < |r| ==> r[i].(state := blocks[i].state) == blocks[i]
    ensures forall i :: 0 <= i < |r| ==> r[i].state == if blocks[i].id == id then state else blocks[i].state
  {
    seq(|blocks|, i requires 0 <= i < |blocks| =>
      if blocks[i].id == id then blocks[i].(state := state) else blocks[i])
  }

  /**
   * The block update of `updateBlockConfig`, a shallow merge: keys of
   * `config` take its values, the block's other keys keep theirs.
   */
  function MergeConfig(blocks: seq<Block>, id: string, config: Config): (r: seq<Block>)
    ensures |r| == |blocks|
    ensures forall i :: 0 <= i < |r| ==> r[i].(config := blocks[i].config) == blocks[i]
    ensures forall i :: 0 <= i < |r| && blocks[i].id != id ==> r[i] == blocks[i]
    ensures forall i :: 0 <= i < |r| && blocks[i].id == id ==>
      r[i].config.Keys == blocks[i].config.Keys + config.Keys
    ensures forall i, k :: 0 <= i < |r| && blocks[i].id == id && k in config ==>
      r[i].config[k] == config[k]
    ensures forall i, k :: 0 <= i < |r| && blocks[i].id == id && k in blocks[i].config && k !in config ==>
      r[i].config[k] == blocks[i].config[k]
  {
    seq(|blocks|, i requires 0 <= i < |blocks| =>
      if blocks[i].id == id then blocks[i].(config := blocks[i].config + config) else blocks[i])
  }

  /** Removing an absent id filters nothing out. */
  lemma {:induction false} WithoutAbsentBlock(blocks: seq<Block>, id: string)
    requires !HasBlock(blocks, id)
    ensures WithoutBlock(blocks, id) == blocks
  {
    if blocks != [] {
      assert !HasBlock(blocks[1..], id) by {
        forall j | 0 <= j < |blocks[1..]|
          ensures blocks[1..][j].id != id
        {
          assert blocks[1..][j] == blocks[j + 1];
        }
      }
      WithoutAbsentBlock(blocks[1..], id);
      assert blocks == [blocks[0]] + blocks[1..];
    }
  }

  /** With unique ids, removing the first block's id leaves exactly the rest. */
  lemma WithoutHead(blocks: seq<Block>)
    requires UniqueIds(blocks) && blocks != []
    ensures WithoutBlock(blocks, blocks[0].id) == blocks[1..]
  {
    var id := blocks[0].id;
    assert WithoutBlock(blocks, id) == WithoutBlock(blocks[1..], id);
    forall j | 0 <= j < |blocks| - 1
      ensures blocks[1..][j].id != id
    {
      assert blocks[1..][j] == blocks[j + 1];
    }
    WithoutAbsentBlock(blocks[1..], id);
  }

  /** Removing an id distributes over concatenation. */
  lemma WithoutBlockConcat(a: seq<Block>, b: seq<Block>, id: string)
    ensures WithoutBlock(a + b, id) == WithoutBlock(a, id) + WithoutBlock(b, id)
  {
    FilterConcat(a, b, (x: Block) => x.id != id);
  }

  /** A suffix of a list without duplicate ids has none either. */
  lemma SuffixUniqueIds(blocks: seq<Block>, i: int)
    requires UniqueIds(blocks) && 0 <= i <= |blocks|
    ensures UniqueIds(blocks[i..])
  {
    var after := blocks[i..];
    forall p, q | 0 <= p < q < |after|
      ensures after[p].id != after[q].id
    {
      assert after[p] == blocks[i + p] && after[q] == blocks[i + q];
    }
  }

  /** With unique ids, no block before position `i` carries the id of block `i`. */
  lemma PrefixLacksId(blocks: seq<Block>, i: int)
    requires UniqueIds(blocks) && 0 <= i < |blocks|
    ensures !HasBlock(blocks[..i], blocks[i].id)
  {
    forall j | 0 <= j < i
      ensures blocks[..i][j].id != blocks[i].id
    {
    }
  }

  /**
   * With unique ids, `removeBlock` takes out exactly the block at `i` and
   * leaves the others in their existing order.
   */
  lemma WithoutBlockAt(blocks: seq<Block>, i: int)
    requires UniqueIds(blocks) && 0 <= i < |blocks|
    ensures WithoutBlock(blocks, blocks[i].id) == blocks[..i] + blocks[i + 1..]
  {
    var id := blocks[i].id;
    var before, after := blocks[..i], blocks[i..];
    assert blocks == before + after;
    WithoutBlockConcat(before, after, id);
    PrefixLacksId(blocks, i);
    WithoutAbsentBlock(before, id);
    SuffixUniqueIds(blocks, i);
    WithoutHead(after);
    assert after[1..] == blocks[i + 1..];
  }

  /** Filtering blocks out never makes two blocks share an id. */
  lemma {:induction false} WithoutBlockKeepsUniqueIds(blocks: seq<Block>, id: string)
    requires UniqueIds(blocks)
    ensures UniqueIds(WithoutBlock(blocks, id))
  {
    if blocks != [] {
      var rest := WithoutBlock(blocks[1..], id);
      WithoutBlockKeepsUniqueIds(blocks[1..], id);
      assert WithoutBlock(blocks, id) == (if blocks[0].id != id then [blocks[0]] else []) + rest;
      if blocks[0].id != id {
        forall y | y in rest
          ensures y.id != blocks[0].id
        {
          var j :| 0 <= j < |blocks[1..]| && blocks[1..][j] == y;
          assert y == blocks[j + 1];
        }
        ConsUniqueIds(blocks[0], rest);
      }
    }
  }

  /** The in-memory store; the methods are its write side, the fields its read side. */
  class Store {
    var blocks: seq<Block>
    var connections: seq<Connection>
    var selectedBlockId: Option<string>
    var isDragging: bool

    /** Block ids are unique: each new id is fresh, and no operation copies a block. */
    ghost predicate Valid()
      reads this
    {
      UniqueIds(blocks)
    }

    /** The store starts empty, with nothing selected and no drag in progress. */
    constructor ()
      ensures Valid()
      ensures blocks == [] && connections == [] && selectedBlockId == None && !isDragging
    {
      blocks := [];
      connections := [];
      selectedBlockId := None;
      isDragging := false;
    }

    /** `canConnectBlocks`: a query on the current blocks that changes nothing. */
    method CanConnectBlocks(sourceId: string, targetId: string) returns (ok: bool)
      ensures ok == CanConnect(blocks, sourceId, targetId)
    {
      ok := CanConnect(blocks, sourceId, targetId);
    }

    /**
     * `addBlock`: appends an idle, unconnected block 8 rows below the last
     * one. The source then asks whether the previous block may feed the new
     * one, but asks before the new block is stored, so the answer is always
     * no and the connections never change.
     */
    method AddBlock(kind: BlockType, config: Config, id: string)
      requires Valid()
      requires FreshBlockId(blocks, connections, id)
      modifies this
      ensures Valid()
      ensures blocks == old(blocks) + [Block(id, kind, NextPosition(old(blocks)), Label(kind), Idle, [], [], config)]
      ensures connections == old(connections)
      ensures selectedBlockId == old(selectedBlockId) && isDragging == old(isDragging)
      ensures old(Linked(blocks, connections)) ==> Linked(blocks, connections)
      ensures old(RowsIncreasing(blocks)) ==> RowsIncreasing(blocks)
      ensures old(WithinCapacity(blocks)) ==> WithinCapacity(blocks)
    {
      var previous := blocks;
      var block := Block(id, kind, NextPosition(previous), Label(kind), Idle, [], [], config);
      if |previous| > 0 {
        var linked := CanConnectBlocks(previous[|previous| - 1].id, id);
        if linked {
          // unreachable: the new id is not in the list yet
          assert false;
        }
      }
      blocks := previous + [block];
      AppendFreshKeepsInvariants(previous, block, connections);
      if RowsIncreasing(previous) {
        AppendKeepsRowsIncreasing(previous, block);
      }
    }

    /**
     * `autoConnectBlocks`: with two or more blocks, replaces the connections
     * by the chain over the stable row order, whatever the types, and
     * recomputes every block's `inputs`/`outputs`; the block order stays.
     * With fewer blocks it changes nothing.
     */
    method AutoConnectBlocks()
      requires Valid()
      modifies this
      ensures Valid()
      ensures |old(blocks)| <= 1 ==> blocks == old(blocks) && connections == old(connections)
      ensures |old(blocks)| > 1 ==> connections == ChainConnections(SortByRow(old(blocks)))
      ensures |old(blocks)| > 1 ==> blocks == Relink(old(blocks), connections)
      ensures |old(blocks)| > 1 ==> Linked(blocks, connections)
      ensures selectedBlockId == old(selectedBlockId) && isDragging == old(isDragging)
    {
      if |blocks| <= 1 {
        return;
      }
      var current := blocks;
      var ordered := SortByRow(current);
      var newConnections: seq<Connection> := [];
      var i := 0;
      while i < |ordered| - 1
        invariant 0 <= i <= |ordered| - 1
        invariant |newConnections| == i
        invariant forall k :: 0 <= k < i ==> newConnections[k] == ChainLink(ordered[k], ordered[k + 1])
      {
        newConnections := newConnections + [ChainLink(ordered[i], ordered[i + 1])];
        i := i + 1;
      }
      assert |ordered| == |current| > 1;
      var chain := ChainConnections(ordered);
      assert |chain| == |newConnections|;
      forall k | 0 <= k < |chain|
        ensures newConnections[k] == chain[k]
      {
        assert k < i;
        assert newConnections[k] == ChainLink(ordered[k], ordered[k + 1]);
      }
      assert newConnections == chain;
      RelinkKeepsUniqueIds(current, newConnections);
      connections := newConnections;
      blocks := Relink(current, newConnections);
    }

    /**
     * `reorderBlocks`: stable-sorts the blocks by row and respaces them on
     * rows 5, 13, 21, ... of column 10. The source then schedules an
     * auto-connect pass on a timer; here the caller runs `AutoConnectBlocks`.
     */
    method ReorderBlocks()
      requires Valid()
      modifies this
      ensures Valid()
      ensures blocks == Respace(SortByRow(old(blocks)))
      ensures connections == old(connections)
      ensures selectedBlockId == old(selectedBlockId) && isDragging == old(isDragging)
      ensures RowsIncreasing(blocks)
      ensures old(Linked(blocks, connections)) ==> Linked(blocks, connections)
      ensures old(WithinCapacity(blocks)) ==> WithinCapacity(blocks)
    {
      var ordered := SortByRow(blocks);
      SortKeepsUniqueIds(blocks);
      RespaceKeepsUniqueIds(ordered);
      ReorderKeepsInvariants(blocks, connections);
      RespacedRowsIncrease(ordered);
      blocks := Respace(ordered);
    }

    /**
     * `removeBlock`: drops the block and every connection touching it, then
     * respaces the survivors in their existing order. Unknown ids still
     * respace. Other blocks' `inputs`/`outputs` are left as they were.
     */
    method RemoveBlock(id: string)
      requires Valid()
      modifies this
      ensures Valid()
      ensures blocks == Respace(WithoutBlock(old(blocks), id))
      ensures connections == DropConnectionsOf(old(connections), id)
      ensures selectedBlockId == old(selectedBlockId) && isDragging == old(isDragging)
      ensures RowsIncreasing(blocks)
      ensures old(WithinCapacity(blocks)) ==> WithinCapacity(blocks)
    {
      var remaining := WithoutBlock(blocks, id);
      WithoutBlockKeepsUniqueIds(blocks, id);
      RespaceKeepsUniqueIds(remaining);
      RespacedRowsIncrease(remaining);
      SameLinksKeepInvariants(remaining, Respace(remaining), connections);
      connections := DropConnectionsOf(connections, id);
      blocks := Respace(remaining);
    }

    /**
     * `updateBlockPosition`: moves the block, sorts by row, clears every
     * connection, then runs `reorderBlocks`. Unknown ids still sort, clear
     * and respace.
     */
    method UpdateBlockPosition(id: string, position: Position)
      requires Valid()
      modifies this
      ensures Valid()
      ensures blocks == Respace(SortByRow(SetPosition(old(blocks), id, position)))
      ensures connections == []
      ensures selectedBlockId == old(selectedBlockId) && isDragging == old(isDragging)
      ensures RowsIncreasing(blocks)
      ensures old(WithinCapacity(blocks)) ==> WithinCapacity(blocks)
    {
      var moved := SetPosition(blocks, id, position);
      SameLinksKeepInvariants(blocks, moved, connections);
      ReorderKeepsInvariants(moved, connections);
      SortKeepsUniqueIds(moved);
      blocks := SortByRow(moved);
      connections := [];
      ReorderBlocks();
      SortIdempotent(moved);
    }

    /** `updateBlockState`: only the state of the block with `id` changes. */
    method UpdateBlockState(id: string, state: BlockState)
      requires Valid()
      modifies this
      ensures Valid()
      ensures blocks == SetState(old(blocks), id, state)
      ensures connections == old(connections)
      ensures selectedBlockId == old(selectedBlockId) && isDragging == old(isDragging)
      ensures old(Linked(blocks, connections)) ==> Linked(blocks, connections)
      ensures old(WithinCapacity(blocks)) ==> WithinCapacity(blocks)
    {
      SameLinksKeepInvariants(blocks, SetState(blocks, id, state), connections);
      blocks := SetState(blocks, id, state);
    }

    /** `updateBlockConfig`: shallow-merges `config` into the configuration of the block with `id`. */
    method UpdateBlockConfig(id: string, config: Config)
      requires Valid()
      modifies this
      ensures Valid()
      ensures blocks == MergeConfig(old(blocks), id, config)
      ensures connections == old(connections)
      ensures selectedBlockId == old(selectedBlockId) && isDragging == old(isDragging)
      ensures old(Linked(blocks, connections)) ==> Linked(blocks, connections)
      ensures old(WithinCapacity(blocks)) ==> WithinCapacity(blocks)
    {
      SameLinksKeepInvariants(blocks, MergeConfig(blocks, id, config), connections);
      blocks := MergeConfig(blocks, id, config);
    }

    /**
     * `connectBlocks`: when the check passes, appends one connection with a
     * fresh id and records it in both endpoints' lists; otherwise returns
     * false and changes nothing.
     */
    method ConnectBlocks(sourceId: string, targetId: string, connectionId: string) returns (ok: bool)
      requires Valid()
      requires forall c :: c in connections ==> c.id != connectionId
      modifies this
      ensures Valid()
      ensures ok == CanConnect(old(blocks), sourceId, targetId)
      ensures !ok ==> blocks == old(blocks) && connections == old(connections)
      ensures ok ==> connections == old(connections) + [Connection(connectionId, sourceId, targetId, None, None)]
      ensures ok ==> blocks == AttachEdge(old(blocks), sourceId, targetId)
      ensures old(Linked(blocks, connections)) ==> Linked(blocks, connections)
      ensures old(WithinCapacity(blocks)) ==> WithinCapacity(blocks)
      ensures selectedBlockId == old(selectedBlockId) && isDragging == old(isDragging)
    {
      ok := CanConnectBlocks(sourceId, targetId);
      if !ok {
        return;
      }
      var connection := Connection(connectionId, sourceId, targetId, None, None);
      var attached := AttachEdge(blocks, sourceId, targetId);
      assert SameKeys(blocks, attached);
      assert UniqueIds(attached) by {
        forall i, j | 0 <= i < j < |attached|
          ensures attached[i].id != attached[j].id
        {
          assert attached[i].id == blocks[i].id && attached[j].id == blocks[j].id;
        }
      }
      if Linked(blocks, connections) {
        ConnectKeepsLinked(blocks, connections, connection);
      }
      if WithinCapacity(blocks) {
        ConnectKeepsCapacity(blocks, sourceId, targetId);
      }
      connections := connections + [connection];
      blocks := attached;
    }

    /**
     * `removeConnection`: an unknown id changes nothing; otherwise every
     * connection with that id goes, and the first one's endpoints drop each
     * other from their lists.
     */
    method RemoveConnection(connectionId: string)
      requires Valid()
      modifies this
      ensures Valid()
      ensures FindConnection(old(connections), connectionId).None? ==>
        blocks == old(blocks) && connections == old(connections)
      ensures FindConnection(old(connections), connectionId).Some? ==>
        var c := FindConnection(old(connections), connectionId).value;
        connections == DropConnection(old(connections), connectionId) &&
        blocks == DetachEdge(old(blocks), c.sourceId, c.targetId)
      ensures selectedBlockId == old(selectedBlockId) && isDragging == old(isDragging)
    {
      var found := FindConnection(connections, connectionId);
      if found.Some? {
        var c := found.value;
        var detached := DetachEdge(blocks, c.sourceId, c.targetId);
        assert UniqueIds(detached) by {
          forall i, j | 0 <= i < j < |detached|
            ensures detached[i].id != detached[j].id
          {
            assert detached[i].id == blocks[i].id && detached[j].id == blocks[j].id;
          }
        }
        connections := DropConnection(connections, connectionId);
        blocks := detached;
      }
    }

    /** `setSelectedBlock`. */
    method SetSelectedBlock(id: Option<string>)
      modifies this
      ensures selectedBlockId == id
      ensures blocks == old(blocks) && connections == old(connections) && isDragging == old(isDragging)
    {
      selectedBlockId := id;
    }

    /** `setIsDragging`. */
    method SetIsDragging(dragging: bool)
      modifies this
      ensures isDragging == dragging
      ensures blocks == old(blocks) && connections == old(connections) && selectedBlockId == old(selectedBlockId)
    {
      isDragging := dragging;
    }
  }

  /**
   * Building a trigger, an extraction and an action from an empty store:
   * adding creates no connection, and the auto-connect pass then chains the
   * three in row order.
   */
  method PipelineScenario() returns (before: nat, after: nat, triggerOutputs: seq<string>, actionInputs: seq<string>)
    ensures before == 0 && after == 2
    ensures triggerOutputs == ["extract"] && actionInputs == ["extract"]
  {
    var store := new Store();
    store.AddBlock(Trigger, map[], "trigger");
    store.AddBlock(Extraction, map[], "extract");
    store.AddBlock(Action, map[], "act");
    before := |store.connections|;
    var laidOut := store.blocks;
    assert SortedByRow(laidOut);
    SortedIsFixed(laidOut);
    store.AutoConnectBlocks();
    after := |store.connections|;
    ChainNeighbours(laidOut, 0);
    ChainNeighbours(laidOut, 2);
    assert store.blocks[0] in store.blocks && store.blocks[2] in store.blocks;
    triggerOutputs := store.blocks[0].outputs;
    actionInputs := store.blocks[2].inputs;
  }

  /** With unique ids, attaching an edge between the blocks at `i` and `j` touches those two only. */
  lemma AttachAt(blocks: seq<Block>, i: int, j: int)
    requires UniqueIds(blocks) && 0 <= i < |blocks| && 0 <= j < |blocks| && i != j
    ensures var r := AttachEdge(blocks, blocks[i].id, blocks[j].id);
      && UniqueIds(r)
      && r[i] == blocks[i].(outputs := blocks[i].outputs + [blocks[j].id])
      && r[j] == blocks[j].(inputs := blocks[j].inputs + [blocks[i].id])
      && forall k :: 0 <= k < |r| && k != i && k != j ==> r[k] == blocks[k]
  {
    var r := AttachEdge(blocks, blocks[i].id, blocks[j].id);
    forall p, q | 0 <= p < q < |r|
      ensures r[p].id != r[q].id
    {
      assert r[p].id == blocks[p].id && r[q].id == blocks[q].id;
    }
  }

  /** A block whose outputs have reached its type's limit refuses any further connection. */
  lemma FullSourceRefuses(blocks: seq<Block>, i: int, targetId: string)
    requires UniqueIds(blocks) && 0 <= i < |blocks|
    requires |blocks[i].outputs| >= BlockIO(blocks[i].kind).outputs
    ensures !CanConnect(blocks, blocks[i].id, targetId)
  {
    FindBlockUnique(blocks, i);
  }

  /**
   * A condition block with a free output accepts a permitted target with a
   * free input; the edge changes those two blocks only.
   */
  lemma ConditionAccepts(blocks: seq<Block>, c: int, x: int) returns (r: seq<Block>)
    requires UniqueIds(blocks) && 0 <= c < |blocks| && 0 <= x < |blocks| && c != x
    requires blocks[c].kind == Condition && |blocks[c].outputs| < 2
    requires blocks[x].kind in ValidConnections(Condition) && blocks[x].kind != Trigger && blocks[x].inputs == []
    ensures CanConnect(blocks, blocks[c].id, blocks[x].id)
    ensures r == AttachEdge(blocks, blocks[c].id, blocks[x].id)
    ensures UniqueIds(r) && |r| == |blocks|
    ensures r[c] == blocks[c].(outputs := blocks[c].outputs + [blocks[x].id])
    ensures forall k :: 0 <= k < |r| && k != c && k != x ==> r[k] == blocks[k]
  {
    CanConnectAt(blocks, c, x);
    r := AttachEdge(blocks, blocks[c].id, blocks[x].id);
    AttachAt(blocks, c, x);
  }

  /**
   * A condition block with no outputs accepts connections to two permitted
   * targets with a free input, after which it is full, so `FullSourceRefuses`
   * applies to any third target. (A trigger is listed as a target but has
   * no input to give.)
   */
  lemma ConditionFanOut(blocks: seq<Block>, c: int, x: int, y: int) returns (once: seq<Block>, twice: seq<Block>)
    requires UniqueIds(blocks)
    requires 0 <= c < |blocks| && 0 <= x < |blocks| && 0 <= y < |blocks|
    requires c != x && c != y && x != y
    requires blocks[c].kind == Condition && blocks[c].outputs == []
    requires blocks[x].kind in ValidConnections(Condition) && blocks[x].kind != Trigger && blocks[x].inputs == []
    requires blocks[y].kind in ValidConnections(Condition) && blocks[y].kind != Trigger && blocks[y].inputs == []
    ensures CanConnect(blocks, blocks[c].id, blocks[x].id)
    ensures once == AttachEdge(blocks, blocks[c].id, blocks[x].id)
    ensures CanConnect(once, blocks[c].id, blocks[y].id)
    ensures twice == AttachEdge(once, blocks[c].id, blocks[y].id)
    ensures UniqueIds(twice) && |twice| == |blocks| && twice[c].kind == Condition
    ensures twice[c].outputs == [blocks[x].id, blocks[y].id]
    ensures |twice[c].outputs| == BlockIO(Condition).outputs
  {
    once := ConditionAccepts(blocks, c, x);
    assert once[c].kind == Condition && once[c].outputs == [blocks[x].id];
    assert once[c].id == blocks[c].id && once[y] == blocks[y];
    twice := ConditionAccepts(once, c, y);
  }

  /**
   * `removeBlock` leaves stale ids behind: a surviving block that fed the
   * removed one keeps its id among its outputs, though no block carries it
   * any more, so the lists no longer mirror the remaining connections.
   */
  lemma RemoveBlockLeavesStaleIds(blocks: seq<Block>, conns: seq<Connection>, i: int, j: int)
    requires UniqueIds(blocks) && 0 <= i < |blocks| && 0 <= j < |blocks| && i != j
    requires blocks[i].id in blocks[j].outputs
    ensures var r := Respace(WithoutBlock(blocks, blocks[i].id));
      && |r| == |blocks| - 1
      && !HasBlock(r, blocks[i].id)
      && var k := if j < i then j else j - 1;
      && r[k].id == blocks[j].id && blocks[i].id in r[k].outputs
      && !Linked(r, DropConnectionsOf(conns, blocks[i].id))
  {
    var id := blocks[i].id;
    var remaining := WithoutBlock(blocks, id);
    WithoutBlockAt(blocks, i);
    var k := if j < i then j else j - 1;
    assert remaining[k] == blocks[j];
    var r := Respace(remaining);
    assert r[k].id == blocks[j].id && r[k].outputs == blocks[j].outputs;
    var dropped := DropConnectionsOf(conns, id);
    TargetsOfMembers(dropped, r[k].id);
    assert id !in TargetsOf(dropped, r[k].id);
    assert r[k] in r && !InSync(r[k], dropped);
  }

  /**
   * While the lists are in sync, `removeBlock` drops exactly as many
   * connections as the removed block has inputs and outputs: one of each
   * lowers the count by two.
   */
  lemma RemoveBlockConnectionCount(blocks: seq<Block>, conns: seq<Connection>, i: int)
    requires Linked(blocks, conns) && 0 <= i < |blocks|
    requires forall c :: c in conns ==> c.sourceId != c.targetId
    ensures |DropConnectionsOf(conns, blocks[i].id)| == |conns| - |blocks[i].inputs| - |blocks[i].outputs|
  {
    assert blocks[i] in blocks;
    DropConnectionsOfCount(conns, blocks[i].id);
  }

  /**
   * `updateBlockPosition` clears the connections but not the lists: a block
   * that had an output still lists it afterwards, so the lists no longer
   * mirror the (empty) connection list until an auto-connect pass runs.
   */
  lemma UpdatePositionLeavesStaleIds(blocks: seq<Block>, id: string, position: Position, j: int) returns (k: int)
    requires 0 <= j < |blocks| && blocks[j].outputs != []
    ensures var r := Respace(SortByRow(SetPosition(blocks, id, position)));
      && 0 <= k < |r| && r[k].id == blocks[j].id && r[k].outputs == blocks[j].outputs
      && !Linked(r, [])
  {
    var moved := SetPosition(blocks, id, position);
    var sorted := SortByRow(moved);
    var r := Respace(sorted);
    assert moved[j] in multiset(sorted);
    k :| 0 <= k < |sorted| && sorted[k] == moved[j];
    assert r[k].id == blocks[j].id && r[k].outputs == blocks[j].outputs;
    assert r[k] in r && !InSync(r[k], []);
  }
}
