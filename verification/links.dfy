/**
 * Connection bookkeeping of the diagram store: finding blocks and connections,
 * the connection validation, and the `inputs`/`outputs` lists of each block,
 * which are meant to mirror the connection list.
 */
module Links {
  import opened Sequences
  import opened DiagramTypes

  /** `blocks.find((b) => b.id === id)`: the first block carrying `id`. */
  function FindBlock(blocks: seq<Block>, id: string): (r: Option<Block>)
    ensures r.None? <==> !HasBlock(blocks, id)
    ensures r.Some? ==> exists i :: 0 <= i < |blocks| && blocks[i] == r.value && blocks[i].id == id &&
                                    forall j :: 0 <= j < i ==> blocks[j].id != id
  {
    Find(blocks, (b: Block) => b.id == id)
  }

  /** With unique ids, looking up a block's id yields that very block. */
  lemma FindBlockUnique(blocks: seq<Block>, i: int)
    requires UniqueIds(blocks) && 0 <= i < |blocks|
    ensures FindBlock(blocks, blocks[i].id) == Some(blocks[i])
  {
  }

  /**
   * `canConnectBlocks`: both ids are present, the target's type is in the
   * source type's table entry, and neither endpoint is at its limit.
   */
  function CanConnect(blocks: seq<Block>, sourceId: string, targetId: string): (ok: bool)
    ensures ok ==> HasBlock(blocks, sourceId) && HasBlock(blocks, targetId)
    ensures ok ==> sourceId != targetId
  {
    match (FindBlock(blocks, sourceId), FindBlock(blocks, targetId))
    case (Some(source), Some(target)) =>
      && target.kind in ValidConnections(source.kind)
      && |source.outputs| < BlockIO(source.kind).outputs
      && |target.inputs| < BlockIO(target.kind).inputs
    case _ => false
  }

  /** For blocks present in a list with unique ids, the check is exactly the three table conditions. */
  lemma CanConnectAt(blocks: seq<Block>, i: int, j: int)
    requires UniqueIds(blocks) && 0 <= i < |blocks| && 0 <= j < |blocks|
    ensures CanConnect(blocks, blocks[i].id, blocks[j].id) <==>
      && blocks[j].kind in ValidConnections(blocks[i].kind)
      && |blocks[i].outputs| < BlockIO(blocks[i].kind).outputs
      && |blocks[j].inputs| < BlockIO(blocks[j].kind).inputs
  {
    FindBlockUnique(blocks, i);
    FindBlockUnique(blocks, j);
  }

  /** An `end` block can never be the source of a validated connection. */
  lemma CanConnectNeverFromEnd(blocks: seq<Block>, i: int, targetId: string)
    requires UniqueIds(blocks) && 0 <= i < |blocks| && blocks[i].kind == End
    ensures !CanConnect(blocks, blocks[i].id, targetId)
  {
    FindBlockUnique(blocks, i);
  }

  /** A `trigger` block can never be the target of a validated connection. */
  lemma CanConnectNeverIntoTrigger(blocks: seq<Block>, sourceId: string, j: int)
    requires UniqueIds(blocks) && 0 <= j < |blocks| && blocks[j].kind == Trigger
    ensures !CanConnect(blocks, sourceId, blocks[j].id)
  {
    FindBlockUnique(blocks, j);
  }

  /** Ids of the blocks connected into `id`: filter by target, then take the source. */
  function SourcesOf(conns: seq<Connection>, id: string): (r: seq<string>)
    ensures |r| <= |conns|
  {
    if conns == [] then []
    else (if conns[0].targetId == id then [conns[0].sourceId] else []) + SourcesOf(conns[1..], id)
  }

  /** Ids of the blocks `id` is connected to: filter by source, then take the target. */
  function TargetsOf(conns: seq<Connection>, id: string): (r: seq<string>)
    ensures |r| <= |conns|
  {
    if conns == [] then []
    else (if conns[0].sourceId == id then [conns[0].targetId] else []) + TargetsOf(conns[1..], id)
  }

  /** A source is listed exactly when some connection runs from it into `id`. */
  lemma {:induction false} SourcesOfMembers(conns: seq<Connection>, id: string)
    ensures forall x :: x in SourcesOf(conns, id) <==> exists c :: c in conns && c.targetId == id && c.sourceId == x
  {
    if conns != [] {
      SourcesOfMembers(conns[1..], id);
      assert forall c :: c in conns <==> c == conns[0] || c in conns[1..];
    }
  }

  /** A target is listed exactly when some connection runs from `id` to it. */
  lemma {:induction false} TargetsOfMembers(conns: seq<Connection>, id: string)
    ensures forall x :: x in TargetsOf(conns, id) <==> exists c :: c in conns && c.sourceId == id && c.targetId == x
  {
    if conns != [] {
      TargetsOfMembers(conns[1..], id);
      assert forall c :: c in conns <==> c == conns[0] || c in conns[1..];
    }
  }

  lemma {:induction false} SourcesOfConcat(a: seq<Connection>, b: seq<Connection>, id: string)
    ensures SourcesOf(a + b, id) == SourcesOf(a, id) + SourcesOf(b, id)
  {
    if a == [] {
      assert a + b == b;
    } else {
      var head := if a[0].targetId == id then [a[0].sourceId] else [];
      assert (a + b)[0] == a[0] && (a + b)[1..] == a[1..] + b;
      assert SourcesOf(a + b, id) == head + SourcesOf(a[1..] + b, id);
      SourcesOfConcat(a[1..], b, id);
      assert SourcesOf(a, id) == head + SourcesOf(a[1..], id);
    }
  }

  lemma {:induction false} TargetsOfConcat(a: seq<Connection>, b: seq<Connection>, id: string)
    ensures TargetsOf(a + b, id) == TargetsOf(a, id) + TargetsOf(b, id)
  {
    if a == [] {
      assert a + b == b;
    } else {
      var head := if a[0].sourceId == id then [a[0].targetId] else [];
      assert (a + b)[0] == a[0] && (a + b)[1..] == a[1..] + b;
      assert TargetsOf(a + b, id) == head + TargetsOf(a[1..] + b, id);
      TargetsOfConcat(a[1..], b, id);
      assert TargetsOf(a, id) == head + TargetsOf(a[1..], id);
    }
  }

  /** Both derived lists distribute over concatenation of connection lists. */
  lemma LinksOfConcat(a: seq<Connection>, b: seq<Connection>, id: string)
    ensures SourcesOf(a + b, id) == SourcesOf(a, id) + SourcesOf(b, id)
    ensures TargetsOf(a + b, id) == TargetsOf(a, id) + TargetsOf(b, id)
  {
    SourcesOfConcat(a, b, id);
    TargetsOfConcat(a, b, id);
  }

  /** A block's `inputs`/`outputs` are exactly the sources/targets of its connections, in list order. */
  predicate InSync(b: Block, conns: seq<Connection>)
  {
    b.inputs == SourcesOf(conns, b.id) && b.outputs == TargetsOf(conns, b.id)
  }

  /** Every block's `inputs`/`outputs` mirror the connection list, as the store means them to. */
  predicate Linked(blocks: seq<Block>, conns: seq<Connection>)
  {
    forall b :: b in blocks ==> InSync(b, conns)
  }

  /** A block holds no more inputs and outputs than its type allows. */
  predicate Fits(b: Block)
  {
    |b.inputs| <= BlockIO(b.kind).inputs && |b.outputs| <= BlockIO(b.kind).outputs
  }

  predicate WithinCapacity(blocks: seq<Block>)
  {
    forall b :: b in blocks ==> Fits(b)
  }

  /**
   * The block update of `connectBlocks`: the source gains `targetId` as an
   * output, the target gains `sourceId` as an input, nothing else moves.
   */
  function AttachEdge(blocks: seq<Block>, sourceId: string, targetId: string): (r: seq<Block>)
    ensures |r| == |blocks|
    ensures forall i :: 0 <= i < |r| ==>
      r[i].(inputs := blocks[i].inputs, outputs := blocks[i].outputs) == blocks[i]
    ensures forall i :: 0 <= i < |r| && blocks[i].id == sourceId ==>
      r[i].outputs == blocks[i].outputs + [targetId] && r[i].inputs == blocks[i].inputs
    ensures forall i :: 0 <= i < |r| && blocks[i].id == targetId && targetId != sourceId ==>
      r[i].inputs == blocks[i].inputs + [sourceId] && r[i].outputs == blocks[i].outputs
    ensures forall i :: 0 <= i < |r| && blocks[i].id != sourceId && blocks[i].id != targetId ==>
      r[i] == blocks[i]
  {
    seq(|blocks|, i requires 0 <= i < |blocks| =>
      var b := blocks[i];
      if b.id == sourceId then b.(outputs := b.outputs + [targetId])
      else if b.id == targetId then b.(inputs := b.inputs + [sourceId])
      else b)
  }

  /** Appending a connection and attaching its endpoints keeps every block in sync. */
  lemma ConnectKeepsLinked(blocks: seq<Block>, conns: seq<Connection>, c: Connection)
    requires Linked(blocks, conns)
    requires c.sourceId != c.targetId
    ensures Linked(AttachEdge(blocks, c.sourceId, c.targetId), conns + [c])
  {
    var r := AttachEdge(blocks, c.sourceId, c.targetId);
    forall b | b in r
      ensures InSync(b, conns + [c])
    {
      var i :| 0 <= i < |r| && r[i] == b;
      assert blocks[i] in blocks;
      LinksOfConcat(conns, [c], b.id);
      assert [c][1..] == [];
    }
  }

  /**
   * While the lists are in sync, a validated connection is never a second
   * edge between the same two blocks: every type accepts at most one input.
   */
  lemma ConnectAddsNoParallel(blocks: seq<Block>, conns: seq<Connection>, sourceId: string, targetId: string)
    requires Linked(blocks, conns)
    requires CanConnect(blocks, sourceId, targetId)
    ensures forall c :: c in conns ==> !(c.sourceId == sourceId && c.targetId == targetId)
  {
    var target := FindBlock(blocks, targetId).value;
    assert target in blocks && target.id == targetId;
    assert |target.inputs| < BlockIO(target.kind).inputs;
    assert SourcesOf(conns, targetId) == [];
    SourcesOfMembers(conns, targetId);
    forall c | c in conns && c.targetId == targetId
      ensures c.sourceId in SourcesOf(conns, targetId)
    {
    }
  }

  /** A validated connection keeps every block within its type's limits. */
  lemma ConnectKeepsCapacity(blocks: seq<Block>, sourceId: string, targetId: string)
    requires UniqueIds(blocks) && WithinCapacity(blocks)
    requires CanConnect(blocks, sourceId, targetId)
    ensures WithinCapacity(AttachEdge(blocks, sourceId, targetId))
  {
    var r := AttachEdge(blocks, sourceId, targetId);
    forall b | b in r
      ensures Fits(b)
    {
      var k :| 0 <= k < |r| && r[k] == b;
      assert blocks[k] in blocks;
      if blocks[k].id == sourceId {
        FindBlockUnique(blocks, k);
        assert |blocks[k].outputs| < BlockIO(blocks[k].kind).outputs;
      } else if blocks[k].id == targetId {
        FindBlockUnique(blocks, k);
        assert |blocks[k].inputs| < BlockIO(blocks[k].kind).inputs;
      }
    }
  }

  /** `ids.filter((x) => x !== id)`. */
  function Without(ids: seq<string>, x: string): (r: seq<string>)
    ensures |r| <= |ids|
    ensures forall y :: y in r <==> y in ids && y != x
  {
    if ids == [] then [] else (if ids[0] == x then [] else [ids[0]]) + Without(ids[1..], x)
  }

  lemma {:induction false} WithoutConcat(a: seq<string>, b: seq<string>, x: string)
    ensures Without(a + b, x) == Without(a, x) + Without(b, x)
  {
    if a == [] {
      assert a + b == b;
    } else {
      assert (a + b)[1..] == a[1..] + b;
      WithoutConcat(a[1..], b, x);
    }
  }

  /**
   * The block update of `removeConnection`: the source drops `targetId` from
   * its outputs, the target drops `sourceId` from its inputs.
   */
  function DetachEdge(blocks: seq<Block>, sourceId: string, targetId: string): (r: seq<Block>)
    ensures |r| == |blocks|
    ensures forall i :: 0 <= i < |r| ==>
      r[i].(inputs := blocks[i].inputs, outputs := blocks[i].outputs) == blocks[i]
    ensures forall i :: 0 <= i < |r| && blocks[i].id == sourceId ==>
      r[i].outputs == Without(blocks[i].outputs, targetId) && r[i].inputs == blocks[i].inputs
    ensures forall i :: 0 <= i < |r| && blocks[i].id == targetId && targetId != sourceId ==>
      r[i].inputs == Without(blocks[i].inputs, sourceId) && r[i].outputs == blocks[i].outputs
    ensures forall i :: 0 <= i < |r| && blocks[i].id != sourceId && blocks[i].id != targetId ==>
      r[i] == blocks[i]
  {
    seq(|blocks|, i requires 0 <= i < |blocks| =>
      var b := blocks[i];
      if b.id == sourceId then b.(outputs := Without(b.outputs, targetId))
      else if b.id == targetId then b.(inputs := Without(b.inputs, sourceId))
      else b)
  }

  /** `connections.find((c) => c.id === connectionId)`: the first connection carrying the id. */
  function FindConnection(conns: seq<Connection>, connectionId: string): (r: Option<Connection>)
    ensures r.None? <==> forall c :: c in conns ==> c.id != connectionId
    ensures r.Some? ==> exists i :: 0 <= i < |conns| && conns[i] == r.value && conns[i].id == connectionId &&
                                    forall j :: 0 <= j < i ==> conns[j].id != connectionId
  {
    Find(conns, (c: Connection) => c.id == connectionId)
  }

  /** `connections.filter((c) => c.id !== connectionId)`. */
  function DropConnection(conns: seq<Connection>, connectionId: string): (r: seq<Connection>)
    ensures forall c :: c in r <==> c in conns && c.id != connectionId
  {
    Filter(conns, (c: Connection) => c.id != connectionId)
  }

  /** The connections that touch neither end at `id`. */
  function DropConnectionsOf(conns: seq<Connection>, id: string): (r: seq<Connection>)
    ensures forall c :: c in r <==> c in conns && c.sourceId != id && c.targetId != id
  {
    Filter(conns, (c: Connection) => c.sourceId != id && c.targetId != id)
  }

  /** `blocks.filter((b) => b.id !== id)`. */
  function WithoutBlock(blocks: seq<Block>, id: string): (r: seq<Block>)
    ensures !HasBlock(r, id)
    ensures forall b :: b in r <==> b in blocks && b.id != id
  {
    Filter(blocks, (b: Block) => b.id != id)
  }

  /**
   * Every connection either survives the removal of block `id` or touches it:
   * as an input of `id` (counted by `SourcesOf`) or as an output (counted by
   * `TargetsOf`), never both when no connection loops from `id` to itself.
   */
  lemma {:induction false} DropConnectionsOfCount(conns: seq<Connection>, id: string)
    requires forall c :: c in conns ==> !(c.sourceId == id && c.targetId == id)
    ensures |DropConnectionsOf(conns, id)| + |SourcesOf(conns, id)| + |TargetsOf(conns, id)| == |conns|
  {
    if conns != [] {
      assert forall c :: c in conns[1..] ==> c in conns;
      DropConnectionsOfCount(conns[1..], id);
      assert conns[0] in conns;
    }
  }

  /** `DropConnection` peels off the first connection like the filter it is. */
  lemma DropConnectionUnfold(conns: seq<Connection>, connectionId: string)
    requires conns != []
    ensures DropConnection(conns, connectionId) ==
      (if conns[0].id != connectionId then [conns[0]] else []) + DropConnection(conns[1..], connectionId)
  {
  }

  /** Removing one connection id changes exactly the outputs of its source. */
  lemma {:induction false} DropConnectionTargets(
    conns: seq<Connection>, connectionId: string, sourceId: string, targetId: string, x: string)
    requires forall c :: c in conns ==>
      (c.id == connectionId <==> c.sourceId == sourceId && c.targetId == targetId)
    ensures TargetsOf(DropConnection(conns, connectionId), x) ==
      if x == sourceId then Without(TargetsOf(conns, x), targetId) else TargetsOf(conns, x)
  {
    if conns != [] {
      var c, rest := conns[0], conns[1..];
      var head := if c.id != connectionId then [c] else [];
      DropConnectionUnfold(conns, connectionId);
      DropConnectionTargets(rest, connectionId, sourceId, targetId, x);
      LinksOfConcat(head, DropConnection(rest, connectionId), x);
      var own := if c.sourceId == x then [c.targetId] else [];
      assert TargetsOf(conns, x) == own + TargetsOf(rest, x);
      WithoutConcat(own, TargetsOf(rest, x), targetId);
    }
  }

  /** Removing one connection id changes exactly the inputs of its target. */
  lemma {:induction false} DropConnectionSources(
    conns: seq<Connection>, connectionId: string, sourceId: string, targetId: string, x: string)
    requires forall c :: c in conns ==>
      (c.id == connectionId <==> c.sourceId == sourceId && c.targetId == targetId)
    ensures SourcesOf(DropConnection(conns, connectionId), x) ==
      if x == targetId then Without(SourcesOf(conns, x), sourceId) else SourcesOf(conns, x)
  {
    if conns != [] {
      var c, rest := conns[0], conns[1..];
      var head := if c.id != connectionId then [c] else [];
      DropConnectionUnfold(conns, connectionId);
      DropConnectionSources(rest, connectionId, sourceId, targetId, x);
      LinksOfConcat(head, DropConnection(rest, connectionId), x);
      var own := if c.targetId == x then [c.sourceId] else [];
      assert SourcesOf(conns, x) == own + SourcesOf(rest, x);
      WithoutConcat(own, SourcesOf(rest, x), sourceId);
    }
  }

  /**
   * Removing a connection and detaching its endpoints keeps every block in
   * sync, provided its id names exactly the edges between its two endpoints.
   */
  lemma RemoveConnectionKeepsLinked(blocks: seq<Block>, conns: seq<Connection>, c: Connection)
    requires Linked(blocks, conns)
    requires c in conns && c.sourceId != c.targetId
    requires forall d :: d in conns ==>
      (d.id == c.id <==> d.sourceId == c.sourceId && d.targetId == c.targetId)
    ensures Linked(DetachEdge(blocks, c.sourceId, c.targetId), DropConnection(conns, c.id))
  {
    var r := DetachEdge(blocks, c.sourceId, c.targetId);
    forall b | b in r
      ensures InSync(b, DropConnection(conns, c.id))
    {
      var i :| 0 <= i < |r| && r[i] == b;
      assert blocks[i] in blocks;
      DropConnectionTargets(conns, c.id, c.sourceId, c.targetId, b.id);
      DropConnectionSources(conns, c.id, c.sourceId, c.targetId, b.id);
    }
  }
}
