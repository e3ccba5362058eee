/**
 * The auto-connect pass: blocks in stable row order are chained pairwise,
 * ignoring the compatibility table and the limits, and every block's
 * `inputs`/`outputs` are then recomputed from the new connection list.
 */
module AutoConnect {
  import opened Sequences
  import opened DiagramTypes
  import opened Links
  import opened Layout

  /** The connection forced between two consecutive blocks, with id `conn-<source>-<target>`. */
  function ChainLink(source: Block, target: Block): (c: Connection)
    ensures c.sourceId == source.id && c.targetId == target.id
    ensures c.condition.None? && c.isTrueBranch.None?
    ensures |c.id| == |source.id| + |target.id| + 6
  {
    Connection("conn-" + source.id + "-" + target.id, source.id, target.id, None, None)
  }

  /**
   * Link ids are not unique for block ids of different lengths: `a` to `b-c`
   * and `a-b` to `c` both get the id `conn-a-b-c`, yet join different blocks.
   */
  lemma ChainIdsMayCollide(a: Block, b: Block, c: Block, d: Block)
    requires a.id == "a" && b.id == "b-c" && c.id == "a-b" && d.id == "c"
    ensures ChainLink(a, b).id == ChainLink(c, d).id == "conn-a-b-c"
    ensures ChainLink(a, b).sourceId != ChainLink(c, d).sourceId
  {
    assert "a"[0] != "a-b"[1];
  }

  /**
   * When the two sources have ids of the same length, as generated ids do,
   * the link id determines both endpoints.
   */
  lemma ChainIdDeterminesEnds(a: Block, b: Block, c: Block, d: Block)
    requires |a.id| == |c.id|
    requires ChainLink(a, b).id == ChainLink(c, d).id
    ensures a.id == c.id && b.id == d.id
  {
    var s, t := ChainLink(a, b).id, ChainLink(c, d).id;
    var n := |a.id|;
    assert s == "conn-" + a.id + "-" + b.id;
    assert t == "conn-" + c.id + "-" + d.id;
    assert a.id == s[5..5 + n] by {
      assert s[5..5 + n] == ("conn-" + a.id + "-" + b.id)[5..5 + n];
    }
    assert c.id == t[5..5 + n];
    assert b.id == s[6 + n..];
    assert d.id == t[6 + n..];
  }

  /** Exactly the `n - 1` links between consecutive blocks of `ordered`. */
  function ChainConnections(ordered: seq<Block>): (r: seq<Connection>)
    ensures |r| == if ordered == [] then 0 else |ordered| - 1
    ensures forall k :: 0 <= k < |r| ==> r[k] == ChainLink(ordered[k], ordered[k + 1])
  {
    if |ordered| <= 1 then [] else [ChainLink(ordered[0], ordered[1])] + ChainConnections(ordered[1..])
  }

  /**
   * Over blocks with unique ids of one length, as generated ids are, no two
   * links of the chain share an id, and each link's id names exactly the
   * links between its endpoints: the condition under which removing it keeps
   * the lists in sync (`Links.RemoveConnectionKeepsLinked`).
   */
  lemma ChainIdsUnique(ordered: seq<Block>, n: nat)
    requires UniqueIds(ordered)
    requires forall i :: 0 <= i < |ordered| ==> |ordered[i].id| == n
    ensures forall k, l :: 0 <= k < l < |ChainConnections(ordered)| ==>
      ChainConnections(ordered)[k].id != ChainConnections(ordered)[l].id
    ensures forall c, d :: c in ChainConnections(ordered) && d in ChainConnections(ordered) ==>
      (d.id == c.id <==> d.sourceId == c.sourceId && d.targetId == c.targetId)
  {
    var chain := ChainConnections(ordered);
    forall k, l | 0 <= k < l < |chain|
      ensures chain[k].id != chain[l].id
    {
      if chain[k].id == chain[l].id {
        ChainIdDeterminesEnds(ordered[k], ordered[k + 1], ordered[l], ordered[l + 1]);
      }
    }
    forall c, d | c in chain && d in chain
      ensures d.id == c.id <==> d.sourceId == c.sourceId && d.targetId == c.targetId
    {
      var k :| 0 <= k < |chain| && chain[k] == c;
      var l :| 0 <= l < |chain| && chain[l] == d;
      assert c.id == "conn-" + c.sourceId + "-" + c.targetId by {
        assert c == ChainLink(ordered[k], ordered[k + 1]);
      }
      assert d.id == "conn-" + d.sourceId + "-" + d.targetId by {
        assert d == ChainLink(ordered[l], ordered[l + 1]);
      }
    }
  }

  /**
   * The block update that ends `autoConnectBlocks`: each block keeps its
   * place and fields, and its `inputs`/`outputs` become exactly the sources
   * and targets `conns` gives it.
   */
  function Relink(blocks: seq<Block>, conns: seq<Connection>): (r: seq<Block>)
    ensures |r| == |blocks|
    ensures Linked(r, conns)
    ensures forall i :: 0 <= i < |r| ==>
      r[i].(inputs := blocks[i].inputs, outputs := blocks[i].outputs) == blocks[i]
  {
    seq(|blocks|, i requires 0 <= i < |blocks| =>
      blocks[i].(inputs := SourcesOf(conns, blocks[i].id), outputs := TargetsOf(conns, blocks[i].id)))
  }

  /** An id that no block of `ordered` carries is no endpoint of its chain. */
  lemma {:induction false} ChainAvoids(ordered: seq<Block>, x: string)
    requires forall b :: b in ordered ==> b.id != x
    ensures SourcesOf(ChainConnections(ordered), x) == []
    ensures TargetsOf(ChainConnections(ordered), x) == []
  {
    if |ordered| > 1 {
      var link := ChainLink(ordered[0], ordered[1]);
      assert ordered[1] in ordered;
      ChainAvoids(ordered[1..], x);
      LinksOfConcat([link], ChainConnections(ordered[1..]), x);
      assert [link][1..] == [];
    }
  }

  /** In a chain over blocks with unique ids, the first block feeds only the second and is fed by none. */
  lemma ChainHead(ordered: seq<Block>)
    requires UniqueIds(ordered) && |ordered| > 1
    ensures TargetsOf(ChainConnections(ordered), ordered[0].id) == [ordered[1].id]
    ensures SourcesOf(ChainConnections(ordered), ordered[0].id) == []
  {
    var x := ordered[0].id;
    var link := ChainLink(ordered[0], ordered[1]);
    var rest := ordered[1..];
    forall b | b in rest
      ensures b.id != x
    {
      var m :| 0 <= m < |rest| && rest[m] == b;
      assert rest[m] == ordered[m + 1];
    }
    ChainAvoids(rest, x);
    LinksOfConcat([link], ChainConnections(rest), x);
    assert [link][1..] == [];
  }

  /**
   * In a chain over blocks with unique ids, the block at position `k` has
   * exactly its predecessor as input and exactly its successor as output.
   */
  lemma {:induction false} ChainNeighbours(ordered: seq<Block>, k: int)
    requires UniqueIds(ordered) && 0 <= k < |ordered|
    ensures TargetsOf(ChainConnections(ordered), ordered[k].id) ==
      if k + 1 < |ordered| then [ordered[k + 1].id] else []
    ensures SourcesOf(ChainConnections(ordered), ordered[k].id) ==
      if k > 0 then [ordered[k - 1].id] else []
  {
    if |ordered| == 1 {
    } else if k == 0 {
      ChainHead(ordered);
    } else {
      var x := ordered[k].id;
      var link := ChainLink(ordered[0], ordered[1]);
      var rest := ordered[1..];
      assert UniqueIds(rest);
      assert rest[k - 1] == ordered[k];
      ChainNeighbours(rest, k - 1);
      LinksOfConcat([link], ChainConnections(rest), x);
      assert [link][1..] == [];
      assert ordered[0].id != x;
    }
  }

  /** Relinking never changes ids, so it keeps them unique. */
  lemma RelinkKeepsUniqueIds(blocks: seq<Block>, conns: seq<Connection>)
    requires UniqueIds(blocks)
    ensures UniqueIds(Relink(blocks, conns))
  {
  }

  /** A block counted in a list's multiset sits at some index of the list. */
  lemma {:induction false} IndexOf(s: seq<Block>, x: Block) returns (k: int)
    requires x in multiset(s)
    ensures 0 <= k < |s| && s[k] == x
  {
    assert s != [];
    if s[0] == x {
      k := 0;
    } else {
      assert s == [s[0]] + s[1..];
      var j := IndexOf(s[1..], x);
      k := j + 1;
    }
  }

  /**
   * After the pass over blocks with unique ids, each block is linked to its
   * neighbours in the stable row order, and to nothing else.
   */
  lemma AutoConnectNeighbours(blocks: seq<Block>, i: int) returns (k: int)
    requires UniqueIds(blocks) && 0 <= i < |blocks|
    ensures 0 <= k < |blocks| && SortByRow(blocks)[k] == blocks[i]
    ensures Relink(blocks, ChainConnections(SortByRow(blocks)))[i].outputs ==
      if k + 1 < |blocks| then [SortByRow(blocks)[k + 1].id] else []
    ensures Relink(blocks, ChainConnections(SortByRow(blocks)))[i].inputs ==
      if k > 0 then [SortByRow(blocks)[k - 1].id] else []
  {
    var ordered := SortByRow(blocks);
    assert blocks[i] in multiset(blocks);
    k := IndexOf(ordered, blocks[i]);
    SortKeepsUniqueIds(blocks);
    ChainNeighbours(ordered, k);
  }

  /** The chain only looks at ids, so lists with the same ids in the same order chain alike. */
  lemma ChainSameKeys(s: seq<Block>, t: seq<Block>)
    requires SameKeys(s, t)
    ensures ChainConnections(s) == ChainConnections(t)
  {
    var a, b := ChainConnections(s), ChainConnections(t);
    assert |a| == |b|;
    forall k | 0 <= k < |a|
      ensures a[k] == b[k]
    {
      assert s[k].id == t[k].id && s[k + 1].id == t[k + 1].id;
    }
  }

  /**
   * The pass is idempotent: a second run finds the same row order, derives
   * the same connections, and recomputes the same `inputs`/`outputs`.
   */
  lemma AutoConnectIdempotent(blocks: seq<Block>)
    ensures var conns := ChainConnections(SortByRow(blocks));
            var once := Relink(blocks, conns);
            ChainConnections(SortByRow(once)) == conns && Relink(once, conns) == once
  {
    var conns := ChainConnections(SortByRow(blocks));
    var once := Relink(blocks, conns);
    assert SameKeys(once, blocks);
    SortSameKeys(once, blocks);
    ChainSameKeys(SortByRow(once), SortByRow(blocks));
    var twice := Relink(once, conns);
    forall i | 0 <= i < |once|
      ensures twice[i] == once[i]
    {
      assert once[i] in once;
    }
  }

  /** The pass ignores the table: two `end` blocks are chained although neither may feed anything. */
  lemma AutoConnectIgnoresTable(first: Block, second: Block)
    requires first.kind == End && second.kind == End && first.id != second.id
    requires first.position.row < second.position.row
    ensures ChainConnections(SortByRow([first, second])) == [ChainLink(first, second)]
    ensures !CanConnect([first, second], first.id, second.id)
  {
    SortedIsFixed([first, second]);
    CanConnectNeverFromEnd([first, second], 0, second.id);
  }
}
