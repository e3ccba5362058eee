/**
 * The vertical layout of the store: a stable sort of the blocks by row, and
 * the respacing pass that puts the blocks on evenly spaced rows of one column.
 */
module Layout {
  import opened DiagramTypes

  /** Row of the first block of a fresh layout. */
  const FirstRow: int := 5
  /** `VERTICAL_SPACING`: grid rows between consecutive blocks. */
  const VerticalSpacing: int := 8
  /** `INITIAL_COLUMN`: the single column every laid-out block sits in. */
  const InitialColumn: int := 10

  predicate SortedByRow(s: seq<Block>)
  {
    forall i, j :: 0 <= i < j < |s| ==> s[i].position.row <= s[j].position.row
  }

  predicate RowsIncreasing(s: seq<Block>)
  {
    forall i, j :: 0 <= i < j < |s| ==> s[i].position.row < s[j].position.row
  }

  /** The blocks of `s` that sit on `row`, in their order in `s`. */
  function AtRow(s: seq<Block>, row: int): seq<Block>
  {
    if s == [] then [] else (if s[0].position.row == row then [s[0]] else []) + AtRow(s[1..], row)
  }

  /** Places `b` in front of the first block whose row is not smaller than its own. */
  function InsertByRow(b: Block, s: seq<Block>): (r: seq<Block>)
    ensures |r| == |s| + 1
    ensures multiset(r) == multiset(s) + multiset{b}
  {
    if s == [] || b.position.row <= s[0].position.row then [b] + s
    else
      assert s == [s[0]] + s[1..];
      [s[0]] + InsertByRow(b, s[1..])
  }

  lemma {:induction false} InsertKeepsSorted(b: Block, s: seq<Block>)
    requires SortedByRow(s)
    ensures SortedByRow(InsertByRow(b, s))
  {
    if s != [] && s[0].position.row < b.position.row {
      var rest := InsertByRow(b, s[1..]);
      InsertKeepsSorted(b, s[1..]);
      forall x | x in rest
        ensures s[0].position.row <= x.position.row
      {
        assert x in multiset(rest);
      }
      var r := [s[0]] + rest;
      forall i, j | 0 <= i < j < |r|
        ensures r[i].position.row <= r[j].position.row
      {
        if i == 0 {
          assert r[j] in rest;
        }
      }
    }
  }

  /** Inserting `b` adds it in front of the blocks already on its row. */
  lemma {:induction false} InsertAtRow(b: Block, s: seq<Block>, row: int)
    ensures AtRow(InsertByRow(b, s), row) == (if b.position.row == row then [b] else []) + AtRow(s, row)
  {
    if s == [] || b.position.row <= s[0].position.row {
      assert ([b] + s)[1..] == s;
    } else {
      var rest := InsertByRow(b, s[1..]);
      InsertAtRow(b, s[1..], row);
      assert ([s[0]] + rest)[1..] == rest;
      if s[0].position.row == row {
        assert AtRow(InsertByRow(b, s), row) == [s[0]] + AtRow(rest, row);
      } else {
        assert AtRow(InsertByRow(b, s), row) == AtRow(rest, row);
      }
    }
  }

  /**
   * `[...blocks].sort((a, b) => a.position.row - b.position.row)`: the
   * result is ordered by row, is a permutation of the input, and keeps blocks
   * on the same row in their original relative order (the sort is stable).
   */
  function SortByRow(s: seq<Block>): (r: seq<Block>)
    ensures |r| == |s|
    ensures multiset(r) == multiset(s)
    ensures SortedByRow(r)
    ensures forall row :: AtRow(r, row) == AtRow(s, row)
  {
    if s == [] then []
    else
      var rest := SortByRow(s[1..]);
      assert s == [s[0]] + s[1..];
      InsertKeepsSorted(s[0], rest);
      assert forall row ::
               AtRow(InsertByRow(s[0], rest), row) ==
               (if s[0].position.row == row then [s[0]] else []) + AtRow(rest, row) by {
        forall row { InsertAtRow(s[0], rest, row); }
      }
      InsertByRow(s[0], rest)
  }

  /** Sorting a list that is already in row order changes nothing. */
  lemma {:induction false} SortedIsFixed(s: seq<Block>)
    requires SortedByRow(s)
    ensures SortByRow(s) == s
  {
    if s != [] {
      SortedIsFixed(s[1..]);
      assert s == [s[0]] + s[1..];
    }
  }

  /** Sorting twice is sorting once. */
  lemma SortIdempotent(s: seq<Block>)
    ensures SortByRow(SortByRow(s)) == SortByRow(s)
  {
    SortedIsFixed(SortByRow(s));
  }

  lemma ConsUniqueIds(x: Block, s: seq<Block>)
    requires UniqueIds(s)
    requires forall y :: y in s ==> y.id != x.id
    ensures UniqueIds([x] + s)
  {
    var r := [x] + s;
    forall i, j | 0 <= i < j < |r|
      ensures r[i].id != r[j].id
    {
      assert r[j] == s[j - 1];
      if i > 0 {
        assert r[i] == s[i - 1];
      }
    }
  }

  lemma {:induction false} InsertKeepsUniqueIds(b: Block, s: seq<Block>)
    requires UniqueIds(s)
    requires forall y :: y in s ==> y.id != b.id
    ensures UniqueIds(InsertByRow(b, s))
  {
    if s == [] || b.position.row <= s[0].position.row {
      ConsUniqueIds(b, s);
    } else {
      var rest := InsertByRow(b, s[1..]);
      InsertKeepsUniqueIds(b, s[1..]);
      forall x | x in rest
        ensures x.id != s[0].id
      {
        assert x in multiset(rest);
      }
      ConsUniqueIds(s[0], rest);
    }
  }

  /** Sorting never makes two blocks share an id. */
  lemma {:induction false} SortKeepsUniqueIds(s: seq<Block>)
    requires UniqueIds(s)
    ensures UniqueIds(SortByRow(s))
  {
    if s != [] {
      var rest := SortByRow(s[1..]);
      SortKeepsUniqueIds(s[1..]);
      forall y | y in rest
        ensures y.id != s[0].id
      {
        assert y in multiset(s[1..]);
      }
      InsertKeepsUniqueIds(s[0], rest);
    }
  }

  /** Two lists agreeing position by position on every block's id and row. */
  predicate SameKeys(s: seq<Block>, t: seq<Block>)
  {
    |s| == |t| &&
    forall i :: 0 <= i < |s| ==> s[i].id == t[i].id && s[i].position.row == t[i].position.row
  }

  lemma {:induction false} InsertSameKeys(b: Block, c: Block, s: seq<Block>, t: seq<Block>)
    requires b.id == c.id && b.position.row == c.position.row && SameKeys(s, t)
    ensures SameKeys(InsertByRow(b, s), InsertByRow(c, t))
  {
    if s != [] && s[0].position.row < b.position.row {
      InsertSameKeys(b, c, s[1..], t[1..]);
    }
  }

  /** The sort looks only at rows, so its order of ids depends only on ids and rows. */
  lemma {:induction false} SortSameKeys(s: seq<Block>, t: seq<Block>)
    requires SameKeys(s, t)
    ensures SameKeys(SortByRow(s), SortByRow(t))
  {
    if s != [] {
      SortSameKeys(s[1..], t[1..]);
      InsertSameKeys(s[0], t[0], SortByRow(s[1..]), SortByRow(t[1..]));
    }
  }

  /**
   * The respacing pass of `reorderBlocks` and `removeBlock`: block `i` moves
   * to row `5 + 8 * i` of column 10; the order and every other field stay.
   */
  function Respace(s: seq<Block>): (r: seq<Block>)
    ensures |r| == |s|
    ensures forall i :: 0 <= i < |r| ==> r[i].(position := s[i].position) == s[i]
    ensures forall i :: 0 <= i < |r| ==>
      r[i].position == Position(FirstRow + i * VerticalSpacing, InitialColumn)
  {
    seq(|s|, i requires 0 <= i < |s| =>
      s[i].(position := Position(FirstRow + i * VerticalSpacing, InitialColumn)))
  }

  /** A respaced list is strictly increasing in row, so in particular sorted. */
  lemma RespacedRowsIncrease(s: seq<Block>)
    ensures RowsIncreasing(Respace(s)) && SortedByRow(Respace(s))
  {
  }

  /** Respacing keeps every block's id, so it keeps ids unique. */
  lemma RespaceKeepsUniqueIds(s: seq<Block>)
    requires UniqueIds(s)
    ensures UniqueIds(Respace(s))
  {
  }

  /** `reorderBlocks` run twice gives the same layout as run once. */
  lemma ReorderIdempotent(s: seq<Block>)
    ensures Respace(SortByRow(Respace(SortByRow(s)))) == Respace(SortByRow(s))
  {
    var once := Respace(SortByRow(s));
    RespacedRowsIncrease(SortByRow(s));
    SortedIsFixed(once);
  }
}
