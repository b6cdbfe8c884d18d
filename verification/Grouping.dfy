/** Tables of child rows grouped under their parents, with no index: the plain meaning that the
    loader's position maps must agree with. */
module Grouping {
  import opened Sequences
  import opened Wrappers

  /** One accepted line: the parent it names, its own identifier, and what was built from it. */
  datatype Row<+T> = Row(parent: string, key: string, item: T)

  function Keys<T>(rows: seq<Row<T>>): set<string> {
    set i | 0 <= i < |rows| :: rows[i].key
  }

  function Items<T>(rows: seq<Row<T>>): (items: seq<T>)
    ensures |items| == |rows|
    ensures forall i :: 0 <= i < |rows| ==> items[i] == rows[i].item
  {
    seq(|rows|, i requires 0 <= i < |rows| => rows[i].item)
  }

  /** The lines a parser understands, in order. */
  function Collect<T>(parse: string -> Option<T>, lines: seq<string>): seq<T> {
    if lines == [] then []
    else
      var front := Collect(parse, lines[..|lines| - 1]);
      var last := parse(lines[|lines| - 1]);
      if last.Some? then front + [last.value] else front
  }

  function ChildrenOf<T>(rows: seq<Row<T>>, parent: string): seq<Row<T>> {
    if rows == [] then []
    else
      var front := ChildrenOf(rows[..|rows| - 1], parent);
      var last := rows[|rows| - 1];
      if last.parent == parent then front + [last] else front
  }

  /** Rows whose parent is known and whose identifier was not accepted before. */
  function Accept<T>(rows: seq<Row<T>>, parents: set<string>): seq<Row<T>> {
    if rows == [] then []
    else
      var front := Accept(rows[..|rows| - 1], parents);
      var last := rows[|rows| - 1];
      if last.parent in parents && last.key !in Keys(front) then front + [last] else front
  }

  /** Rows whose parent is known; identifiers may repeat. */
  function Known<T>(rows: seq<Row<T>>, parents: set<string>): seq<Row<T>> {
    if rows == [] then []
    else
      var front := Known(rows[..|rows| - 1], parents);
      var last := rows[|rows| - 1];
      if last.parent in parents then front + [last] else front
  }

  lemma {:induction false} ChildrenOfSnoc<T>(rows: seq<Row<T>>, row: Row<T>, parent: string)
    ensures ChildrenOf(rows + [row], parent)
         == if row.parent == parent then ChildrenOf(rows, parent) + [row] else ChildrenOf(rows, parent)
  {
    assert (rows + [row])[..|rows|] == rows;
  }

  lemma {:induction false} KeysSnoc<T>(rows: seq<Row<T>>, row: Row<T>)
    ensures Keys(rows + [row]) == Keys(rows) + {row.key}
  {
    var more := rows + [row];
    forall k | k in Keys(rows) + {row.key} ensures k in Keys(more) {
      if k == row.key {
        assert more[|rows|].key == k;
      } else {
        var i :| 0 <= i < |rows| && rows[i].key == k;
        assert more[i].key == k;
      }
    }
  }

  lemma {:induction false} ChildrenNameParent<T>(rows: seq<Row<T>>, parent: string)
    ensures forall i :: 0 <= i < |ChildrenOf(rows, parent)| ==>
              ChildrenOf(rows, parent)[i].parent == parent && ChildrenOf(rows, parent)[i] in rows
  {
    if rows != [] {
      ChildrenNameParent(rows[..|rows| - 1], parent);
    }
  }

  lemma {:induction false} ChildrenOfAppend<T>(a: seq<Row<T>>, b: seq<Row<T>>, parent: string)
    ensures ChildrenOf(a + b, parent) == ChildrenOf(a, parent) + ChildrenOf(b, parent)
  {
    if b == [] {
      assert a + b == a;
    } else {
      ChildrenOfAppend(a, b[..|b| - 1], parent);
      assert a + b == (a + b[..|b| - 1]) + [b[|b| - 1]];
      ChildrenOfSnoc(a + b[..|b| - 1], b[|b| - 1], parent);
    }
  }

  lemma {:induction false} CollectAppend<T>(parse: string -> Option<T>, a: seq<string>, b: seq<string>)
    ensures Collect(parse, a + b) == Collect(parse, a) + Collect(parse, b)
  {
    if b == [] {
      assert a + b == a;
    } else {
      CollectAppend(parse, a, b[..|b| - 1]);
      assert (a + b)[..|a + b| - 1] == a + b[..|b| - 1];
    }
  }

  /** Parsing the printed form of each element. */
  lemma {:induction false} CollectMap<T, U>(parse: string -> Option<U>, print_: T -> string, xs: seq<T>, ys: seq<U>)
    requires |xs| == |ys| && forall i :: 0 <= i < |xs| ==> parse(print_(xs[i])) == Some(ys[i])
    ensures Collect(parse, Map(print_, xs)) == ys
  {
    if xs != [] {
      CollectMap(parse, print_, xs[..|xs| - 1], ys[..|ys| - 1]);
      assert ys == ys[..|ys| - 1] + [ys[|ys| - 1]];
    }
  }

  /** Parsing the printed children of each parent. */
  lemma {:induction false} CollectFlatMap<T, U>(parse: string -> Option<Row<U>>, print_: T -> seq<string>, xs: seq<T>, blocks: seq<Block<U>>)
    requires |xs| == |blocks| && forall i :: 0 <= i < |xs| ==> Collect(parse, print_(xs[i])) == blocks[i].rows
    ensures Collect(parse, FlatMap(print_, xs)) == Flatten(blocks)
  {
    if xs != [] {
      CollectFlatMap(parse, print_, xs[..|xs| - 1], blocks[..|blocks| - 1]);
      CollectAppend(parse, FlatMap(print_, xs[..|xs| - 1]), print_(xs[|xs| - 1]));
    }
  }

  // ---- Flattening a level and grouping it again ----

  /** The children of one parent, as consecutive rows. */
  datatype Block<+T> = Block(parent: string, rows: seq<Row<T>>)

  predicate Homogeneous<T>(block: Block<T>) {
    forall i :: 0 <= i < |block.rows| ==> block.rows[i].parent == block.parent
  }

  predicate DistinctParents<T>(blocks: seq<Block<T>>) {
    forall i, j :: 0 <= i < j < |blocks| ==> blocks[i].parent != blocks[j].parent
  }

  function Flatten<T>(blocks: seq<Block<T>>): seq<Row<T>> {
    if blocks == [] then [] else Flatten(blocks[..|blocks| - 1]) + blocks[|blocks| - 1].rows
  }

  lemma {:induction false} ChildrenOfBlock<T>(block: Block<T>, parent: string)
    requires Homogeneous(block)
    ensures ChildrenOf(block.rows, parent) == if parent == block.parent then block.rows else []
    decreases |block.rows|
  {
    if block.rows != [] {
      var front := block.rows[..|block.rows| - 1];
      ChildrenOfBlock(Block(block.parent, front), parent);
      assert block.rows == front + [block.rows[|block.rows| - 1]];
    }
  }

  lemma {:induction false} NoBlockNoChildren<T>(blocks: seq<Block<T>>, parent: string)
    requires forall i :: 0 <= i < |blocks| ==> Homogeneous(blocks[i]) && blocks[i].parent != parent
    ensures ChildrenOf(Flatten(blocks), parent) == []
  {
    if blocks != [] {
      NoBlockNoChildren(blocks[..|blocks| - 1], parent);
      ChildrenOfBlock(blocks[|blocks| - 1], parent);
      ChildrenOfAppend(Flatten(blocks[..|blocks| - 1]), blocks[|blocks| - 1].rows, parent);
    }
  }

  /** Grouping the flattened table gives every parent its own children back, in order. */
  lemma {:induction false} Regroup<T>(blocks: seq<Block<T>>, i: nat)
    requires i < |blocks| && DistinctParents(blocks)
    requires forall i :: 0 <= i < |blocks| ==> Homogeneous(blocks[i])
    ensures ChildrenOf(Flatten(blocks), blocks[i].parent) == blocks[i].rows
  {
    var front, last := blocks[..|blocks| - 1], blocks[|blocks| - 1];
    ChildrenOfAppend(Flatten(front), last.rows, blocks[i].parent);
    ChildrenOfBlock(last, blocks[i].parent);
    if i == |front| {
      NoBlockNoChildren(front, last.parent);
    } else {
      Regroup(front, i);
    }
  }

  // ---- When nothing is rejected ----

  predicate DistinctKeys<T>(rows: seq<Row<T>>) {
    forall i, j :: 0 <= i < j < |rows| ==> rows[i].key != rows[j].key
  }

  predicate ParentsWithin<T>(rows: seq<Row<T>>, parents: set<string>) {
    forall i :: 0 <= i < |rows| ==> rows[i].parent in parents
  }

  lemma {:induction false} AcceptAll<T>(rows: seq<Row<T>>, parents: set<string>)
    ensures |Accept(rows, parents)| <= |rows|
    ensures |Accept(rows, parents)| == |rows| <==> DistinctKeys(rows) && ParentsWithin(rows, parents)
    ensures |Accept(rows, parents)| == |rows| ==> Accept(rows, parents) == rows
  {
    if rows != [] {
      var front, last := rows[..|rows| - 1], rows[|rows| - 1];
      AcceptAll(front, parents);
      assert rows == front + [last];
      assert DistinctKeys(rows) <==> DistinctKeys(front) && last.key !in Keys(front);
    }
  }

  lemma {:induction false} KnownAll<T>(rows: seq<Row<T>>, parents: set<string>)
    ensures |Known(rows, parents)| <= |rows|
    ensures |Known(rows, parents)| == |rows| <==> ParentsWithin(rows, parents)
    ensures |Known(rows, parents)| == |rows| ==> Known(rows, parents) == rows
  {
    if rows != [] {
      var front, last := rows[..|rows| - 1], rows[|rows| - 1];
      KnownAll(front, parents);
      assert rows == front + [last];
    }
  }

  lemma {:induction false} AcceptedKeysDistinct<T>(rows: seq<Row<T>>, parents: set<string>)
    ensures DistinctKeys(Accept(rows, parents)) && ParentsWithin(Accept(rows, parents), parents)
  {
    if rows != [] {
      AcceptedKeysDistinct(rows[..|rows| - 1], parents);
    }
  }
}
