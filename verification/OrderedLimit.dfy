/** `ORDER BY first, second, third LIMIT n` over the rows that a query selects. */
module OrderedLimit {

  /** A selected row with its sorting key. */
  datatype Item = Item(first: real, second: real, third: int, row: nat)

  predicate Precedes(a: Item, b: Item) {
    a.first < b.first
    || (a.first == b.first && (a.second < b.second || (a.second == b.second && a.third <= b.third)))
  }

  function Insert(line: seq<Item>, x: Item): seq<Item> {
    var n := |line| - 1;
    if line == [] || Precedes(line[n], x) then line + [x] else Insert(line[..n], x) + [line[n]]
  }

  function Ordered(items: seq<Item>): seq<Item> {
    if items == [] then [] else Insert(Ordered(items[..|items| - 1]), items[|items| - 1])
  }

  function Limited(items: seq<Item>, limit: nat): seq<Item> {
    var line := Ordered(items);
    if |line| <= limit then line else line[..limit]
  }

  lemma {:induction false} InsertKeepsLength(line: seq<Item>, x: Item)
    ensures |Insert(line, x)| == |line| + 1
  {
    if line != [] && !Precedes(line[|line| - 1], x) {
      InsertKeepsLength(line[..|line| - 1], x);
    }
  }

  lemma {:induction false} OrderedKeepsLength(items: seq<Item>)
    ensures |Ordered(items)| == |items|
  {
    if items != [] {
      OrderedKeepsLength(items[..|items| - 1]);
      InsertKeepsLength(Ordered(items[..|items| - 1]), items[|items| - 1]);
    }
  }

  predicate InOrder(line: seq<Item>) {
    forall i, j :: 0 <= i < j < |line| ==> Precedes(line[i], line[j])
  }

  predicate Distinct(line: seq<Item>) {
    forall i, j :: 0 <= i < j < |line| ==> line[i].row != line[j].row
  }

  lemma {:induction false} InsertMembers(line: seq<Item>, x: Item)
    ensures forall y :: y in Insert(line, x) <==> y == x || y in line
  {
    var n := |line| - 1;
    if line != [] && !Precedes(line[n], x) {
      InsertMembers(line[..n], x);
      assert line == line[..n] + [line[n]];
    }
  }

  lemma {:induction false} InsertInOrder(line: seq<Item>, x: Item)
    requires InOrder(line)
    ensures InOrder(Insert(line, x))
  {
    var n := |line| - 1;
    if line != [] {
      if Precedes(line[n], x) {
        assert forall i :: 0 <= i < n ==> Precedes(line[i], line[n]);
      } else {
        InsertInOrder(line[..n], x);
        InsertMembers(line[..n], x);
        var less := Insert(line[..n], x);
        forall i | 0 <= i < |less| ensures Precedes(less[i], line[n]) {
          assert less[i] in less;
          assert less[i] in line[..n] ==> Precedes(less[i], line[n]);
        }
      }
    }
  }

  predicate Without(line: seq<Item>, row: nat) {
    forall i :: 0 <= i < |line| ==> line[i].row != row
  }

  lemma {:induction false} InsertDistinct(line: seq<Item>, x: Item)
    requires Distinct(line) && Without(line, x.row)
    ensures Distinct(Insert(line, x))
  {
    var n := |line| - 1;
    if line != [] && !Precedes(line[n], x) {
      InsertDistinct(line[..n], x);
      InsertMembers(line[..n], x);
      var less := Insert(line[..n], x);
      forall i | 0 <= i < |less| ensures less[i].row != line[n].row {
        assert less[i] in less;
      }
    }
  }

  lemma {:induction false} OrderedMembers(items: seq<Item>)
    ensures forall y :: y in Ordered(items) <==> y in items
  {
    if items != [] {
      var n := |items| - 1;
      OrderedMembers(items[..n]);
      InsertMembers(Ordered(items[..n]), items[n]);
      assert items == items[..n] + [items[n]];
    }
  }

  lemma {:induction false} OrderedInOrder(items: seq<Item>)
    ensures InOrder(Ordered(items))
  {
    if items != [] {
      OrderedInOrder(items[..|items| - 1]);
      InsertInOrder(Ordered(items[..|items| - 1]), items[|items| - 1]);
    }
  }

  lemma {:induction false} OrderedDistinct(items: seq<Item>)
    requires Distinct(items)
    ensures Distinct(Ordered(items))
  {
    if items != [] {
      var n := |items| - 1;
      var line := Ordered(items[..n]);
      OrderedDistinct(items[..n]);
      OrderedMembers(items[..n]);
      forall i | 0 <= i < |line| ensures line[i].row != items[n].row {
        assert line[i] in line;
      }
      InsertDistinct(line, items[n]);
    }
  }

  /** The result is in order and holds selected rows only, each once. */
  lemma LimitedSelects(items: seq<Item>, limit: nat)
    requires Distinct(items)
    ensures InOrder(Limited(items, limit)) && Distinct(Limited(items, limit)) && |Limited(items, limit)| <= limit
    ensures forall i :: 0 <= i < |Limited(items, limit)| ==> Limited(items, limit)[i] in items
  {
    OrderedMembers(items);
    OrderedInOrder(items);
    OrderedDistinct(items);
    assert forall i :: 0 <= i < |Ordered(items)| ==> Ordered(items)[i] in Ordered(items);
  }

  /** A selected row is missing only when the limit is used up by rows that all precede it. */
  lemma LimitedTakesFirst(items: seq<Item>, limit: nat, x: Item)
    requires x in items && x !in Limited(items, limit)
    ensures |Limited(items, limit)| == limit
    ensures forall i :: 0 <= i < limit ==> Precedes(Limited(items, limit)[i], x)
  {
    OrderedMembers(items);
    OrderedInOrder(items);
    var line := Ordered(items);
    var k :| 0 <= k < |line| && line[k] == x;
    assert forall i :: 0 <= i < |line| && i < limit ==> line[i] in Limited(items, limit);
  }

  // ---- counting rows ------------------------------------------------------------------------------

  function Below(n: nat): (r: set<nat>)
    ensures |r| == n && forall i :: i in r <==> 0 <= i < n
  {
    if n == 0 then {} else Below(n - 1) + {n - 1}
  }

  function Members(rows: seq<nat>): (r: set<nat>)
    ensures forall i :: i in r <==> i in rows
    ensures (forall i, j :: 0 <= i < j < |rows| ==> rows[i] != rows[j]) ==> |r| == |rows|
  {
    if rows == [] then {}
    else
      assert rows == rows[..|rows| - 1] + [rows[|rows| - 1]];
      Members(rows[..|rows| - 1]) + {rows[|rows| - 1]}
  }

  lemma SubsetIsSmaller(a: set<nat>, b: set<nat>, q: nat)
    requires a <= b && q in b && q !in a
    ensures |a| < |b|
  {
    assert b == a + (b - a) && q in b - a;
  }

  /** Different rows below n that leave one out are fewer than n. */
  lemma DistinctAreFew(rows: seq<nat>, n: nat, q: nat)
    requires forall i, j :: 0 <= i < j < |rows| ==> rows[i] != rows[j]
    requires q < n && q !in rows && forall i :: 0 <= i < |rows| ==> rows[i] < n
    ensures |rows| < n
  {
    SubsetIsSmaller(Members(rows), Below(n), q);
  }
}
