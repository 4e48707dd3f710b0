/**
 * The order in which the period summary lists its group keys: character-code
 * (lexicographic) order on strings, and a sort into descending order.
 */
module LexOrder {
  import opened Seqs

  /** `a` sorts strictly before `b`: the first differing character is smaller, or `a` is a proper prefix of `b`. */
  predicate Below(a: string, b: string)
    decreases |a|
  {
    if a == [] then b != []
    else b != [] && (a[0] < b[0] || (a[0] == b[0] && Below(a[1..], b[1..])))
  }

  lemma {:induction false} BelowIrreflexive(a: string)
    ensures !Below(a, a)
  {
    if a != [] {
      BelowIrreflexive(a[1..]);
    }
  }

  lemma {:induction false} BelowTransitive(a: string, b: string, c: string)
    requires Below(a, b) && Below(b, c)
    ensures Below(a, c)
  {
    if a != [] && a[0] == b[0] && b[0] == c[0] {
      BelowTransitive(a[1..], b[1..], c[1..]);
    }
  }

  lemma {:induction false} BelowTotal(a: string, b: string)
    requires a != b
    ensures Below(a, b) || Below(b, a)
  {
    if a != [] && b != [] && a[0] == b[0] {
      assert a == [a[0]] + a[1..] && b == [b[0]] + b[1..];
      BelowTotal(a[1..], b[1..]);
    }
  }

  lemma {:induction false} BelowAsymmetric(a: string, b: string)
    requires Below(a, b)
    ensures !Below(b, a)
  {
    if Below(b, a) {
      BelowTransitive(a, b, a);
      BelowIrreflexive(a);
    }
  }

  /** Strictly descending: every later key sorts before every earlier one. */
  predicate Descending(r: seq<string>)
  {
    forall i, j :: 0 <= i < j < |r| ==> Below(r[j], r[i])
  }

  /** A key above the head of a descending sequence is above all of it. */
  lemma AboveHead(r: seq<string>, x: string)
    requires Descending(r) && r != [] && Below(r[0], x)
    ensures forall j :: 0 <= j < |r| ==> Below(r[j], x)
  {
    forall j | 0 < j < |r| ensures Below(r[j], x) {
      BelowTransitive(r[j], r[0], x);
    }
  }

  /** What is inserted into the tail of a descending sequence stays below its head. */
  lemma BelowHead(r: seq<string>, x: string, tail: seq<string>)
    requires Descending(r) && r != [] && Below(x, r[0])
    requires multiset(tail) == multiset(r[1..]) + multiset{x}
    ensures forall j :: 0 <= j < |tail| ==> Below(tail[j], r[0])
  {
    forall j | 0 <= j < |tail| ensures Below(tail[j], r[0]) {
      var y := tail[j];
      assert y in multiset(tail);
      if y != x {
        assert y in multiset(r[1..]);
        var k :| 0 <= k < |r[1..]| && r[1..][k] == y;
        assert r[k + 1] == y;
      }
    }
  }

  /** Place `x` into a descending sequence that does not contain it. */
  function Insert(x: string, r: seq<string>): (r': seq<string>)
    requires Descending(r) && x !in r
    ensures multiset(r') == multiset(r) + multiset{x}
    ensures Descending(r')
  {
    if r == [] then [x]
    else if Below(r[0], x) then
      AboveHead(r, x);
      [x] + r
    else
      BelowTotal(x, r[0]);
      var tail := Insert(x, r[1..]);
      assert r == [r[0]] + r[1..];
      BelowHead(r, x, tail);
      [r[0]] + tail
  }

  /** `keys.sort((a, b) => b.localeCompare(a))` on distinct keys: the same keys, newest (greatest) first. */
  function SortDescending(keys: seq<string>): (r: seq<string>)
    requires Distinct(keys)
    ensures multiset(r) == multiset(keys)
    ensures Descending(r)
  {
    if keys == [] then []
    else
      var rest := SortDescending(keys[1..]);
      assert keys == [keys[0]] + keys[1..];
      assert keys[0] !in multiset(keys[1..]);
      Insert(keys[0], rest)
  }
}
