/** The search tree over client keys: order by hash, then address length, then address bytes. */
module BanTree {
  import opened Words
  import opened BanModel

  /** memcmp on texts of equal length. */
  predicate BytesLess(a: Word, b: Word)
    requires |a| == |b|
  {
    a != [] && (a[0] < b[0] || (a[0] == b[0] && BytesLess(a[1..], b[1..])))
  }

  predicate Less(a: Key, b: Key) {
    || a.hash < b.hash
    || (a.hash == b.hash && (|a.addr| < |b.addr| || (|a.addr| == |b.addr| && BytesLess(a.addr, b.addr))))
  }

  lemma {:induction false} BytesTotal(a: Word, b: Word)
    requires |a| == |b|
    ensures !(BytesLess(a, b) && BytesLess(b, a))
    ensures BytesLess(a, b) || BytesLess(b, a) || a == b
    ensures a == b ==> !BytesLess(a, b)
  {
    if a != [] {
      BytesTotal(a[1..], b[1..]);
      assert a == [a[0]] + a[1..] && b == [b[0]] + b[1..];
    }
  }

  lemma {:induction false} BytesTransitive(a: Word, b: Word, c: Word)
    requires |a| == |b| == |c| && BytesLess(a, b) && BytesLess(b, c)
    ensures BytesLess(a, c)
  {
    if a[0] == b[0] == c[0] {
      BytesTransitive(a[1..], b[1..], c[1..]);
    }
  }

  /** The comparison is a strict total order even on colliding hashes: exactly one of <, ==, > holds. */
  lemma LessTotal(a: Key, b: Key)
    ensures !(Less(a, b) && Less(b, a))
    ensures Less(a, b) || Less(b, a) || a == b
    ensures a == b ==> !Less(a, b)
  {
    if |a.addr| == |b.addr| {
      BytesTotal(a.addr, b.addr);
    }
  }

  lemma LessTransitive(a: Key, b: Key, c: Key)
    requires Less(a, b) && Less(b, c)
    ensures Less(a, c)
  {
    if |a.addr| == |b.addr| == |c.addr| && BytesLess(a.addr, b.addr) && BytesLess(b.addr, c.addr) {
      BytesTransitive(a.addr, b.addr, c.addr);
    }
  }

  datatype Tree = Leaf | Branch(left: Tree, key: Key, right: Tree)

  function InOrder(t: Tree): seq<Key> {
    match t
    case Leaf => []
    case Branch(l, k, r) => InOrder(l) + [k] + InOrder(r)
  }

  ghost predicate Sorted(s: seq<Key>) {
    forall i, j :: 0 <= i < j < |s| ==> Less(s[i], s[j])
  }

  /** Where a key of a sorted tree can be: the comparison with the root decides the side. */
  lemma Side(l: Tree, k: Key, r: Tree, x: Key)
    requires Sorted(InOrder(Branch(l, k, r)))
    ensures Sorted(InOrder(l)) && Sorted(InOrder(r))
    ensures Less(x, k) ==> (x in InOrder(Branch(l, k, r)) <==> x in InOrder(l))
    ensures Less(k, x) ==> (x in InOrder(Branch(l, k, r)) <==> x in InOrder(r))
  {
    SortedSplit(InOrder(l), k, InOrder(r));
    LessTotal(x, k);
    assert x in InOrder(r) && Less(x, k) ==> Less(k, x);
    assert x in InOrder(l) && Less(k, x) ==> Less(x, k);
  }

  /** Attach a new leaf where the descent ends; equal keys go right, as the insert comparator has it. */
  function Attach(t: Tree, x: Key): Tree {
    match t
    case Leaf => Branch(Leaf, x, Leaf)
    case Branch(l, k, r) => if Less(x, k) then Branch(Attach(l, x), k, r) else Branch(l, k, Attach(r, x))
  }

  lemma {:induction false} AttachMembers(t: Tree, x: Key)
    ensures forall y :: y in InOrder(Attach(t, x)) <==> y in InOrder(t) || y == x
  {
    match t
    case Leaf =>
    case Branch(l, k, r) =>
      AttachMembers(l, x);
      AttachMembers(r, x);
  }

  ghost predicate AllLess(s: seq<Key>, k: Key) {
    forall y :: y in s ==> Less(y, k)
  }

  ghost predicate AllGreater(s: seq<Key>, k: Key) {
    forall y :: y in s ==> Less(k, y)
  }

  lemma SortedSplit(a: seq<Key>, k: Key, b: seq<Key>)
    ensures Sorted(a + [k] + b) <==> Sorted(a) && Sorted(b) && AllLess(a, k) && AllGreater(b, k)
  {
    var s := a + [k] + b;
    if Sorted(s) {
      assert s[|a|] == k;
      assert forall i :: 0 <= i < |a| ==> s[i] == a[i];
      assert forall i :: 0 <= i < |b| ==> s[|a| + 1 + i] == b[i];
    }
    if Sorted(a) && Sorted(b) && AllLess(a, k) && AllGreater(b, k) {
      forall i, j | 0 <= i < j < |s| ensures Less(s[i], s[j]) {
        if i < |a| && |a| < j {
          assert s[i] in a && s[j] in b;
          LessTransitive(s[i], k, s[j]);
        }
      }
    }
  }

  lemma {:induction false} AttachSorted(t: Tree, x: Key)
    requires Sorted(InOrder(t)) && x !in InOrder(t)
    ensures Sorted(InOrder(Attach(t, x)))
  {
    match t
    case Leaf =>
    case Branch(l, k, r) =>
      SortedSplit(InOrder(l), k, InOrder(r));
      LessTotal(x, k);
      if Less(x, k) {
        AttachSorted(l, x);
        AttachMembers(l, x);
        SortedSplit(InOrder(Attach(l, x)), k, InOrder(r));
      } else {
        AttachSorted(r, x);
        AttachMembers(r, x);
        SortedSplit(InOrder(l), k, InOrder(Attach(r, x)));
      }
  }

  /** Some tree has any given in-order sequence. */
  function Spine(s: seq<Key>): Tree {
    if s == [] then Leaf else Branch(Leaf, s[0], Spine(s[1..]))
  }

  lemma {:induction false} SpineInOrder(s: seq<Key>)
    ensures InOrder(Spine(s)) == s
  {
    if s != [] {
      SpineInOrder(s[1..]);
    }
  }

  /** Rebalancing after an insert may pick any tree with the same in-order sequence. */
  method Rebalance(t: Tree) returns (r: Tree)
    ensures InOrder(r) == InOrder(t)
  {
    r :| InOrder(r) == InOrder(t);
  }

  /** Deletion with rebalancing: any tree over the remaining keys, in order. */
  method Delete(t: Tree, x: Key) returns (r: Tree)
    requires Sorted(InOrder(t)) && x in InOrder(t)
    ensures Sorted(InOrder(r))
    ensures forall y :: y in InOrder(r) <==> y in InOrder(t) && y != x
  {
    var s := InOrder(t);
    var i := IndexOf(s, x);
    SortedDistinct(s);
    RemoveAtParts(s, i);
    RemoveAtSorted(s, i);
    SpineInOrder(RemoveAt(s, i));
    r :| InOrder(r) == RemoveAt(s, i);
  }

  lemma SortedDistinct(s: seq<Key>)
    requires Sorted(s)
    ensures Distinct(s)
  {
    forall i, j | 0 <= i < j < |s| ensures s[i] != s[j] {
      LessTotal(s[i], s[j]);
    }
  }

  lemma RemoveAtSorted(s: seq<Key>, i: nat)
    requires Sorted(s) && i < |s|
    ensures Sorted(RemoveAt(s, i))
  {
    var r := RemoveAt(s, i);
    forall a, b | 0 <= a < b < |r| ensures Less(r[a], r[b]) {
      assert r[a] == s[if a < i then a else a + 1] && r[b] == s[if b < i then b else b + 1];
    }
  }

  /** Binary descent finds a key exactly when the tree holds it. */
  method Find(t: Tree, x: Key) returns (found: bool)
    requires Sorted(InOrder(t))
    ensures found <==> x in InOrder(t)
  {
    var node := t;
    while node.Branch?
      invariant Sorted(InOrder(node)) && (x in InOrder(node) <==> x in InOrder(t))
      decreases node
    {
      Side(node.left, node.key, node.right, x);
      LessTotal(x, node.key);
      if x.hash < node.key.hash {
        node := node.left;
      } else if x.hash > node.key.hash {
        node := node.right;
      } else if x.addr == node.key.addr {
        return true;
      } else if |x.addr| < |node.key.addr| || (|x.addr| == |node.key.addr| && BytesLess(x.addr, node.key.addr)) {
        node := node.left;
      } else {
        node := node.right;
      }
    }
    found := false;
  }
}
