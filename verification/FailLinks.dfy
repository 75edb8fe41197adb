/** Pass 2 of the automaton build: breadth-first fail links, flattened into the goto table. */
module FailLinks {
  import opened Words
  import opened Patterns
  import opened Tries

  /** Snapshot of the arrays that pass 2 fills. */
  datatype Links = Links(next: seq<nat>, fail: seq<nat>, out: seq<Mask>, rout: seq<Mask>)

  /**
   * Position of the walk: `queue` holds the entries enqueued so far (`enq` as a set), `done` the
   * states whose 256 transitions are final, and `cur` is final below byte `b`. Entry 0 of the walk
   * is the root, entry k is `queue[k - 1]`.
   */
  datatype Walk = Walk(queue: seq<nat>, enq: set<nat>, head: nat, done: set<nat>, cur: nat, b: nat)

  ghost function Depth(t: Trie, s: nat): nat
    requires s < |t.text|
  {
    |t.text[s]|
  }

  lemma NonRoot(t: Trie, s: nat)
    requires 0 < s < |t.text|
    ensures t.text[s] != []
    ensures var w := t.text[s];
            w[..|w| - 1] in t.id && t.Edge(t.id[w[..|w| - 1]], w[|w| - 1]) == s
  {
    var w := t.text[s];
    assert t.id[w] == s && t.id[t.text[0]] == 0;
    assert w[..|w| - 1] + [w[|w| - 1]] == w;
  }

  lemma EdgeTarget(t: Trie, s: nat, b: Byte)
    requires s < |t.text| && t.Edge(s, b) != 0
    ensures t.Edge(s, b) < |t.text| && t.text[t.Edge(s, b)] == t.text[s] + [b]
  {
  }

  lemma EdgeInjective(t: Trie, s: nat, b: Byte, u: nat, c: Byte)
    requires s < |t.text| && u < |t.text| && t.Edge(s, b) == t.Edge(u, c) != 0
    ensures s == u && b == c
  {
    EdgeTarget(t, s, b);
    EdgeTarget(t, u, c);
    var w := t.text[s] + [b];
    assert w[..|w| - 1] == t.text[s] && w[..|w| - 1] == t.text[u];
    assert w[|w| - 1] == b && w[|w| - 1] == c;
  }

  /** The state of the longest suffix of a text that is a word of the trie. */
  ghost function Node(t: Trie, w: Word): (s: nat)
    ensures s < |t.text| && t.text[s] == Longest(t.id.Keys, w)
  {
    t.id[Longest(t.id.Keys, w)]
  }

  ghost function Delta(t: Trie, s: nat, b: Byte): nat
    requires s < |t.text|
  {
    Node(t, t.text[s] + [b])
  }

  ghost function FailState(t: Trie, s: nat): nat
    requires s < |t.text|
  {
    if t.text[s] == [] then 0 else Node(t, t.text[s][1..])
  }

  predicate Resolved(k: Walk, u: nat, c: Byte) {
    u in k.done || (u == k.cur && c < k.b)
  }

  ghost function Elems(q: seq<nat>): set<nat> {
    set x | x in q
  }

  /** The queue lists the enqueued states once each. */
  ghost predicate QueueOk(n: nat, k: Walk) {
    && k.head <= |k.queue| && k.b <= 256 && k.cur < n
    && k.cur == (if k.head == 0 then 0 else k.queue[k.head - 1])
    && (forall i :: 0 <= i < |k.queue| ==> 0 < k.queue[i] < n)
    && k.enq == Elems(k.queue)
    && (forall i, j :: 0 <= i < j < |k.queue| ==> k.queue[i] != k.queue[j])
  }

  ghost predicate Below(q: seq<nat>, n: nat) {
    forall i :: 0 <= i < |q| ==> q[i] < n
  }

  /** The queue is sorted by depth and runs at most one level ahead of the current state. */
  ghost predicate DepthOk(t: Trie, q: seq<nat>, last: nat)
    requires Below(q, |t.text|)
  {
    && (forall i, j :: 0 <= i < j < |q| ==> Depth(t, q[i]) <= Depth(t, q[j]))
    && (forall i :: 0 <= i < |q| ==> Depth(t, q[i]) <= last)
  }

  /** Finished are the root and the entries before the current one. */
  ghost predicate DoneOk(k: Walk)
    requires k.head <= |k.queue|
  {
    k.done == if k.head == 0 then {} else {0} + Elems(k.queue[..k.head - 1])
  }

  ghost predicate OrderOk(t: Trie, k: Walk) {
    QueueOk(|t.text|, k) && DepthOk(t, k.queue, Depth(t, k.cur) + 1) && DoneOk(k)
  }

  /** A trie child is enqueued exactly when the edge to it has been walked. */
  ghost predicate EnqOk(t: Trie, k: Walk) {
    forall u: nat, c: Byte {:trigger t.Edge(u, c)} :: u < |t.text| && t.Edge(u, c) != 0 ==>
      (t.Edge(u, c) in k.enq <==> Resolved(k, u, c))
  }

  ghost predicate TableOk(t: Trie, next: seq<nat>, k: Walk)
  {
    && |t.text| * 256 <= |next|
    && forall u: nat, c: Byte {:trigger Cell(next, u, c)} :: u < |t.text| ==>
         Cell(next, u, c) == if Resolved(k, u, c) then Delta(t, u, c) else t.Edge(u, c)
  }

  ghost predicate FailOk(t: Trie, fail: seq<nat>, enq: set<nat>)
  {
    && |t.text| <= |fail|
    && forall v {:trigger fail[v]} :: 0 <= v < |t.text| ==> fail[v] == if v in enq then FailState(t, v) else 0
  }

  /** Enqueued states and the root accept every pattern that ends their word; the others their own. */
  ghost predicate AcceptOk(t: Trie, out: seq<Mask>, pats: seq<Pattern>, enq: set<nat>) {
    && |t.text| <= |out|
    && forall v {:trigger out[v]} :: 0 <= v < |t.text| ==>
         out[v] == if v == 0 || v in enq then BitsEnding(pats, t.text[v]) else BitsAt(pats, t.text[v])
  }

  ghost predicate Fits(t: Trie, pats: seq<Pattern>) {
    forall p :: p in pats ==> p.word != [] && p.word in t.id.Keys
  }

  ghost predicate WalkOk(t: Trie, next: seq<nat>, k: Walk) {
    OrderOk(t, k) && EnqOk(t, k) && TableOk(t, next, k)
  }

  ghost predicate MasksOk(t: Trie, sigs: seq<Pattern>, terms: seq<Pattern>, l: Links, enq: set<nat>) {
    && Fits(t, sigs) && Fits(t, terms) && FailOk(t, l.fail, enq)
    && AcceptOk(t, l.out, sigs, enq) && AcceptOk(t, l.rout, terms, enq)
  }

  /** What holds after every byte of the walk. */
  ghost predicate Inv(t: Trie, sigs: seq<Pattern>, terms: seq<Pattern>, l: Links, k: Walk) {
    WalkOk(t, l.next, k) && MasksOk(t, sigs, terms, l, k.enq)
  }

  /** Breadth-first order: everything strictly shallower than the current entry is finished. */
  lemma {:induction false} ShallowIsDone(t: Trie, k: Walk, u: nat)
    requires OrderOk(t, k) && EnqOk(t, k) && 0 < k.head && u < |t.text|
    ensures Depth(t, u) <= Depth(t, k.cur) ==> u == 0 || u in k.enq
    ensures Depth(t, u) < Depth(t, k.cur) ==> u in k.done
    decreases Depth(t, u)
  {
    if u != 0 && Depth(t, u) <= Depth(t, k.cur) {
      NonRoot(t, u);
      var w := t.text[u];
      var p := t.id[w[..|w| - 1]];
      ShallowIsDone(t, k, p);
      assert t.Edge(p, w[|w| - 1]) in k.enq;
      var i :| 0 <= i < |k.queue| && k.queue[i] == u;
      if Depth(t, u) < Depth(t, k.cur) {
        assert k.queue[..k.head - 1][i] == u;
      }
    }
  }

  /** The fail state of a child is the transition of the parent's fail state. */
  lemma FailOfChild(t: Trie, s: nat, b: Byte)
    requires 0 < s < |t.text|
    ensures Delta(t, FailState(t, s), b) == Node(t, (t.text[s] + [b])[1..])
    ensures t.Edge(s, b) == 0 ==> Delta(t, s, b) == Node(t, (t.text[s] + [b])[1..])
    ensures t.Edge(s, b) != 0 ==> Delta(t, s, b) == t.Edge(s, b)
  {
    NonRoot(t, s);
    var w := t.text[s];
    assert (w + [b])[1..] == w[1..] + [b];
    LongestStep(t.id.Keys, w[1..], b);
    if w + [b] in t.id {
      assert w + [b] != t.text[0];
    }
  }

  /** Fail links are strictly shorter, so what they read is final. */
  lemma FailReady(t: Trie, l: Links, k: Walk)
    requires OrderOk(t, k) && EnqOk(t, k) && FailOk(t, l.fail, k.enq) && TableOk(t, l.next, k)
    requires 0 < k.head && k.b < 256
    ensures var f := l.fail[k.cur];
            && f < |t.text| && Cell(l.next, f, k.b) == Node(t, (t.text[k.cur] + [k.b])[1..])
            && Cell(l.next, k.cur, k.b) == t.Edge(k.cur, k.b)
  {
    NonRoot(t, k.cur);
    ShallowIsDone(t, k, FailState(t, k.cur));
    FailOfChild(t, k.cur, k.b);
  }

  /** The walk after byte `b` of the current state, whose child `v` (0: none) is enqueued. */
  function Next(k: Walk, v: nat): Walk {
    if v == 0 then k.(b := k.b + 1) else k.(b := k.b + 1, queue := k.queue + [v], enq := k.enq + {v})
  }

  lemma NextOrder(t: Trie, k: Walk)
    requires OrderOk(t, k) && EnqOk(t, k) && k.b < 256
    ensures OrderOk(t, Next(k, t.Edge(k.cur, k.b)))
    ensures t.Edge(k.cur, k.b) !in k.enq
  {
    var v := t.Edge(k.cur, k.b);
    assert v !in k.enq by {
      assert !Resolved(k, k.cur, k.b);
    }
    if v != 0 {
      EdgeTarget(t, k.cur, k.b);
      assert v !in k.done;
      EnqueueOrder(t, k, v);
    }
  }

  lemma EnqueueOrder(t: Trie, k: Walk, v: nat)
    requires OrderOk(t, k) && k.b < 256
    requires 0 < v < |t.text| && v !in k.enq && Depth(t, v) == Depth(t, k.cur) + 1
    ensures OrderOk(t, Next(k, v))
  {
    EnqueueQueue(|t.text|, k, v);
    EnqueueDepth(t, k.queue, v);
    if k.head > 0 {
      assert (k.queue + [v])[..k.head - 1] == k.queue[..k.head - 1];
    }
  }

  lemma EnqueueQueue(n: nat, k: Walk, v: nat)
    requires QueueOk(n, k) && 0 < v < n && v !in k.enq && k.b < 256
    ensures QueueOk(n, Next(k, v))
  {
    assert Elems(k.queue + [v]) == Elems(k.queue) + {v};
    assert forall i :: 0 <= i < |k.queue| ==> k.queue[i] in Elems(k.queue);
  }

  lemma EnqueueDepth(t: Trie, q: seq<nat>, v: nat)
    requires Below(q, |t.text|) && v < |t.text| && DepthOk(t, q, Depth(t, v))
    ensures DepthOk(t, q + [v], Depth(t, v))
  {
  }

  lemma NextEnq(t: Trie, k: Walk)
    requires OrderOk(t, k) && EnqOk(t, k) && k.b < 256
    ensures EnqOk(t, Next(k, t.Edge(k.cur, k.b)))
  {
    var v := t.Edge(k.cur, k.b);
    var k' := Next(k, v);
    forall u: nat, c: Byte | u < |t.text| && t.Edge(u, c) != 0
      ensures t.Edge(u, c) in k'.enq <==> Resolved(k', u, c)
    {
      if t.Edge(u, c) == v {
        EdgeInjective(t, u, c, k.cur, k.b);
      }
    }
  }

  lemma NextWalk(t: Trie, k: Walk, v: nat)
    requires OrderOk(t, k) && EnqOk(t, k) && k.b < 256 && v == t.Edge(k.cur, k.b)
    ensures OrderOk(t, Next(k, v)) && EnqOk(t, Next(k, v)) && v !in k.enq
  {
    NextOrder(t, k);
    NextEnq(t, k);
  }

  lemma NextFail(t: Trie, fail: seq<nat>, enq: set<nat>, v: nat, f: nat)
    requires FailOk(t, fail, enq) && v < |t.text| && f == FailState(t, v)
    ensures FailOk(t, fail[v := f], enq + {v})
  {
  }

  lemma OtherCell(next: seq<nat>, s: nat, b: Byte, x: nat, u: nat, c: Byte)
    requires (s + 1) * 256 <= |next| && (u + 1) * 256 <= |next|
    ensures Cell(next[s * 256 + b := x], u, c) == if u == s && c == b then x else Cell(next, u, c)
  {
  }

  /** Writing the final value of the current cell keeps the table right. */
  lemma NextTable(t: Trie, next: seq<nat>, k: Walk, v: nat)
    requires TableOk(t, next, k) && k.cur < |t.text| && k.b < 256
    ensures TableOk(t, next[k.cur * 256 + k.b := Delta(t, k.cur, k.b)], Next(k, v))
  {
    var d := Delta(t, k.cur, k.b);
    var next' := next[k.cur * 256 + k.b := d];
    forall u: nat, c: Byte | u < |t.text|
      ensures Cell(next', u, c) == if Resolved(Next(k, v), u, c) then Delta(t, u, c) else t.Edge(u, c)
    {
      OtherCell(next, k.cur, k.b, d, u, c);
    }
  }

  /** The same when the cell already holds its final value. */
  lemma NextTableSame(t: Trie, next: seq<nat>, k: Walk, v: nat)
    requires TableOk(t, next, k) && k.cur < |t.text| && k.b < 256
    requires Cell(next, k.cur, k.b) == Delta(t, k.cur, k.b)
    ensures TableOk(t, next, Next(k, v))
  {
    NextTable(t, next, k, v);
    assert next[k.cur * 256 + k.b := Delta(t, k.cur, k.b)] == next;
  }

  /** What ends a word is the word itself or what ends its longest proper suffix in the trie. */
  lemma EndingSplit(t: Trie, pats: seq<Pattern>, v: nat)
    requires 0 < v < |t.text| && Fits(t, pats)
    ensures BitsEnding(pats, t.text[v]) == BitsAt(pats, t.text[v]) + BitsEnding(pats, t.text[FailState(t, v)])
  {
    NonRoot(t, v);
    var w := t.text[v];
    forall p | p in pats
      ensures IsSuffix(p.word, w) <==> p.word == w || IsSuffix(p.word, t.text[FailState(t, v)])
    {
      SuffixSplit(p.word, w);
      SuffixOfLongest(t.id.Keys, p.word, w[1..]);
    }
  }

  lemma NextAccept(t: Trie, out: seq<Mask>, pats: seq<Pattern>, enq: set<nat>, v: nat, f: nat)
    requires AcceptOk(t, out, pats, enq) && Fits(t, pats)
    requires 0 < v < |t.text| && v !in enq && f == FailState(t, v) && (f == 0 || f in enq)
    ensures AcceptOk(t, out[v := out[v] + out[f]], pats, enq + {v})
  {
    EndingSplit(t, pats, v);
    assert out[v] + out[f] == BitsEnding(pats, t.text[v]);
  }

  /** Absent edge: the fallback is written into the table. */
  lemma FlattenStep(t: Trie, sigs: seq<Pattern>, terms: seq<Pattern>, l: Links, k: Walk)
    requires Inv(t, sigs, terms, l, k) && 0 < k.head && k.b < 256 && Cell(l.next, k.cur, k.b) == 0
    ensures var f := Node(t, (t.text[k.cur] + [k.b])[1..]);
            Inv(t, sigs, terms, l.(next := l.next[k.cur * 256 + k.b := f]), Next(k, 0))
  {
    FailReady(t, l, k);
    NextWalk(t, k, 0);
    NonRoot(t, k.cur);
    FailOfChild(t, k.cur, k.b);
    NextTable(t, l.next, k, 0);
  }

  /** The child `v` on byte b, and its fail state: already enqueued, because it is shallower. */
  lemma LinkFacts(t: Trie, l: Links, k: Walk)
    requires WalkOk(t, l.next, k) && FailOk(t, l.fail, k.enq)
    requires 0 < k.head && k.b < 256 && Cell(l.next, k.cur, k.b) != 0
    ensures var v := Cell(l.next, k.cur, k.b);
            var f := Node(t, (t.text[k.cur] + [k.b])[1..]);
            && v == t.Edge(k.cur, k.b) == Delta(t, k.cur, k.b) && 0 < v < |t.text| && v !in k.enq
            && f == FailState(t, v) && f != v && (f == 0 || f in k.enq)
  {
    FailReady(t, l, k);
    var v := t.Edge(k.cur, k.b);
    var f := Node(t, (t.text[k.cur] + [k.b])[1..]);
    EdgeTarget(t, k.cur, k.b);
    assert f == FailState(t, v) && |t.text[f]| < |t.text[v]|;
    ShallowIsDone(t, k, f);
    FailOfChild(t, k.cur, k.b);
    assert !Resolved(k, k.cur, k.b);
  }

  /** The walk may move past an edge whose cell already holds its final value. */
  lemma WalkStep(t: Trie, next: seq<nat>, k: Walk)
    requires WalkOk(t, next, k) && k.b < 256
    requires Cell(next, k.cur, k.b) == t.Edge(k.cur, k.b) == Delta(t, k.cur, k.b)
    ensures WalkOk(t, next, Next(k, Cell(next, k.cur, k.b)))
  {
    NextWalk(t, k, t.Edge(k.cur, k.b));
    NextTableSame(t, next, k, t.Edge(k.cur, k.b));
  }

  /** The links after the child `v` inherits from its fail state `f`. */
  function Inherit(l: Links, v: nat, f: nat): Links
    requires v < |l.fail| && v < |l.out| && v < |l.rout| && f < |l.out| && f < |l.rout|
  {
    Links(l.next, l.fail[v := f], l.out[v := l.out[v] + l.out[f]], l.rout[v := l.rout[v] + l.rout[f]])
  }

  lemma MasksStep(t: Trie, sigs: seq<Pattern>, terms: seq<Pattern>, l: Links, enq: set<nat>, v: nat, f: nat)
    requires MasksOk(t, sigs, terms, l, enq)
    requires 0 < v < |t.text| && v !in enq && f == FailState(t, v) && (f == 0 || f in enq)
    ensures MasksOk(t, sigs, terms, Inherit(l, v, f), enq + {v})
  {
    NextFail(t, l.fail, enq, v, f);
    NextAccept(t, l.out, sigs, enq, v, f);
    NextAccept(t, l.rout, terms, enq, v, f);
  }

  /** Present edge: the child learns its fail link, inherits what ends there, and is enqueued. */
  lemma LinkStep(t: Trie, sigs: seq<Pattern>, terms: seq<Pattern>, l: Links, k: Walk)
    requires Inv(t, sigs, terms, l, k) && 0 < k.head && k.b < 256 && Cell(l.next, k.cur, k.b) != 0
    ensures var v := Cell(l.next, k.cur, k.b);
            var f := Node(t, (t.text[k.cur] + [k.b])[1..]);
            && 0 < v < |t.text| && v !in k.enq && f != v
            && Inv(t, sigs, terms, Inherit(l, v, f), Next(k, v))
  {
    LinkFacts(t, l, k);
    WalkStep(t, l.next, k);
    MasksStep(t, sigs, terms, l, k.enq, Cell(l.next, k.cur, k.b), Node(t, (t.text[k.cur] + [k.b])[1..]));
  }

  lemma RootFacts(t: Trie, next: seq<nat>, k: Walk)
    requires WalkOk(t, next, k) && k.head == 0 && k.b < 256
    ensures var v := Cell(next, k.cur, k.b);
            && v == t.Edge(k.cur, k.b) == Delta(t, k.cur, k.b) && v < |t.text| && v !in k.enq
            && (v != 0 ==> FailState(t, v) == 0)
  {
    assert !Resolved(k, k.cur, k.b);
    assert t.text[0] + [k.b] == [k.b] && (t.text[0] + [k.b])[1..] == [];
    if t.Edge(0, k.b) != 0 {
      EdgeTarget(t, 0, k.b);
    }
  }

  /** The first loop: the root's children are enqueued as they are. */
  lemma RootWalkStep(t: Trie, next: seq<nat>, k: Walk, v: nat)
    requires WalkOk(t, next, k)
    requires k.head == 0 && k.b < 256 && v == Cell(next, k.cur, k.b)
    ensures v < |t.text| && v !in k.enq
    ensures WalkOk(t, next, Next(k, v))
  {
    RootFacts(t, next, k);
    WalkStep(t, next, k);
  }

  lemma RootMasksStep(t: Trie, sigs: seq<Pattern>, terms: seq<Pattern>, l: Links, k: Walk, v: nat)
    requires WalkOk(t, l.next, k) && MasksOk(t, sigs, terms, l, k.enq)
    requires k.head == 0 && k.b < 256 && v == Cell(l.next, k.cur, k.b)
    ensures MasksOk(t, sigs, terms, l, Next(k, v).enq)
  {
    RootFacts(t, l.next, k);
    if v != 0 {
      RootMasks(t, sigs, terms, l, k.enq, v);
    }
  }

  lemma RootMasks(t: Trie, sigs: seq<Pattern>, terms: seq<Pattern>, l: Links, enq: set<nat>, v: nat)
    requires MasksOk(t, sigs, terms, l, enq) && 0 < v < |t.text| && v !in enq && FailState(t, v) == 0
    ensures MasksOk(t, sigs, terms, l, enq + {v})
  {
    RootAccept(t, l.out, sigs, enq, v);
    RootAccept(t, l.rout, terms, enq, v);
  }

  lemma RootAccept(t: Trie, out: seq<Mask>, pats: seq<Pattern>, enq: set<nat>, v: nat)
    requires AcceptOk(t, out, pats, enq) && Fits(t, pats)
    requires 0 < v < |t.text| && v !in enq && FailState(t, v) == 0
    ensures AcceptOk(t, out, pats, enq + {v})
  {
    EmptyEnding(t, pats);
    NextAccept(t, out, pats, enq, v, 0);
    assert out[0] == {} && out[v] + out[0] == out[v];
    assert out[v := out[v] + out[0]] == out;
  }

  lemma EmptyEnding(t: Trie, pats: seq<Pattern>)
    requires Fits(t, pats)
    ensures BitsEnding(pats, []) == {}
  {
    forall p | p in pats ensures !IsSuffix(p.word, []) {}
  }

  /** Dequeuing: the current state is finished and the next entry has no byte done yet. */
  function Dequeue(k: Walk): Walk
    requires k.head < |k.queue|
  {
    k.(head := k.head + 1, done := k.done + {k.cur}, cur := k.queue[k.head], b := 0)
  }

  lemma DequeueStep(t: Trie, sigs: seq<Pattern>, terms: seq<Pattern>, l: Links, k: Walk)
    requires Inv(t, sigs, terms, l, k) && k.b == 256 && k.head < |k.queue|
    ensures Inv(t, sigs, terms, l, Dequeue(k))
  {
    var k' := Dequeue(k);
    forall u: nat, c: Byte ensures Resolved(k, u, c) <==> Resolved(k', u, c) {}
    DequeueOrder(t, k);
  }

  lemma DequeueOrder(t: Trie, k: Walk)
    requires OrderOk(t, k) && k.b == 256 && k.head < |k.queue|
    ensures OrderOk(t, Dequeue(k))
  {
    assert k.head > 0 ==> Depth(t, k.queue[k.head - 1]) <= Depth(t, k.queue[k.head]);
  }

  /** Once the queue is drained every state is final, so every non-root state was enqueued. */
  lemma {:induction false} DrainedReachesAll(t: Trie, k: Walk, u: nat)
    requires OrderOk(t, k) && EnqOk(t, k) && k.head == |k.queue| && k.b == 256 && u < |t.text|
    ensures u == 0 || u in k.enq
    ensures forall c: Byte :: Resolved(k, u, c)
    decreases Depth(t, u)
  {
    if u != 0 {
      NonRoot(t, u);
      var w := t.text[u];
      var p := t.id[w[..|w| - 1]];
      DrainedReachesAll(t, k, p);
      assert t.Edge(p, w[|w| - 1]) in k.enq;
      var i :| 0 <= i < |k.queue| && k.queue[i] == u;
    }
  }

  /** Distinct non-zero values below a bound cannot outnumber it. */
  lemma {:induction false} DistinctBelow(q: seq<nat>, n: nat)
    requires n > 0 && forall i :: 0 <= i < |q| ==> 0 < q[i] < n
    requires forall i, j :: 0 <= i < j < |q| ==> q[i] != q[j]
    ensures |q| < n
    decreases n
  {
    if n - 1 in q {
      var k :| 0 <= k < |q| && q[k] == n - 1;
      DistinctBelow(q[..k] + q[k + 1..], n - 1);
    } else if q != [] {
      assert q[0] < n - 1;
      DistinctBelow(q, n - 1);
    }
  }
}
