/** The balanced binary search tree of 03_BST: what is built, searched, traversed and freed. */
module BalancedTree {
  import Bits

  /** A tree as a value. */
  datatype Tree = Nil | Branch(value: int, left: Tree, right: Tree, leftCount: int, rightCount: int)

  function Size(t: Tree): nat { if t.Nil? then 0 else Size(t.left) + 1 + Size(t.right) }

  function Height(t: Tree): nat {
    if t.Nil? then 0 else 1 + if Height(t.left) > Height(t.right) then Height(t.left) else Height(t.right)
  }

  datatype Order = Pre | Mid | Post

  /** The values in the order of a traversal. */
  function Visits(t: Tree, order: Order): seq<int> {
    if t.Nil? then [] else
      var (l, r) := (Visits(t.left, order), Visits(t.right, order));
      match order
      case Pre => [t.value] + l + r
      case Mid => l + [t.value] + r
      case Post => l + r + [t.value]
  }

  /** What `do_initBalanceBST` builds. */
  function Build(s: seq<int>): Tree {
    if s == [] then Nil else
      var mid := |s| / 2;
      Branch(s[mid], Build(s[..mid]), Build(s[mid + 1..]), mid, |s| - mid - 1)
  }

  /** The stored counts are the sizes of the subtrees, and the left one is equal or one more, at every node. */
  predicate Balanced(t: Tree) {
    t.Branch? ==>
      && t.leftCount == Size(t.left) && t.rightCount == Size(t.right)
      && 0 <= t.leftCount - t.rightCount <= 1
      && Balanced(t.left) && Balanced(t.right)
  }

  lemma {:induction false} BuildBalances(s: seq<int>)
    ensures Size(Build(s)) == |s| && Balanced(Build(s))
  {
    if s != [] {
      BuildBalances(s[..|s| / 2]);
      BuildBalances(s[|s| / 2 + 1..]);
    }
  }

  lemma AroundMiddle(s: seq<int>, mid: nat)
    requires mid < |s|
    ensures s[..mid] + [s[mid]] + s[mid + 1..] == s
  {}

  lemma {:induction false} BuildKeepsOrder(s: seq<int>)
    ensures Visits(Build(s), Mid) == s
  {
    if s != [] {
      var mid := |s| / 2;
      BuildKeepsOrder(s[..mid]);
      BuildKeepsOrder(s[mid + 1..]);
      AroundMiddle(s, mid);
    }
  }

  /** Of two subtrees of equal size or with one node more on the left, the right one is not higher. */
  lemma RightNotHigher(l: nat, r: nat, hl: nat, hr: nat)
    requires r <= l < Bits.Pow2(hl) && 0 < hr && Bits.Pow2(hr - 1) <= r
    ensures hr <= hl
  {
    if hl < hr {
      Pow2Grows(hl, hr - 1);
    }
  }

  /** Every balanced tree has the least height that its size allows. */
  lemma {:induction false} BalancedHeight(t: Tree)
    requires Balanced(t) && t.Branch?
    ensures Bits.Pow2(Height(t) - 1) <= Size(t) < Bits.Pow2(Height(t))
  {
    if t.left.Nil? {
      assert Bits.Pow2(1) == 2;
    } else {
      BalancedHeight(t.left);
      if t.right.Branch? {
        BalancedHeight(t.right);
        RightNotHigher(Size(t.left), Size(t.right), Height(t.left), Height(t.right));
      }
      assert Height(t) == 1 + Height(t.left);
    }
  }

  lemma {:induction false} Pow2Grows(a: nat, b: nat)
    requires a <= b
    ensures Bits.Pow2(a) <= Bits.Pow2(b)
  {
    if a < b {
      Pow2Grows(a, b - 1);
    }
  }

  // ----- The three orders -----

  function Mirror(t: Tree): Tree {
    if t.Nil? then Nil else Branch(t.value, Mirror(t.right), Mirror(t.left), t.rightCount, t.leftCount)
  }

  function Reverse(s: seq<int>): seq<int> { if s == [] then [] else Reverse(s[1..]) + [s[0]] }

  lemma {:induction false} ReverseJoin(a: seq<int>, b: seq<int>)
    ensures Reverse(a + b) == Reverse(b) + Reverse(a)
  {
    if a == [] {
      assert a + b == b;
    } else {
      assert (a + b)[1..] == a[1..] + b;
      ReverseJoin(a[1..], b);
    }
  }

  lemma Reverse3(a: seq<int>, b: seq<int>, c: seq<int>)
    ensures Reverse(a + b + c) == Reverse(c) + Reverse(b) + Reverse(a)
  {
    ReverseJoin(a + b, c);
    ReverseJoin(a, b);
  }

  /** Seen in a mirror, a traversal runs backwards, and visits a node after its subtrees instead of before them. */
  lemma {:induction false} MirrorReverses(t: Tree)
    ensures Visits(Mirror(t), Post) == Reverse(Visits(t, Pre))
    ensures Visits(Mirror(t), Mid) == Reverse(Visits(t, Mid))
  {
    if t.Branch? {
      MirrorReverses(t.left);
      MirrorReverses(t.right);
      assert Reverse([t.value]) == [t.value];
      Reverse3([t.value], Visits(t.left, Pre), Visits(t.right, Pre));
      Reverse3(Visits(t.left, Mid), [t.value], Visits(t.right, Mid));
    }
  }

  // ----- Building a search tree again from a traversal -----

  /** Inserts a value where the search for it ends; the counts are left out. */
  function Insert(t: Tree, value: int): Tree {
    if t.Nil? then Branch(value, Nil, Nil, 0, 0)
    else if t.value == value then t
    else if value > t.value then t.(right := Insert(t.right, value))
    else t.(left := Insert(t.left, value))
  }

  function InsertAll(t: Tree, values: seq<int>): Tree
    decreases |values|
  {
    if values == [] then t else InsertAll(Insert(t, values[0]), values[1..])
  }

  /** The values and the shape of a tree, without the counts. */
  function Plain(t: Tree): Tree { if t.Nil? then Nil else Branch(t.value, Plain(t.left), Plain(t.right), 0, 0) }

  predicate Ascending(s: seq<int>) { forall i, j :: 0 <= i < j < |s| ==> s[i] < s[j] }

  lemma AscendingParts(l: seq<int>, x: int, r: seq<int>)
    requires Ascending(l + [x] + r)
    ensures Ascending(l) && Ascending(r) && forall v :: (v in l ==> v < x) && (v in r ==> x < v)
  {
    var s := l + [x] + r;
    assert s[|l|] == x;
    assert forall i :: 0 <= i < |l| ==> l[i] == s[i];
    assert forall i :: 0 <= i < |r| ==> r[i] == s[|l| + 1 + i];
  }

  lemma {:induction false} InsertJoin(t: Tree, a: seq<int>, b: seq<int>)
    ensures InsertAll(t, a + b) == InsertAll(InsertAll(t, a), b)
    decreases |a|
  {
    if a == [] {
      assert a + b == b;
    } else {
      assert (a + b)[1..] == a[1..] + b;
      InsertJoin(Insert(t, a[0]), a[1..], b);
    }
  }

  lemma {:induction false} InsertLeft(t: Tree, values: seq<int>)
    requires t.Branch? && forall v :: v in values ==> v < t.value
    ensures InsertAll(t, values) == t.(left := InsertAll(t.left, values))
    decreases |values|
  {
    if values != [] {
      assert values[0] in values && forall v :: v in values[1..] ==> v in values;
      InsertLeft(Insert(t, values[0]), values[1..]);
    }
  }

  lemma {:induction false} InsertRight(t: Tree, values: seq<int>)
    requires t.Branch? && forall v :: v in values ==> t.value < v
    ensures InsertAll(t, values) == t.(right := InsertAll(t.right, values))
    decreases |values|
  {
    if values != [] {
      assert values[0] in values && forall v :: v in values[1..] ==> v in values;
      InsertRight(Insert(t, values[0]), values[1..]);
    }
  }

  lemma SameMembers(t: Tree, order: Order)
    ensures forall v :: v in Visits(t, order) <==> v in Visits(t, Mid)
  {
    SameVisits(t, order);
    assert forall v :: v in Visits(t, order) <==> v in multiset(Visits(t, order));
    assert forall v :: v in Visits(t, Mid) <==> v in multiset(Visits(t, Mid));
  }

  /** Inserting the root first, and then the values of each side in an order that rebuilds it, rebuilds the tree. */
  lemma RootFirst(t: Tree, l: seq<int>, r: seq<int>)
    requires t.Branch? && Ascending(Visits(t, Mid))
    requires InsertAll(Nil, l) == Plain(t.left) && InsertAll(Nil, r) == Plain(t.right)
    requires forall v :: (v in l <==> v in Visits(t.left, Mid)) && (v in r <==> v in Visits(t.right, Mid))
    ensures InsertAll(Nil, [t.value] + l + r) == Plain(t) == InsertAll(Nil, [t.value] + r + l)
  {
    var root := Branch(t.value, Nil, Nil, 0, 0);
    AscendingParts(Visits(t.left, Mid), t.value, Visits(t.right, Mid));
    assert ([t.value] + l + r)[1..] == l + r && ([t.value] + r + l)[1..] == r + l;
    assert InsertAll(Nil, [t.value] + l + r) == InsertAll(root, l + r);
    InsertJoin(root, l, r);
    InsertLeft(root, l);
    InsertRight(root.(left := Plain(t.left)), r);
    assert InsertAll(Nil, [t.value] + r + l) == InsertAll(root, r + l);
    InsertJoin(root, r, l);
    InsertRight(root, r);
    InsertLeft(root.(right := Plain(t.right)), l);
  }

  /** A search tree is rebuilt by inserting its values in pre-order, one by one. */
  lemma {:induction false} PreOrderRebuilds(t: Tree)
    requires Ascending(Visits(t, Mid))
    ensures InsertAll(Nil, Visits(t, Pre)) == Plain(t)
  {
    if t.Branch? {
      AscendingParts(Visits(t.left, Mid), t.value, Visits(t.right, Mid));
      PreOrderRebuilds(t.left);
      PreOrderRebuilds(t.right);
      SameMembers(t.left, Pre);
      SameMembers(t.right, Pre);
      RootFirst(t, Visits(t.left, Pre), Visits(t.right, Pre));
    }
  }

  lemma {:induction false} ReverseMembers(s: seq<int>)
    ensures forall v :: v in Reverse(s) <==> v in s
  {
    if s != [] {
      ReverseMembers(s[1..]);
      assert s == [s[0]] + s[1..];
    }
  }

  /** And by inserting them in post-order, from the last to the first. */
  lemma {:induction false} PostOrderRebuilds(t: Tree)
    requires Ascending(Visits(t, Mid))
    ensures InsertAll(Nil, Reverse(Visits(t, Post))) == Plain(t)
  {
    if t.Branch? {
      var (l, r) := (Visits(t.left, Post), Visits(t.right, Post));
      AscendingParts(Visits(t.left, Mid), t.value, Visits(t.right, Mid));
      PostOrderRebuilds(t.left);
      PostOrderRebuilds(t.right);
      SameMembers(t.left, Post);
      SameMembers(t.right, Post);
      ReverseMembers(l);
      ReverseMembers(r);
      assert Reverse([t.value]) == [t.value];
      Reverse3(l, r, [t.value]);
      RootFirst(t, Reverse(l), Reverse(r));
    }
  }

  /** A root before, or after, two parts. */
  predicate RootThenParts(visits: seq<int>, x: int, l: multiset<int>, r: multiset<int>, n: nat) {
    && n < |visits| && visits[0] == x
    && multiset(visits[1..n + 1]) == l && multiset(visits[n + 1..]) == r
  }

  predicate PartsThenRoot(visits: seq<int>, x: int, l: multiset<int>, r: multiset<int>, n: nat) {
    && n < |visits| && visits[|visits| - 1] == x
    && multiset(visits[..n]) == l && multiset(visits[n..|visits| - 1]) == r
  }

  lemma Slices(x: int, l: seq<int>, r: seq<int>)
    ensures RootThenParts([x] + l + r, x, multiset(l), multiset(r), |l|)
    ensures PartsThenRoot(l + r + [x], x, multiset(l), multiset(r), |l|)
  {
    assert ([x] + l + r)[1..|l| + 1] == l && ([x] + l + r)[|l| + 1..] == r;
    var post := l + r + [x];
    assert post[..|l|] == l && post[|l|..|post| - 1] == r;
  }

  lemma BuiltVisits(s: seq<int>, order: Order)
    ensures multiset(Visits(Build(s), order)) == multiset(s) && |Visits(Build(s), order)| == |s|
  {
    BuildKeepsOrder(s);
    SameVisits(Build(s), order);
    assert |Visits(Build(s), order)| == |multiset(Visits(Build(s), order))| == |multiset(s)| == |s|;
  }

  /** In the built tree, with duplicates or not, the middle of the input is visited first in pre-order and last in
      post-order, and in both the lower half is visited before the upper half. */
  lemma MiddleFirstOrLast(s: seq<int>)
    requires s != []
    ensures
      var (mid, t) := (|s| / 2, Build(s));
      && RootThenParts(Visits(t, Pre), s[mid], multiset(s[..mid]), multiset(s[mid + 1..]), mid)
      && PartsThenRoot(Visits(t, Post), s[mid], multiset(s[..mid]), multiset(s[mid + 1..]), mid)
  {
    MiddleFirst(s, |s| / 2);
    MiddleLast(s, |s| / 2);
  }

  lemma BuiltInParts(s: seq<int>, mid: nat)
    requires s != [] && mid == |s| / 2
    ensures
      var (l, r) := (Build(s[..mid]), Build(s[mid + 1..]));
      && Visits(Build(s), Pre) == [s[mid]] + Visits(l, Pre) + Visits(r, Pre)
      && Visits(Build(s), Post) == Visits(l, Post) + Visits(r, Post) + [s[mid]]
  {}

  lemma MiddleFirst(s: seq<int>, mid: nat)
    requires s != [] && mid == |s| / 2
    ensures RootThenParts(Visits(Build(s), Pre), s[mid], multiset(s[..mid]), multiset(s[mid + 1..]), mid)
  {
    BuiltInParts(s, mid);
    BuiltVisits(s[..mid], Pre);
    BuiltVisits(s[mid + 1..], Pre);
    Slices(s[mid], Visits(Build(s[..mid]), Pre), Visits(Build(s[mid + 1..]), Pre));
  }

  lemma MiddleLast(s: seq<int>, mid: nat)
    requires s != [] && mid == |s| / 2
    ensures PartsThenRoot(Visits(Build(s), Post), s[mid], multiset(s[..mid]), multiset(s[mid + 1..]), mid)
  {
    BuiltInParts(s, mid);
    BuiltVisits(s[..mid], Post);
    BuiltVisits(s[mid + 1..], Post);
    Slices(s[mid], Visits(Build(s[..mid]), Post), Visits(Build(s[mid + 1..]), Post));
  }

  /** Every order visits the same values. */
  lemma {:induction false} SameVisits(t: Tree, order: Order)
    ensures multiset(Visits(t, order)) == multiset(Visits(t, Mid))
  {
    if t.Branch? {
      SameVisits(t.left, order);
      SameVisits(t.right, order);
    }
  }

  // ----- Sorting -----

  predicate Sorted(s: seq<int>) { forall i, j :: 0 <= i < j < |s| ==> s[i] <= s[j] }

  ghost predicate IsSortOf(s: seq<int>, sorted: seq<int>) { Sorted(sorted) && multiset(sorted) == multiset(s) }

  lemma SortKeepsLength(s: seq<int>, sorted: seq<int>)
    requires IsSortOf(s, sorted)
    ensures |sorted| == |s|
  {
    assert |sorted| == |multiset(sorted)| == |multiset(s)| == |s|;
  }

  lemma LeastFirst(a: seq<int>, b: seq<int>)
    requires Sorted(a) && Sorted(b) && multiset(a) == multiset(b) && a != []
    ensures b != [] && a[0] == b[0]
  {
    assert a[0] in multiset(b);
    assert b[0] in multiset(a);
  }

  lemma RestOf(a: seq<int>)
    requires a != []
    ensures multiset(a[1..]) == multiset(a) - multiset{a[0]}
  {
    assert a == [a[0]] + a[1..];
  }

  /** The order of equal integers cannot be observed: the result of sorting is unique. */
  lemma {:induction false} SortIsUnique(a: seq<int>, b: seq<int>)
    requires Sorted(a) && Sorted(b) && multiset(a) == multiset(b)
    ensures a == b
  {
    if a == [] {
      assert |multiset(b)| == 0;
    } else {
      LeastFirst(a, b);
      RestOf(a);
      RestOf(b);
      SortIsUnique(a[1..], b[1..]);
      assert a == [a[0]] + a[1..] && b == [b[0]] + b[1..];
    }
  }

  // ----- Searching -----

  /** `do_search`: the subtree that is found, and the number of nodes that are looked at. */
  function Search(t: Tree, value: int): (Tree, nat) {
    if t.Nil? then (Nil, 0)
    else if t.value == value then (t, 1)
    else
      var (found, probes) := Search(if value > t.value then t.right else t.left, value);
      (found, probes + 1)
  }

  lemma SortedParts(l: seq<int>, x: int, r: seq<int>)
    requires Sorted(l + [x] + r)
    ensures Sorted(l) && Sorted(r)
    ensures forall v :: (v in l ==> v <= x) && (v in r ==> x <= v)
    ensures x in l + [x] + r
  {
    var s := l + [x] + r;
    assert s[|l|] == x;
    assert forall i :: 0 <= i < |l| ==> l[i] == s[i];
    assert forall i :: 0 <= i < |r| ==> r[i] == s[|l| + 1 + i];
  }

  lemma {:induction false} SearchFinds(t: Tree, value: int)
    requires Sorted(Visits(t, Mid))
    ensures
      var (found, probes) := Search(t, value);
      && (found.Branch? <==> value in Visits(t, Mid))
      && (found.Branch? ==> found.value == value)
      && probes <= Height(t)
  {
    if t.Branch? {
      SortedParts(Visits(t.left, Mid), t.value, Visits(t.right, Mid));
      if value > t.value {
        SearchFinds(t.right, value);
      } else if value < t.value {
        SearchFinds(t.left, value);
      }
    }
  }

  // ----- Nodes -----

  class Node {
    var value: int
    var left: Node?
    var right: Node?
    var leftCount: int
    var rightCount: int
    ghost var repr: set<Node>  // the nodes of the subtree

    ghost predicate Valid()
      reads this, repr
      decreases repr
    {
      && this in repr
      && (left != null ==> left in repr && left.repr <= repr - {this} && left.Valid())
      && (right != null ==> right in repr && right.repr <= repr - {this} && right.Valid())
      && (left != null && right != null ==> left.repr !! right.repr)
      && repr == {this} + Nodes(left) + Nodes(right)
    }

    constructor (value: int)
      ensures this.value == value && left == null && right == null
    {
      this.value, left, right, leftCount, rightCount := value, null, null, 0, 0;
    }
  }

  ghost function Nodes(node: Node?): set<Node>
    reads node
  {
    if node == null then {} else node.repr
  }

  ghost predicate ValidOrNull(node: Node?)
    reads node, Nodes(node)
  {
    node != null ==> node.Valid()
  }

  ghost function TreeOf(node: Node?): Tree
    requires ValidOrNull(node)
    reads node, Nodes(node)
    decreases Nodes(node)
  {
    if node == null then Nil
    else Branch(node.value, TreeOf(node.left), TreeOf(node.right), node.leftCount, node.rightCount)
  }

  /** `do_initBalanceBST`; a child is left null when its side is empty. */
  method InitBalanceBST(container: seq<int>) returns (node: Node)
    requires container != []
    ensures node.Valid() && fresh(node.repr) && TreeOf(node) == Build(container)
    decreases |container|, 0
  {
    var mid := |container| / 2;
    node := new Node(container[mid]);
    node.leftCount := mid;
    node.rightCount := |container| - mid - 1;
    InitChildren(node, container[..mid], container[mid + 1..]);
  }

  method InitChildren(node: Node, before: seq<int>, after: seq<int>)
    modifies node
    ensures node.Valid() && fresh(node.repr - {node})
    ensures TreeOf(node) ==
            Branch(old(node.value), Build(before), Build(after), old(node.leftCount), old(node.rightCount))
    decreases |before| + |after|, 2
  {
    var left := InitSide(before);
    var right := InitSide(after);
    assert Nodes(left) !! Nodes(right) && ValidOrNull(left);
    assert TreeOf(left) == Build(before);
    Attach(node, left, right);
  }

  method InitSide(side: seq<int>) returns (child: Node?)
    ensures ValidOrNull(child) && fresh(Nodes(child)) && TreeOf(child) == Build(side)
    decreases |side|, 1
  {
    child := null;
    if 0 < |side| {
      child := InitBalanceBST(side);
    }
  }

  /** `node->left = left; node->right = right;` */
  method Attach(node: Node, left: Node?, right: Node?)
    requires ValidOrNull(left) && ValidOrNull(right) && Nodes(left) !! Nodes(right)
    requires node !in Nodes(left) && node !in Nodes(right)
    modifies node
    ensures node.Valid() && node.repr == {node} + Nodes(left) + Nodes(right)
    ensures TreeOf(node) ==
            Branch(old(node.value), old(TreeOf(left)), old(TreeOf(right)), old(node.leftCount), old(node.rightCount))
  {
    node.left := left;
    node.right := right;
    node.repr := {node} + Nodes(left) + Nodes(right);
  }

  /** `do_search` */
  function DoSearch(value: int, node: Node?): (found: Node?)
    requires ValidOrNull(node)
    reads node, Nodes(node)
    decreases Nodes(node)
  {
    if node == null || node.value == value then node
    else if value > node.value then DoSearch(value, node.right)
    else DoSearch(value, node.left)
  }

  /** It finds the subtree that the search on values finds. */
  lemma {:induction false} DoSearchFinds(value: int, node: Node?)
    requires ValidOrNull(node)
    ensures var found := DoSearch(value, node);
      && (found != null ==> found in Nodes(node) && found.Valid())
      && TreeOf(found) == Search(TreeOf(node), value).0
    decreases Nodes(node)
  {
    if node != null && node.value != value {
      DoSearchFinds(value, if value > node.value then node.right else node.left);
    }
  }

  /** `do_traverse`; `visited` lists the calls of the functor. */
  method DoTraverse(node: Node?, order: Order) returns (visited: seq<int>)
    requires ValidOrNull(node)
    ensures visited == Visits(TreeOf(node), order)
    decreases Nodes(node)
  {
    if node == null {
      return [];
    }
    match order {
      case Pre =>
        var l := DoTraverse(node.left, Pre);
        var r := DoTraverse(node.right, Pre);
        visited := [node.value] + l + r;
      case Mid =>
        var l := DoTraverse(node.left, Mid);
        var r := DoTraverse(node.right, Mid);
        visited := l + [node.value] + r;
      case Post =>
        var l := DoTraverse(node.left, Post);
        var r := DoTraverse(node.right, Post);
        visited := l + r + [node.value];
    }
  }

  lemma DisjointParts<T>(a: set<T>, b: set<T>, x: T)
    requires a !! b && x !in a && x !in b
    ensures multiset({x} + a + b) == multiset(a) + multiset(b) + multiset{x}
  {}

  /** A node is freed after its whole subtree, so that no freed node is looked at. */
  ghost predicate BottomUp(freed: seq<Node>)
    reads set n | n in freed
  {
    forall i, n :: 0 <= i < |freed| && n in freed[i].repr ==> n in freed[..i + 1]
  }

  lemma BottomUpJoin(l: seq<Node>, r: seq<Node>, node: Node)
    requires BottomUp(l) && BottomUp(r) && forall n :: n in node.repr ==> n == node || n in l || n in r
    ensures BottomUp(l + r + [node])
  {
    var s := l + r + [node];
    forall i, n | 0 <= i < |s| && n in s[i].repr
      ensures n in s[..i + 1]
    {
      if i < |l| {
        assert s[..i + 1] == l[..i + 1];
      } else if i < |l| + |r| {
        assert s[..i + 1] == l + r[..i - |l| + 1];
      } else {
        assert s[..i + 1] == s;
      }
    }
  }

  lemma AllFreed(node: Node, l: seq<Node>, r: seq<Node>)
    requires node.Valid()
    requires multiset(l) == multiset(Nodes(node.left)) && multiset(r) == multiset(Nodes(node.right))
    ensures forall n :: n in node.repr ==> n == node || n in l || n in r
  {
    forall n | n in node.repr
      ensures n == node || n in l || n in r
    {
      assert n in Nodes(node.left) ==> n in multiset(l);
      assert n in Nodes(node.right) ==> n in multiset(r);
    }
  }

  /** `do_destroyBalanceBST`; `freed` lists the deleted nodes.  Each node is deleted once. */
  method DestroyBalanceBST(node: Node?) returns (freed: seq<Node>)
    requires ValidOrNull(node)
    ensures multiset(freed) == multiset(Nodes(node)) && BottomUp(freed)
    decreases Nodes(node)
  {
    if node == null {
      return [];
    }
    var l := DestroyBalanceBST(node.left);
    var r := DestroyBalanceBST(node.right);
    freed := l + r + [node];
    DisjointParts(Nodes(node.left), Nodes(node.right), node);
    AllFreed(node, l, r);
    BottomUpJoin(l, r, node);
  }

  /** The constructor of `BST<Node<int>>`, from the result of sorting its argument. */
  method NewBST(container: seq<int>, sorted: seq<int>) returns (root: Node)
    requires container != [] && IsSortOf(container, sorted)
    ensures root.Valid() && fresh(root.repr) && TreeOf(root) == Build(sorted)
  {
    SortKeepsLength(container, sorted);
    root := InitBalanceBST(sorted);
  }

  /** Searching in the built tree, for any input with any duplicates, finds just the input. */
  lemma SearchInBuilt(container: seq<int>, sorted: seq<int>, value: int)
    requires IsSortOf(container, sorted)
    ensures
      var t := Build(sorted);
      var (found, probes) := Search(t, value);
      && (found.Branch? <==> value in container)
      && (found.Branch? ==> found.value == value)
      && probes <= Height(t)
  {
    BuildKeepsOrder(sorted);
    SearchFinds(Build(sorted), value);
    assert value in container <==> value in multiset(container);
    assert value in sorted <==> value in multiset(sorted);
  }

  /** Searching from the root of the built tree: the node that is returned is one of the tree and holds the value; it is
      null exactly when the value is not in the input. */
  lemma SearchFromRoot(container: seq<int>, sorted: seq<int>, root: Node, value: int)
    requires IsSortOf(container, sorted) && root.Valid() && TreeOf(root) == Build(sorted)
    ensures
      var found := DoSearch(value, root);
      && (found != null <==> value in container)
      && (found != null ==> found in root.repr && found.value == value)
  {
    DoSearchFinds(value, root);
    SearchInBuilt(container, sorted, value);
  }

  /** The shape of the built tree. */
  lemma BuiltTree(container: seq<int>, sorted: seq<int>, t: Tree)
    requires container != [] && IsSortOf(container, sorted) && t == Build(sorted)
    ensures IsSortOf(container, Visits(t, Mid))
    ensures Balanced(t) && Size(t) == |container|
    ensures Bits.Pow2(Height(t) - 1) <= |container| < Bits.Pow2(Height(t))
  {
    SortKeepsLength(container, sorted);
    BuildKeepsOrder(sorted);
    BuildBalances(sorted);
    BalancedHeight(t);
  }
}
