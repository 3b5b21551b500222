/** The intrusive circular doubly linked list: every operation on the pointers
    is the matching operation on the sequence of its nodes. */
module NodeList {
  class Node {
    var prev: Node?
    var next: Node?

    /** A node starts out cleared. */
    constructor ()
      ensures Cleared(this)
    {
      new;
      ListClearNode(this);
    }
  }

  ghost predicate Cleared(n: Node)
    reads n
  {
    n.prev == null && n.next == null
  }

  function After(i: nat, n: nat): nat
    requires i < n
  {
    if i + 1 == n then 0 else i + 1
  }

  ghost predicate Distinct(r: seq<Node>) {
    forall i, j | 0 <= i < j < |r| :: r[i] != r[j]
  }

  /** The nodes of `r`, the head first, are linked into a circle both ways. */
  ghost predicate Ring(r: seq<Node>)
    reads r
  {
    && |r| > 0 && Distinct(r)
    && forall i | 0 <= i < |r| :: r[i].next == r[After(i, |r|)] && r[After(i, |r|)].prev == r[i]
  }

  // ---- list.h -------------------------------------------------------------

  method ListInitialize(list: Node)
    modifies list
    ensures Ring([list])
  {
    list.prev, list.next := list, list;
  }

  method ListClearNode(item: Node)
    modifies item
    ensures Cleared(item)
  {
    item.prev, item.next := null, null;
  }

  /** The same circle, from its `k`th node on. */
  ghost function From(r: seq<Node>, k: nat): seq<Node>
    requires k <= |r|
  {
    r[k..] + r[..k]
  }

  lemma Turn(r: seq<Node>, k: nat)
    requires Ring(r) && k <= |r|
    ensures Ring(From(r, k)) && (forall n :: n in From(r, k) <==> n in r)
  {
    var t := From(r, k);
    assert forall i | 0 <= i < |r| :: t[i] == if i < |r| - k then r[i + k] else r[i + k - |r|];
    assert r == r[..k] + r[k..];
  }

  lemma Ends(r: seq<Node>)
    requires Ring(r)
    ensures |r| > 0 && r[0].prev == r[|r| - 1] && r[|r| - 1].next == r[0]
  {
    assert r[After(|r| - 1, |r|)].prev == r[|r| - 1];
  }

  /** The pointers that put `item` between the last node of a ring and its head. */
  method Link(last: Node, head: Node, item: Node, ghost r: seq<Node>)
    requires Ring(r) && r[0] == head && r[|r| - 1] == last && item !in r
    modifies last`next, head`prev, item
    ensures Ring(r + [item])
  {
    item.prev, item.next := last, head;
    head.prev := item;
    last.next := item;
    ghost var r' := r + [item];
    forall i | 0 <= i < |r'| ensures r'[i].next == r'[After(i, |r'|)] && r'[After(i, |r'|)].prev == r'[i] {
      assert i + 1 < |r| ==> After(i, |r|) == i + 1;
    }
  }

  /** The ring with `item` put before its `k`th node; before the head is at the end. */
  ghost function InsertedBefore(r: seq<Node>, k: nat, item: Node): seq<Node>
    requires k < |r|
  {
    if k == 0 then r + [item] else r[..k] + [item] + r[k..]
  }

  /** list_add_tail, which list_add_before is another name of: `item` goes before `entry`. */
  method ListAddTail(entry: Node, item: Node, ghost r: seq<Node>, ghost k: nat)
    requires Ring(r) && k < |r| && r[k] == entry && item !in r
    modifies r, item
    ensures Ring(InsertedBefore(r, k, item))
  {
    Turn(r, k);
    ghost var t := From(r, k);
    Ends(t);
    hide Ring;
    Link(entry.prev, entry, item, t);
    Turn(t + [item], |r| - k);
    assert k > 0 ==> From(t + [item], |r| - k) == InsertedBefore(r, k, item);
    assert k == 0 ==> t == r;
  }

  /** The ring with `item` put after its `k`th node. */
  ghost function InsertedAfter(r: seq<Node>, k: nat, item: Node): seq<Node>
    requires k < |r|
  {
    r[..k + 1] + [item] + r[k + 1..]
  }

  /** list_add_head, which list_add_after is another name of: `item` goes after `entry`. */
  method ListAddHead(entry: Node, item: Node, ghost r: seq<Node>, ghost k: nat)
    requires Ring(r) && k < |r| && r[k] == entry && item !in r
    modifies r, item
    ensures Ring(InsertedAfter(r, k, item))
  {
    Turn(r, k + 1);
    ghost var t := From(r, k + 1);
    Ends(t);
    hide Ring;
    Link(entry, entry.next, item, t);
    Turn(t + [item], |r| - (k + 1));
    assert From(t + [item], |r| - (k + 1)) == InsertedAfter(r, k, item);
  }

  /** The ring without its `k`th node. */
  ghost function Without(r: seq<Node>, k: nat): seq<Node>
    requires k < |r|
  {
    r[..k] + r[k + 1..]
  }

  /** list_delete of a node other than the head. */
  method ListDelete(item: Node, ghost r: seq<Node>, ghost k: nat)
    requires Ring(r) && 0 < k < |r| && r[k] == item
    modifies r
    ensures Ring(Without(r, k)) && Cleared(item)
  {
    Turn(r, k + 1);
    ghost var t := From(r, k + 1);
    Unlink(item, t);
    ghost var rest := t[..|t| - 1];
    Turn(rest, |r| - (k + 1));
    assert From(rest, |r| - (k + 1)) == Without(r, k);
  }

  /** The pointers around the last node of a ring are joined without it. */
  method Unlink(item: Node, ghost r: seq<Node>)
    requires Ring(r) && |r| > 1 && r[|r| - 1] == item
    modifies r
    ensures Ring(r[..|r| - 1]) && Cleared(item)
  {
    ghost var n := |r|;
    assert item.next == r[0] && r[n - 2].next == item && item.prev == r[n - 2] by {
      assert r[n - 2].next == r[After(n - 2, n)] && r[After(n - 2, n)].prev == r[n - 2];
      assert r[n - 1].next == r[After(n - 1, n)];
    }
    item.next.prev := item.prev;
    item.prev.next := item.next;
    item.prev, item.next := null, null;
    ghost var r' := r[..n - 1];
    forall i | 0 <= i < |r'| ensures r'[i].next == r'[After(i, |r'|)] && r'[After(i, |r'|)].prev == r'[i] {
      assert i + 1 < n - 1 ==> After(i, n) == i + 1;
    }
  }

  method ListRemoveHead(list: Node, ghost r: seq<Node>) returns (item: Node?)
    requires Ring(r) && r[0] == list
    modifies r
    ensures |r| == 1 ==> item == null && Ring(r)
    ensures |r| > 1 ==> item == r[1] && Cleared(r[1]) && Ring(Without(r, 1))
  {
    assert list.next == r[After(0, |r|)];
    if list.next != list {
      item := list.next;
      ListDelete(item, r, 1);
    } else {
      item := null;
    }
  }

  method ListRemoveTail(list: Node, ghost r: seq<Node>) returns (item: Node?)
    requires Ring(r) && r[0] == list
    modifies r
    ensures |r| == 1 ==> item == null && Ring(r)
    ensures |r| > 1 ==> item == r[|r| - 1] && Cleared(r[|r| - 1]) && Ring(Without(r, |r| - 1))
  {
    assert r[After(|r| - 1, |r|)].prev == r[|r| - 1];
    if list.prev != list {
      item := list.prev;
      ListDelete(item, r, |r| - 1);
    } else {
      item := null;
    }
  }

  method ListPeekHead(list: Node, ghost r: seq<Node>) returns (item: Node?)
    requires Ring(r) && r[0] == list
    ensures item == if |r| > 1 then r[1] else null
  {
    assert list.next == r[After(0, |r|)];
    if list.next != list {
      item := list.next;
    } else {
      item := null;
    }
  }

  method ListIsEmpty(list: Node, ghost r: seq<Node>) returns (empty: bool)
    requires Ring(r) && r[0] == list
    ensures empty == (|r| == 1)
  {
    assert list.next == r[After(0, |r|)];
    empty := list.next == list;
  }

  // ---- membership ---------------------------------------------------------

  /** The rings are made of `nodes` and share none, and a node that is in no ring is cleared. */
  ghost predicate Tidy(nodes: set<Node>, rings: seq<seq<Node>>)
    reads nodes
  {
    && (forall k, n | 0 <= k < |rings| && n in rings[k] :: n in nodes)
    && (forall k | 0 <= k < |rings| :: Ring(rings[k]))
    && (forall j, k, n | 0 <= j < k < |rings| && n in rings[j] :: n !in rings[k])
    && (forall n | n in nodes && !InSome(rings, n) :: Cleared(n))
  }

  ghost predicate InSome(rings: seq<seq<Node>>, n: Node) {
    exists k | 0 <= k < |rings| :: n in rings[k]
  }

  lemma RingMember(r: seq<Node>, n: Node)
    requires Ring(r) && n in r
    ensures n.next != null
  {
    var i :| 0 <= i < |r| && r[i] == n;
    assert r[i].next == r[After(i, |r|)];
  }

  /** list_in_list tells whether a node is in some list, for nodes cleared at their creation. */
  method ListInList(item: Node, ghost nodes: set<Node>, ghost rings: seq<seq<Node>>) returns (yes: bool)
    requires Tidy(nodes, rings) && item in nodes
    ensures yes == InSome(rings, item)
  {
    if InSome(rings, item) {
      ghost var k :| 0 <= k < |rings| && item in rings[k];
      RingMember(rings[k], item);
    }
    if item.prev == null && item.next == null {
      yes := false;
    } else {
      yes := true;
    }
  }

  lemma InsertedMembers(r: seq<Node>, k: nat, item: Node)
    requires k < |r|
    ensures forall n :: n in InsertedBefore(r, k, item) <==> n == item || n in r
  {
    assert r == r[..k] + r[k..];
  }

  lemma WithoutMembers(r: seq<Node>, k: nat)
    requires k < |r| && Distinct(r)
    ensures forall n :: n in Without(r, k) <==> n != r[k] && n in r
  {
    assert r == r[..k] + [r[k]] + r[k + 1..];
  }

  /** Adding a cleared node to one of the lists keeps all of them tidy. */
  method AddBefore(entry: Node, item: Node, ghost nodes: set<Node>, ghost rings: seq<seq<Node>>, ghost j: nat,
                   ghost r: seq<Node>, ghost k: nat)
    requires Tidy(nodes, rings) && j < |rings| && r == rings[j] && k < |r| && r[k] == entry
    requires item in nodes && !InSome(rings, item)
    modifies r, item
    ensures Tidy(nodes, rings[j := InsertedBefore(r, k, item)])
  {
    hide Ring, InsertedBefore, Cleared;
    ListAddTail(entry, item, r, k);
    forall i | 0 <= i < |rings| && i != j ensures Ring(rings[i]) {
      ghost var o := rings[i];
      forall m | 0 <= m < |o| ensures o[m].prev == old(o[m].prev) && o[m].next == old(o[m].next) {
        assert o[m] in rings[i];
      }
      RingKept(o);
    }
    assert forall n | n in nodes && n != item && !InSome(rings, n) :: Cleared(n);
    InsertedMembers(r, k, item);
    TidyReplaced(nodes, rings, j, InsertedBefore(r, k, item), item);
  }

  lemma InsertedAfterMembers(r: seq<Node>, k: nat, item: Node)
    requires k < |r|
    ensures forall n :: n in InsertedAfter(r, k, item) <==> n == item || n in r
  {
    assert r == r[..k + 1] + r[k + 1..];
  }

  method AddAfter(entry: Node, item: Node, ghost nodes: set<Node>, ghost rings: seq<seq<Node>>, ghost j: nat,
                  ghost r: seq<Node>, ghost k: nat)
    requires Tidy(nodes, rings) && j < |rings| && r == rings[j] && k < |r| && r[k] == entry
    requires item in nodes && !InSome(rings, item)
    modifies r, item
    ensures Tidy(nodes, rings[j := InsertedAfter(r, k, item)])
  {
    hide Ring, InsertedAfter, Cleared;
    ListAddHead(entry, item, r, k);
    forall i | 0 <= i < |rings| && i != j ensures Ring(rings[i]) {
      ghost var o := rings[i];
      forall m | 0 <= m < |o| ensures o[m].prev == old(o[m].prev) && o[m].next == old(o[m].next) {
        assert o[m] in rings[i];
      }
      RingKept(o);
    }
    assert forall n | n in nodes && n != item && !InSome(rings, n) :: Cleared(n);
    InsertedAfterMembers(r, k, item);
    TidyReplaced(nodes, rings, j, InsertedAfter(r, k, item), item);
  }

  /** Deleting a node from its list keeps all of them tidy, and leaves it in none. */
  method DeleteFrom(item: Node, ghost nodes: set<Node>, ghost rings: seq<seq<Node>>, ghost j: nat,
                    ghost r: seq<Node>, ghost k: nat)
    requires Tidy(nodes, rings) && j < |rings| && r == rings[j] && 0 < k < |r| && r[k] == item && item in nodes
    modifies r
    ensures Tidy(nodes, rings[j := Without(r, k)]) && Cleared(item)
  {
    hide Ring, Without, Cleared;
    NonEmpty(r);
    ListDelete(item, r, k);
    forall i | 0 <= i < |rings| && i != j ensures Ring(rings[i]) {
      ghost var o := rings[i];
      forall m | 0 <= m < |o| ensures o[m].prev == old(o[m].prev) && o[m].next == old(o[m].next) {
        assert o[m] in rings[i];
      }
      RingKept(o);
    }
    WithoutMembers(r, k);
    TidyReplaced(nodes, rings, j, Without(r, k), item);
  }

  lemma TidyReplaced(nodes: set<Node>, rings: seq<seq<Node>>, j: nat, r: seq<Node>, item: Node)
    requires j < |rings| && Ring(r) && item in nodes
    requires forall k, n | 0 <= k < |rings| && n in rings[k] :: n in nodes
    requires forall i, k, n | 0 <= i < k < |rings| && n in rings[i] :: n !in rings[k]
    requires forall k | 0 <= k < |rings| && k != j :: Ring(rings[k])
    requires forall n | n in nodes && n != item && !InSome(rings, n) :: Cleared(n)
    requires item in r || Cleared(item)
    requires forall n | n != item :: n in r <==> n in rings[j]
    requires item in r ==> forall k | 0 <= k < |rings| && k != j :: item !in rings[k]
    ensures Tidy(nodes, rings[j := r])
  {
    hide Ring, Cleared;
    var rings' := rings[j := r];
    forall n | n in nodes && !InSome(rings', n) ensures Cleared(n) {
      assert forall k | 0 <= k < |rings'| :: n !in rings'[k];
      if n != item {
        forall k | 0 <= k < |rings| ensures n !in rings[k] {
          assert n !in rings'[k];
        }
      } else {
        assert item !in rings'[j];
      }
    }
  }

  /** The step that a wake makes, from a wait queue to the head of a run queue:
      the first node of one list becomes the first of another, and both lists
      are otherwise as they were. */
  method MoveHead(from: Node, to: Node, ghost a: seq<Node>, ghost b: seq<Node>) returns (item: Node?)
    requires Ring(a) && Ring(b) && a[0] == from && b[0] == to
    requires forall n | n in b :: n !in a
    modifies a, b
    ensures |a| == 1 ==> item == null && Ring(a) && Ring(b)
    ensures |a| > 1 ==> item == a[1] && Ring(Without(a, 1)) && Ring(InsertedAfter(b, 0, a[1]))
  {
    NonEmpty(a);
    NonEmpty(b);
    hide Ring;
    item := ListRemoveHead(from, a);
    forall i | 0 <= i < |b| ensures b[i].prev == old(b[i].prev) && b[i].next == old(b[i].next) {
      assert b[i] in b;
    }
    RingKept(b);
    if item != null {
      ghost var rest := Without(a, 1);
      RestIsOutside(a, b);
      label Removed:
      ListAddHead(to, item, b, 0);
      forall i | 0 <= i < |rest|
        ensures rest[i].prev == old@Removed(rest[i].prev) && rest[i].next == old@Removed(rest[i].next)
      {
        assert rest[i] in rest;
      }
      RingKept@Removed(rest);
    }
  }

  /** A ring none of whose nodes was written is still a ring. */
  twostate lemma RingKept(r: seq<Node>)
    requires old(Ring(r))
    requires forall i | 0 <= i < |r| :: r[i].prev == old(r[i].prev) && r[i].next == old(r[i].next)
    ensures Ring(r)
  {
  }

  lemma NonEmpty(r: seq<Node>)
    requires Ring(r)
    ensures |r| > 0 && Distinct(r)
  {
  }

  lemma RestIsOutside(a: seq<Node>, b: seq<Node>)
    requires |a| > 1 && Distinct(a) && forall n | n in b :: n !in a
    ensures forall n | n in Without(a, 1) :: n !in b && n != a[1]
    ensures a[1] !in b
  {
    assert a[1] in a;
  }
}
