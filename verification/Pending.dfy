/**
 * The singly linked pending lists of userspace/vusb_userspace.c and server/vusb_server_urb.c:
 * prepend on submit, unlink on completion. The two sources unlink differently, one through a
 * pointer to the link and one with a trailing `prev` pointer.
 */
module Pending {
  import opened Collections

  datatype Entry<+T> = Entry(id: nat, data: T)

  /** Position of the first entry with the id, |xs| when there is none. */
  function Position<T>(xs: seq<Entry<T>>, id: nat): (r: nat)
    ensures r <= |xs|
    ensures r < |xs| ==> xs[r].id == id
    ensures forall j :: 0 <= j < r ==> xs[j].id != id
  {
    FirstIndex(xs, (e: Entry<T>) => e.id == id)
  }

  /** The list after unlinking the first entry with the id. */
  function Without<T>(xs: seq<Entry<T>>, id: nat): seq<Entry<T>> {
    var k := Position(xs, id);
    if k == |xs| then xs else Remove(xs, k)
  }

  predicate DistinctIds<T>(xs: seq<Entry<T>>) {
    forall i, j :: 0 <= i < j < |xs| ==> xs[i].id != xs[j].id
  }

  /** Ids issued in increasing order and prepended read strictly decreasing from the head. */
  predicate Decreasing<T>(xs: seq<Entry<T>>) {
    forall i, j :: 0 <= i < j < |xs| ==> xs[i].id > xs[j].id
  }

  predicate HasId<T>(xs: seq<Entry<T>>, id: nat) {
    exists i :: 0 <= i < |xs| && xs[i].id == id
  }

  lemma PositionIs<T>(xs: seq<Entry<T>>, id: nat, r: nat)
    requires r <= |xs|
    requires r < |xs| ==> xs[r].id == id
    requires forall j :: 0 <= j < r ==> xs[j].id != id
    ensures Position(xs, id) == r
  {
  }

  /** Keeping only the other ids: an order-preserving reference for removal. */
  function Others<T>(xs: seq<Entry<T>>, id: nat): seq<Entry<T>> {
    if xs == [] then []
    else if xs[0].id == id then Others(xs[1..], id)
    else [xs[0]] + Others(xs[1..], id)
  }

  lemma {:induction false} OthersOfAbsent<T>(xs: seq<Entry<T>>, id: nat)
    requires !HasId(xs, id)
    ensures Others(xs, id) == xs
  {
    if xs != [] {
      assert xs[0].id != id;
      forall i | 0 <= i < |xs[1..]|
        ensures xs[1..][i].id != id
      {
        assert xs[1..][i] == xs[i + 1];
      }
      OthersOfAbsent(xs[1..], id);
    }
  }

  lemma WithoutFirst<T>(xs: seq<Entry<T>>, id: nat)
    requires xs != [] && xs[0].id == id
    ensures Without(xs, id) == xs[1..]
  {
    assert Position(xs, id) == 0;
    assert xs[..0] + xs[1..] == xs[1..];
  }

  lemma WithoutLater<T>(xs: seq<Entry<T>>, id: nat)
    requires xs != [] && xs[0].id != id
    ensures Without(xs, id) == [xs[0]] + Without(xs[1..], id)
  {
    var rest := xs[1..];
    var k := Position(rest, id);
    PositionIs(xs, id, k + 1);
    hide Position;
    if k < |rest| {
      RemoveLater(xs, k);
    } else {
      assert xs == [xs[0]] + rest;
    }
  }

  lemma RemoveLater<T>(xs: seq<T>, k: nat)
    requires k + 1 < |xs|
    ensures Remove(xs, k + 1) == [xs[0]] + Remove(xs[1..], k)
  {
    hide Remove;
  }

  /** On distinct ids, unlinking the first match is the same as filtering the id out. */
  lemma {:induction false} WithoutIsOthers<T>(xs: seq<Entry<T>>, id: nat)
    requires DistinctIds(xs)
    ensures Without(xs, id) == Others(xs, id)
  {
    hide Without;
    if xs == [] {
      assert Without(xs, id) == [] by {
        WithoutNone<T>(id);
      }
    } else if xs[0].id == id {
      WithoutFirst(xs, id);
      assert !HasId(xs[1..], id);
      OthersOfAbsent(xs[1..], id);
    } else {
      WithoutLater(xs, id);
      WithoutIsOthers(xs[1..], id);
    }
  }

  lemma WithoutNone<T>(id: nat)
    ensures Without<T>([], id) == []
  {
  }

  /** Unlinking keeps the order, and removes exactly one id from a list of decreasing ids. */
  lemma WithoutDecreasing<T>(xs: seq<Entry<T>>, id: nat)
    requires Decreasing(xs) && HasId(xs, id)
    ensures Decreasing(Without(xs, id)) && |Without(xs, id)| == |xs| - 1
    ensures forall u: nat :: HasId(Without(xs, id), u) <==> HasId(xs, u) && u != id
    ensures forall e :: e in Without(xs, id) ==> e in xs
  {
    var k := Position(xs, id);
    var r := Without(xs, id);
    assert k < |xs|;
    assert forall j :: 0 <= j < k ==> r[j] == xs[j];
    assert forall j :: k <= j < |r| ==> r[j] == xs[j + 1];
    forall u: nat | HasId(xs, u) && u != id
      ensures HasId(r, u)
    {
      var i :| 0 <= i < |xs| && xs[i].id == u;
      assert r[if i < k then i else i - 1].id == u;
    }
    forall u: nat | HasId(r, u)
      ensures HasId(xs, u) && u != id
    {
      var i :| 0 <= i < |r| && r[i].id == u;
      assert xs[if i < k then i else i + 1].id == u;
    }
  }

  class Node<T> {
    var entry: Entry<T>
    var next: Node?<T>
    ghost var list: PendingList?<T>

    constructor (entry: Entry<T>)
      ensures this.entry == entry && next == null && list == null
    {
      this.entry, next, list := entry, null, null;
    }
  }

  /** A link location: the head field of the list, or the next field of a node. */
  datatype Link<T> = Head | NextOf(node: Node<T>)

  /** A node belongs to at most one list, so lists that are valid share no node. */
  class PendingList<T> {
    var head: Node?<T>
    var count: int
    ghost var spine: seq<Node<T>>
    ghost var contents: seq<Entry<T>>

    ghost predicate Valid()
      reads this, spine
    {
      && |spine| == |contents| == count
      && (head == if spine == [] then null else spine[0])
      && (forall i :: 0 <= i < |spine| ==> spine[i].entry == contents[i] && spine[i].list == this)
      && (forall i {:trigger spine[i].next} :: 0 <= i < |spine| ==>
            spine[i].next == if i + 1 < |spine| then spine[i + 1] else null)
      && (forall i, j :: 0 <= i < j < |spine| ==> spine[i] != spine[j])
    }

    constructor ()
      ensures Valid() && contents == [] && spine == []
    {
      head, count, spine, contents := null, 0, [], [];
    }

    /** Both sources link a new entry in at the head. */
    method Prepend(n: Node<T>)
      requires Valid() && n.list == null
      modifies this, n
      ensures Valid()
      ensures contents == [old(n.entry)] + old(contents)
      ensures spine == [n] + old(spine)
      ensures n.entry == old(n.entry)
    {
      n.list := this;
      n.next := head;
      head := n;
      count := count + 1;
      spine := [n] + spine;
      contents := [n.entry] + contents;
    }

    /** Drop every entry (the freed nodes are unreachable afterwards). */
    method Clear()
      requires Valid()
      modifies this
      ensures Valid() && contents == [] && spine == []
    {
      head, count, spine, contents := null, 0, [], [];
    }

    function Deref(l: Link<T>): Node?<T>
      reads this, if l.NextOf? then {l.node} else {}
    {
      match l
      case Head => head
      case NextOf(n) => n.next
    }

    ghost predicate LinkAt(l: Link<T>, k: nat)
      reads this
    {
      k <= |spine| && l == if k == 0 then Head else NextOf(spine[k - 1])
    }

    /** vusb_userspace.c: move the link pointer from link to link until the id matches or the list ends. */
    method FindLink(id: nat) returns (l: Link<T>, ghost k: nat)
      requires Valid()
      ensures k == Position(contents, id)
      ensures LinkAt(l, Position(contents, id))
      ensures Deref(l) == if k < |spine| then spine[k] else null
    {
      l, k := Head, 0;
      while Deref(l) != null && Deref(l).entry.id != id
        invariant LinkAt(l, k)
        invariant forall j :: 0 <= j < k ==> contents[j].id != id
        invariant Deref(l) == if k == |spine| then null else spine[k]
        decreases |spine| - k
      {
        l, k := NextOf(Deref(l)), k + 1;
      }
      PositionIs(contents, id, k);
    }

    /** Write a linked entry's data in place. */
    method Write(n: Node<T>, data: T, ghost k: nat)
      requires Valid() && k < |spine| && spine[k] == n
      modifies this`contents, n`entry
      ensures Valid()
      ensures contents == old(contents)[k := Entry(old(contents)[k].id, data)]
      ensures n.entry == contents[k]
    {
      n.entry := n.entry.(data := data);
      contents := contents[k := n.entry];
    }

    /** The store through the link: unlink the node that it points at. */
    method UnlinkAt(l: Link<T>, ghost k: nat)
      requires Valid() && LinkAt(l, k) && k < |spine|
      modifies this, spine
      ensures Valid()
      ensures contents == Remove(old(contents), k)
      ensures spine == Remove(old(spine), k)
      ensures forall n :: n in old(spine) ==> n.entry == old(n.entry)
    {
      hide Remove;
      var urb := Deref(l);
      match l {
        case Head => head := urb.next;
        case NextOf(n) => n.next := urb.next;
      }
      urb.list := null;
      count := count - 1;
      spine := Remove(spine, k);
      contents := Remove(contents, k);
    }

    /** Fill in the record at the found link, then unlink it. */
    method FinishAt(l: Link<T>, n: Node<T>, data: T, ghost k: nat)
      requires Valid() && LinkAt(l, k) && k < |spine| && spine[k] == n
      modifies this, spine
      ensures Valid()
      ensures contents == Remove(old(contents), k)
      ensures forall m :: m in spine ==> m in old(spine)
      ensures n.entry == Entry(old(contents)[k].id, data)
    {
      Write(n, data, k);
      UnlinkAt(l, k);
    }

    /** Locate through the link, fill in the record, unlink it. */
    method Finish(id: nat, update: T -> T) returns (n: Node?<T>)
      requires Valid()
      modifies this, spine
      ensures Valid() && forall m :: m in spine ==> m in old(spine)
      ensures var k := Position(old(contents), id);
              if k == |old(contents)| then n == null && contents == old(contents) && count == old(count)
              else
                && n != null && contents == Remove(old(contents), k) && count == old(count) - 1
                && n.entry == Entry(id, update(old(contents)[k].data))
    {
      hide Remove;
      var l, k := FindLink(id);
      n := Deref(l);
      if n != null {
        FinishAt(l, n, update(n.entry.data), k);
      }
    }

    /** The two stores of the prev/curr removal: through the previous entry, or through the head. */
    method UnlinkAfter(prev: Node?<T>, curr: Node<T>, ghost k: nat)
      requires Valid() && k < |spine| && curr == spine[k] && prev == if k == 0 then null else spine[k - 1]
      modifies this, spine
      ensures Valid()
      ensures contents == Remove(old(contents), k)
      ensures spine == Remove(old(spine), k)
      ensures curr.entry == old(curr.entry)
    {
      hide Remove;
      if prev != null {
        prev.next := curr.next;
      } else {
        head := curr.next;
      }
      curr.list := null;
      count := count - 1;
      spine := Remove(spine, k);
      contents := Remove(contents, k);
    }

    /** vusb_server_urb.c: walk with `prev` and `curr`, unlink at the first match. */
    method RemovePrevCurr(id: nat) returns (curr: Node?<T>)
      requires Valid()
      modifies this, spine
      ensures Valid()
      ensures contents == Without(old(contents), id)
      ensures curr == null <==> !HasId(old(contents), id)
      ensures curr != null ==> curr in old(spine) && curr !in spine && curr.entry.id == id
                               && curr.entry == old(contents)[Position(old(contents), id)]
      ensures forall n :: n in spine ==> n in old(spine)
    {
      var prev: Node?<T> := null;
      curr := head;
      ghost var k := 0;
      while curr != null
        invariant k <= |spine| && curr == if k == |spine| then null else spine[k]
        invariant prev == if k == 0 then null else spine[k - 1]
        invariant Valid() && spine == old(spine) && contents == old(contents)
        invariant forall j :: 0 <= j < k ==> contents[j].id != id
        decreases |spine| - k
      {
        if curr.entry.id == id {
          PositionIs(contents, id, k);
          UnlinkAfter(prev, curr, k);
          return;
        }
        prev := curr;
        curr := curr.next;
        k := k + 1;
      }
      PositionIs(contents, id, k);
    }

    /** vusb_userspace.c: locate through the link, then unlink. */
    method RemoveByLink(id: nat) returns (urb: Node?<T>)
      requires Valid()
      modifies this, spine
      ensures Valid()
      ensures contents == Without(old(contents), id)
      ensures urb == null <==> !HasId(old(contents), id)
      ensures urb != null ==> urb in old(spine) && urb !in spine
                              && urb.entry == old(contents)[Position(old(contents), id)]
      ensures forall n :: n in spine ==> n in old(spine)
    {
      var l, k := FindLink(id);
      urb := Deref(l);
      if urb != null {
        UnlinkAt(l, k);
      }
    }
  }
}
