/** The deque of free addresses: a ring of doubly linked elements around a sentinel, as in Go's container/list,
    which the source wraps. */
module Deques {
  import opened Wrappers

  class Element<T(0)> {
    var next: Element?<T>
    var prev: Element?<T>
    var value: T

    constructor (value: T)
      ensures this.value == value
    {
      this.value := value;
      next, prev := null, null;
    }

    /** The sentinel of an empty ring. */
    constructor Root()
      ensures next == this && prev == this
    {
      next, prev := this, this;
    }
  }

  /** Neighbours in the sequence are linked both ways. */
  ghost predicate Linked<T(0)>(ring: seq<Element<T>>)
    reads ring
  {
    && (forall i | 0 <= i < |ring| - 1 :: ring[i].next == ring[i + 1])
    && (forall i | 0 < i < |ring| :: ring[i].prev == ring[i - 1])
  }

  class Deque<T(==, 0)> {
    ghost var items: seq<T>
    ghost var ring: seq<Element<T>>  // the sentinel, the elements in order, and the sentinel again
    ghost var Repr: set<Element<T>>
    const root: Element<T>
    var len: nat

    ghost predicate Valid()
      reads this, Repr
    {
      && |ring| == |items| + 2 && ring[0] == root && ring[|items| + 1] == root
      && (forall i | 0 <= i < |ring| :: ring[i] in Repr)
      && (forall i, j | 0 <= i < j < |ring| - 1 :: ring[i] != ring[j])
      && Linked(ring)
      && (forall i | 0 <= i < |items| :: ring[i + 1].value == items[i])
      && len == |items|
    }

    constructor ()
      ensures Valid() && fresh(Repr) && items == []
    {
      var r := new Element<T>.Root();
      root := r;
      items, ring, len := [], [r, r], 0;
      Repr := {r};
    }

    /** list.insert: a new element behind ring position k. */
    method Insert(x: T, at: Element<T>, ghost k: nat)
      requires Valid() && k <= |items| && at == ring[k]
      modifies this, Repr
      ensures Valid() && fresh(Repr - old(Repr))
      ensures items == old(items)[..k] + [x] + old(items)[k..]
    {
      ghost var was := ring;
      var e := new Element<T>(x);
      var n := at.next;
      assert n == was[k + 1];
      e.prev := at;
      e.next := n;
      at.next := e;
      n.prev := e;
      len := len + 1;
      Spliced(was, e, k, items);
      ring := was[..k + 1] + [e] + was[k + 1..];
      items := items[..k] + [x] + items[k..];
      Repr := Repr + {e};
    }

    /** What the four assignments of an insertion make of the ring. */
    lemma Spliced(was: seq<Element<T>>, e: Element<T>, k: nat, held: seq<T>)
      requires k + 1 < |was| && e !in was
      requires forall i, j | 0 <= i < j < |was| - 1 :: was[i] != was[j]
      requires forall i | 0 <= i < |was| - 1 && i != k :: was[i].next == was[i + 1]
      requires forall i | 0 < i < |was| && i != k + 1 :: was[i].prev == was[i - 1]
      requires |held| == |was| - 2 && forall i | 0 <= i < |held| :: was[i + 1].value == held[i]
      requires was[k].next == e && e.prev == was[k] && e.next == was[k + 1] && was[k + 1].prev == e
      ensures var ring := was[..k + 1] + [e] + was[k + 1..];
              && Linked(ring)
              && (forall i, j | 0 <= i < j < |ring| - 1 :: ring[i] != ring[j])
              && (forall i | 0 <= i < |held| + 1 :: ring[i + 1].value == (held[..k] + [e.value] + held[k..])[i])
    {
      var ring := was[..k + 1] + [e] + was[k + 1..];
      forall i | 0 <= i < |ring| - 1 ensures ring[i].next == ring[i + 1] {
        if i < k { assert ring[i] == was[i]; }
        else if i > k + 1 { assert ring[i] == was[i - 1] && ring[i + 1] == was[i]; }
      }
      forall i | 0 < i < |ring| ensures ring[i].prev == ring[i - 1] {
        if i <= k { assert ring[i] == was[i]; }
        else if i > k + 2 { assert ring[i] == was[i - 1] && ring[i - 1] == was[i - 2]; }
      }
      forall i | 0 <= i < |held| + 1 ensures ring[i + 1].value == (held[..k] + [e.value] + held[k..])[i] {
        assert ring[i + 1] == if i < k then was[i + 1] else if i == k then e else was[i];
      }
    }

    /** list.remove: unlink the element at ring position k + 1. */
    method Remove(e: Element<T>, ghost k: nat) returns (x: T)
      requires Valid() && k < |items| && e == ring[k + 1]
      modifies this, Repr
      ensures Valid() && Repr == old(Repr)
      ensures x == old(items)[k]
      ensures items == old(items)[..k] + old(items)[k + 1..]
      ensures ring == old(ring)[..k + 1] + old(ring)[k + 2..]
    {
      assert e.prev == ring[k] && e.next == ring[k + 2];
      e.prev.next := e.next;
      e.next.prev := e.prev;
      e.next := null;
      e.prev := null;
      len := len - 1;
      ring := ring[..k + 1] + ring[k + 2..];
      items := items[..k] + items[k + 1..];
      x := e.value;
    }

    method Append(x: T)
      requires Valid()
      modifies this, Repr
      ensures Valid() && fresh(Repr - old(Repr)) && items == old(items) + [x]
    {
      assert root.prev == ring[|items|];
      Insert(x, root.prev, |items|);
    }

    method Prepend(x: T)
      requires Valid()
      modifies this, Repr
      ensures Valid() && fresh(Repr - old(Repr)) && items == [x] + old(items)
    {
      Insert(x, root, 0);
    }

    method Pop() returns (x: Option<T>)
      requires Valid()
      modifies this, Repr
      ensures Valid() && Repr == old(Repr)
      ensures if old(items) == [] then x == None && items == []
              else x == Some(old(items)[|old(items)| - 1]) && items == old(items)[..|old(items)| - 1]
    {
      if len == 0 { return None; }
      assert root.prev == ring[|items|];
      var y := Remove(root.prev, |items| - 1);
      return Some(y);
    }

    method Shift() returns (x: Option<T>)
      requires Valid()
      modifies this, Repr
      ensures Valid() && Repr == old(Repr)
      ensures if old(items) == [] then x == None && items == []
              else x == Some(old(items)[0]) && items == old(items)[1..]
    {
      if len == 0 { return None; }
      assert root.next == ring[1];
      var y := Remove(root.next, 0);
      return Some(y);
    }

    method Back() returns (x: Option<T>)
      requires Valid()
      ensures x == if items == [] then None else Some(items[|items| - 1])
    {
      if len == 0 { return None; }
      assert root.prev == ring[|items|];
      return Some(root.prev.value);
    }

    method Front() returns (x: Option<T>)
      requires Valid()
      ensures x == if items == [] then None else Some(items[0])
    {
      if len == 0 { return None; }
      assert root.next == ring[1];
      return Some(root.next.value);
    }

    method Size() returns (n: nat)
      requires Valid()
      ensures n == |items|
    {
      n := len;
    }

    method Empty() returns (b: bool)
      requires Valid()
      ensures b <==> items == []
    {
      b := len == 0;
    }

    /** Element.Next: nil at the end of the list. */
    method Next(e: Element<T>, ghost k: nat) returns (n: Element?<T>)
      requires Valid() && k < |items| && e == ring[k + 1]
      ensures n == if k + 1 < |items| then ring[k + 2] else null
    {
      assert e.next == ring[k + 2];
      n := if e.next == root then null else e.next;
    }

    /** Walks the list and unlinks every element that holds x, also the one it stands on: the successor is read
        before the element is unlinked. */
    method FindAndRemove(x: T)
      requires Valid()
      modifies this, Repr
      ensures Valid() && Repr == old(Repr)
      ensures items == Without(old(items), x)
    {
      ghost var was, kept: seq<T>, rest := items, [], items;
      var e: Element?<T> := null;
      if len != 0 {
        assert root.next == ring[1];
        e := root.next;
      }
      while e != null
        invariant Valid() && Repr == old(Repr)
        invariant items == kept + rest && Without(was, x) == kept + Without(rest, x)
        invariant e == if rest != [] then ring[|kept| + 1] else null
        decreases |rest|
      {
        var next := Next(e, |kept|);
        assert e.value == items[|kept|] == rest[0];
        Advance(kept, rest);
        AdvanceWithout(kept, rest, x);
        if e.value == x {
          var _ := Remove(e, |kept|);
        } else {
          kept := kept + [e.value];
        }
        rest := rest[1..];
        e := next;
      }
    }
  }

  /** Dropping or keeping the first item of the rest. */
  lemma Advance<T>(kept: seq<T>, rest: seq<T>)
    requires rest != []
    ensures (kept + rest)[..|kept|] + (kept + rest)[|kept| + 1..] == kept + rest[1..]
    ensures kept + rest == kept + [rest[0]] + rest[1..]
  {
  }

  lemma Associate<T>(a: seq<T>, b: seq<T>, c: seq<T>)
    ensures a + (b + c) == a + b + c
  {
  }

  lemma WithoutHead<T>(s: seq<T>, x: T)
    requires s != []
    ensures Without(s, x) == (if s[0] == x then [] else [s[0]]) + Without(s[1..], x)
  {
  }

  lemma AdvanceWithout<T>(kept: seq<T>, rest: seq<T>, x: T)
    requires rest != []
    ensures kept + Without(rest, x) == (if rest[0] == x then kept else kept + [rest[0]]) + Without(rest[1..], x)
  {
    WithoutHead(rest, x);
    Associate(kept, if rest[0] == x then [] else [rest[0]], Without(rest[1..], x));
    if rest[0] == x { assert kept + [] == kept; }
  }

  // ---------- What FindAndRemove means ----------

  /** The items other than x, in their order. */
  function Without<T(==)>(s: seq<T>, x: T): seq<T> {
    if s == [] then [] else (if s[0] == x then [] else [s[0]]) + Without(s[1..], x)
  }

  /** The items on either side of any point keep to their side: relative order is kept. */
  lemma {:induction false} WithoutConcat<T>(a: seq<T>, b: seq<T>, x: T)
    ensures Without(a + b, x) == Without(a, x) + Without(b, x)
  {
    if a == [] {
      assert a + b == b;
    } else {
      assert (a + b)[1..] == a[1..] + b;
      WithoutConcat(a[1..], b, x);
    }
  }

  /** Every occurrence of x is gone and no other item is lost or doubled. */
  lemma {:induction false} WithoutContents<T>(s: seq<T>, x: T)
    ensures multiset(Without(s, x)) == multiset(s)[x := 0]
  {
    if s != [] {
      assert s == [s[0]] + s[1..];
      WithoutContents(s[1..], x);
    }
  }

  lemma {:induction false} WithoutMembers<T>(s: seq<T>, x: T)
    ensures forall y :: y in Without(s, x) <==> y in s && y != x
  {
    if s != [] {
      assert s == [s[0]] + s[1..];
      WithoutMembers(s[1..], x);
    }
  }

  /** A duplicate-free pool stays duplicate-free. */
  lemma {:induction false} WithoutNoDup<T>(s: seq<T>, x: T)
    requires NoDup(s)
    ensures NoDup(Without(s, x))
  {
    if s != [] {
      assert s[0] !in s[1..];
      WithoutNoDup(s[1..], x);
      WithoutMembers(s[1..], x);
      var w := Without(s[1..], x);
      assert forall i | 0 <= i < |w| :: w[i] in w && w[i] != s[0];
    }
  }

  // ---------- First in, first out ----------

  datatype Op<T> = Put(x: T) | Take

  /** The queue after a run of Appends and Shifts. */
  function After<T>(q: seq<T>, ops: seq<Op<T>>): seq<T>
    decreases |ops|
  {
    if ops == [] then q
    else match ops[0]
      case Put(x) => After(q + [x], ops[1..])
      case Take => After(if q == [] then q else q[1..], ops[1..])
  }

  /** What the Shifts of the run return, those on an empty queue left out. */
  function Taken<T>(q: seq<T>, ops: seq<Op<T>>): seq<T>
    decreases |ops|
  {
    if ops == [] then []
    else match ops[0]
      case Put(x) => Taken(q + [x], ops[1..])
      case Take => if q == [] then Taken(q, ops[1..]) else [q[0]] + Taken(q[1..], ops[1..])
  }

  function Puts<T>(ops: seq<Op<T>>): seq<T> {
    if ops == [] then [] else (if ops[0].Put? then [ops[0].x] else []) + Puts(ops[1..])
  }

  /** Conservation and order in one: what was taken and what is left is what was there and what was put. */
  lemma {:induction false} FirstInFirstOut<T>(q: seq<T>, ops: seq<Op<T>>)
    ensures Taken(q, ops) + After(q, ops) == q + Puts(ops)
    decreases |ops|
  {
    if ops != [] {
      match ops[0]
      case Put(x) =>
        FirstInFirstOut(q + [x], ops[1..]);
        assert q + [x] + Puts(ops[1..]) == q + ([x] + Puts(ops[1..]));
      case Take =>
        if q == [] {
          FirstInFirstOut(q, ops[1..]);
        } else {
          FirstInFirstOut(q[1..], ops[1..]);
          assert q == [q[0]] + q[1..];
          assert Taken(q, ops) + After(q, ops) == [q[0]] + (Taken(q[1..], ops[1..]) + After(q[1..], ops[1..]));
          assert q + Puts(ops) == [q[0]] + (q[1..] + Puts(ops[1..]));
        }
    }
  }

  /** An item appended to a queue of n is still in it, n - k from the front, after k <= n Shifts, and is what the
      (n+1)-th Shift returns, whatever else is appended meanwhile. */
  lemma AppendedComesInTurn<T>(q: seq<T>, x: T, ops: seq<Op<T>>)
    ensures var k := |Taken(q + [x], ops)|;
            if k <= |q| then |q| - k < |After(q + [x], ops)| && After(q + [x], ops)[|q| - k] == x
            else Taken(q + [x], ops)[|q|] == x
  {
    FirstInFirstOut(q + [x], ops);
    var taken, left := Taken(q + [x], ops), After(q + [x], ops);
    assert (taken + left)[|q|] == (q + [x] + Puts(ops))[|q|] == x;
  }
}
