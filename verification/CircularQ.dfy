/** A ring buffer that refines a bounded sequence (circular_q.h). */
module CircularQueue {

  /** The queue as a value. `maxItems` counts one slot more than can be used; 0 disables the queue. */
  datatype Queue<T> = Queue(items: seq<T>, maxItems: nat, overruns: nat) {
    ghost predicate Valid() {
      if maxItems == 0 then items == [] else |items| < maxItems
    }

    predicate Empty() {
      items == []
    }

    /** A disabled queue is never full. */
    predicate Full() {
      maxItems > 0 && |items| + 1 == maxItems
    }

    /** Adds at the back; a full queue loses its oldest item, a disabled one the new item. */
    function PushBack(x: T): Queue<T> {
      if maxItems == 0 then this
      else if Full() then Queue((items + [x])[1..], maxItems, overruns + 1)
      else Queue(items + [x], maxItems, overruns)
    }

    function PopFront(): Queue<T>
      requires !Empty()
    {
      Queue(items[1..], maxItems, overruns)
    }
  }

  lemma PushedItems<T>(q: Queue<T>, x: T)
    requires q.maxItems > 0
    ensures |q.items| + 1 == q.maxItems ==> q.PushBack(x) == Queue((q.items + [x])[1..], q.maxItems, q.overruns + 1)
    ensures |q.items| + 1 != q.maxItems ==> q.PushBack(x) == Queue(q.items + [x], q.maxItems, q.overruns)
  {
  }

  function Wrap(i: nat, m: nat): (r: nat)
    requires i < 2 * m
    ensures r < m
  {
    if i < m then i else i - m
  }

  lemma WrapIsModulo(i: nat, m: nat)
    requires i < 2 * m
    ensures i % m == Wrap(i, m)
  {
    if i >= m {
      assert i % m == (i - m) % m;
    }
  }

  /** `n` slots from `head` on, around the end of the buffer. */
  function Window<T>(v: seq<T>, head: nat, n: nat): (w: seq<T>)
    requires head < |v| && n <= |v|
    ensures |w| == n && forall i {:trigger w[i]} :: 0 <= i < n ==> w[i] == v[Wrap(head + i, |v|)]
  {
    seq(n, i requires 0 <= i < n => v[Wrap(head + i, |v|)])
  }

  lemma WindowPush<T>(v: seq<T>, head: nat, n: nat, x: T)
    requires head < |v| && n < |v|
    ensures Window(v[Wrap(head + n, |v|) := x], head, n + 1) == Window(v, head, n) + [x]
  {
    var t := v[Wrap(head + n, |v|) := x];
    var left, right := Window(t, head, n + 1), Window(v, head, n) + [x];
    forall i | 0 <= i <= n
      ensures left[i] == right[i]
    {
      assert left[i] == t[Wrap(head + i, |v|)];
      if i < n {
        assert Wrap(head + i, |v|) != Wrap(head + n, |v|);
        assert right[i] == Window(v, head, n)[i];
      }
    }
  }

  lemma WindowPop<T>(v: seq<T>, head: nat, n: nat)
    requires head < |v| && 0 < n <= |v|
    ensures Window(v, Wrap(head + 1, |v|), n - 1) == Window(v, head, n)[1..]
  {
    var left, right := Window(v, Wrap(head + 1, |v|), n - 1), Window(v, head, n)[1..];
    forall i | 0 <= i < n - 1
      ensures left[i] == right[i]
    {
      assert right[i] == Window(v, head, n)[i + 1];
    }
  }

  function Distance(head: nat, tail: nat, m: nat): (n: nat)
    requires head < m && tail < m
    ensures n < m && Wrap(head + n, m) == tail
  {
    if tail >= head then tail - head else m - (head - tail)
  }

  function ItemsOf<T>(v: seq<T>, head: nat, tail: nat): (s: seq<T>)
    requires head < |v| && tail < |v|
    ensures |s| == Distance(head, tail, |v|)
  {
    Window(v, head, Distance(head, tail, |v|))
  }

  /** Writing at the tail and stepping it, and the head too when the two meet. */
  lemma RingPush<T>(v: seq<T>, head: nat, tail: nat, x: T, t: nat)
    requires head < |v| && tail < |v| && t == Wrap(tail + 1, |v|)
    ensures t == head <==> |ItemsOf(v, head, tail)| + 1 == |v|
    ensures t != head ==> ItemsOf(v[tail := x], head, t) == ItemsOf(v, head, tail) + [x]
    ensures t == head ==> ItemsOf(v[tail := x], Wrap(head + 1, |v|), t) == (ItemsOf(v, head, tail) + [x])[1..]
  {
    var n := Distance(head, tail, |v|);
    WindowPush(v, head, n, x);
    if t == head {
      WindowPop(v[tail := x], head, |v|);
    }
  }

  lemma RingPop<T>(v: seq<T>, head: nat, tail: nat)
    requires head < |v| && tail < |v| && head != tail
    ensures |ItemsOf(v, head, tail)| > 0
    ensures ItemsOf(v, Wrap(head + 1, |v|), tail) == ItemsOf(v, head, tail)[1..]
  {
    WindowPop(v, head, Distance(head, tail, |v|));
  }

  class CircularQ<T(0)> {
    const maxItems: nat
    const v: array<T>
    var head: nat
    var tail: nat
    var overruns: nat

    ghost predicate Valid()
      reads this
    {
      && v.Length == maxItems
      && (if maxItems == 0 then head == 0 && tail == 0 else head < maxItems && tail < maxItems)
    }

    function Size(): nat
      requires Valid()
      reads this
    {
      if tail >= head then tail - head else maxItems - (head - tail)
    }

    ghost function Items(): (s: seq<T>)
      requires Valid()
      reads this, v
      ensures |s| == Size()
    {
      if maxItems == 0 then [] else ItemsOf(v[..], head, tail)
    }

    ghost function Model(): (q: Queue<T>)
      requires Valid()
      reads this, v
      ensures q.Valid()
    {
      Queue(Items(), maxItems, overruns)
    }

    predicate Empty()
      requires Valid()
      reads this, v
      ensures Empty() == Model().Empty()
    {
      tail == head
    }

    predicate Full()
      requires Valid()
      reads this, v
      ensures Full() == Model().Full()
    {
      maxItems > 0 && (tail + 1) % maxItems == head
    }

    constructor Disabled()
      ensures Valid() && fresh(v) && Model() == Queue([], 0, 0)
    {
      maxItems := 0;
      v := new T[0];
      head, tail, overruns := 0, 0, 0;
    }

    constructor (capacity: nat)
      ensures Valid() && fresh(v) && Model() == Queue([], capacity + 1, 0)
    {
      maxItems := capacity + 1;
      v := new T[capacity + 1];
      head, tail, overruns := 0, 0, 0;
    }

    method PushBack(item: T)
      requires Valid()
      modifies this, v
      ensures Valid() && Model() == old(Model()).PushBack(item)
    {
      if maxItems > 0 {
        WrapIsModulo(tail + 1, maxItems);
        WrapIsModulo(head + 1, maxItems);
        ghost var items, next := Items(), Wrap(tail + 1, maxItems);
        RingPush(v[..], head, tail, item, next);
        PushedItems(Model(), item);
        ghost var written := v[..][tail := item];
        v[tail] := item;
        assert v[..] == written;
        tail := (tail + 1) % maxItems;
        if tail == head {
          head := (head + 1) % maxItems;
          overruns := overruns + 1;
          assert Items() == (items + [item])[1..];
        } else {
          assert Items() == items + [item];
        }
      }
    }

    method Front() returns (item: T)
      requires Valid() && !Empty()
      ensures item == Model().items[0]
    {
      item := v[head];
    }

    method At(i: nat) returns (item: T)
      requires Valid() && i < Size()
      ensures item == Model().items[i]
    {
      WrapIsModulo(head + i, maxItems);
      item := v[(head + i) % maxItems];
    }

    method PopFront()
      requires Valid() && !Empty()
      modifies this
      ensures Valid() && Model() == old(Model()).PopFront()
    {
      WrapIsModulo(head + 1, maxItems);
      RingPop(v[..], head, tail);
      head := (head + 1) % maxItems;
    }
  }

  /** A default queue swallows what it is given without counting it, and never reports being full. */
  method DisabledSwallows<T(0)>(item: T) returns (q: CircularQ<T>)
    ensures fresh(q) && q.Valid() && q.Model() == Queue([], 0, 0) && !q.Model().Full() && q.Model().Empty()
  {
    q := new CircularQ.Disabled();
    q.PushBack(item);
  }

  /** With capacity 0 every push overruns, and the queue stays empty. */
  lemma CapacityZero<T>(q: Queue<T>, x: T)
    requires q.Valid() && q.maxItems == 1
    ensures q.Full() && q.PushBack(x) == q.(overruns := q.overruns + 1)
  {
    assert (q.items + [x])[1..] == [];
  }
}
