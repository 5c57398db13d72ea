/** The fixed-capacity FIFO of deferred queues, a circular buffer over an array. */
module DeferredRings {
  import opened Common

  class DeferredRing<T> {
    const items: array<Option<T>>
    var head: nat
    var size: nat

    constructor (capacity: nat)
      ensures Valid() && fresh(items)
      ensures items.Length == capacity && Contents() == []
    {
      items := new Option<T>[capacity](_ => None);
      head, size := 0, 0;
    }

    static lemma Wrap(a: nat, n: nat)
      requires 0 < n && a < 2 * n
      ensures a % n == if a < n then a else a - n
    {
    }

    /** The slot of the i-th entry; the source writes it (head + i) % len(items). */
    ghost function Slot(i: nat): (index: nat)
      requires head < items.Length && i < items.Length
      reads this
      ensures index < items.Length && index == (head + i) % items.Length
    {
      Wrap(head + i, items.Length);
      if head + i < items.Length then head + i else head + i - items.Length
    }

    ghost predicate Valid()
      reads this, items
    {
      && size <= items.Length
      && (items.Length == 0 ==> head == 0)
      && (items.Length > 0 ==> head < items.Length)
      && (forall i :: 0 <= i < size ==> items[Slot(i)].Some?)
    }

    /** The queue this buffer stands for, oldest entry first. */
    ghost function Contents(): (s: seq<T>)
      requires Valid()
      reads this, items
      ensures |s| == size
    {
      seq(size, i requires 0 <= i < size && Valid() reads this, items => items[Slot(i)].value)
    }

    method Push(x: T) returns (ok: bool)
      requires Valid()
      modifies this`size, items
      ensures Valid()
      ensures ok <==> old(size) < items.Length
      ensures Contents() == if ok then old(Contents()) + [x] else old(Contents())
    {
      if size == items.Length {
        return false;
      }
      ghost var before := Contents();
      var index := (head + size) % items.Length;
      assert index == Slot(size);
      items[index] := Some(x);
      size := size + 1;
      assert forall i :: 0 <= i < size - 1 ==> items[Slot(i)] == Some(before[i]);
      return true;
    }

    method Pop() returns (x: Option<T>)
      requires Valid()
      modifies this, items
      ensures Valid()
      ensures x.None? <==> old(Contents()) == []
      ensures x.None? ==> Contents() == []
      ensures x.Some? ==> old(Contents()) == [x.value] + Contents()
    {
      if size == 0 {
        return None;
      }
      ghost var before, n := Contents(), items.Length;
      x := items[head];
      assert Slot(0) == head;
      assert forall i :: 0 < i < size ==> items[Slot(i)] == Some(before[i]) && Slot(i) != head;
      Wrap(head + 1, n);
      items[head] := None;
      head, size := (head + 1) % items.Length, size - 1;
      assert forall i :: 0 <= i < size ==> Slot(i) == old(Slot(i + 1));
    }
  }
}
