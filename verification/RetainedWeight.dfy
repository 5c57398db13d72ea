/** The charge for a decoded SYNC batch: checked 64-bit arithmetic over its allocations, proved
    equal to an unbounded formula. Strings and byte slices matter here only by their length or
    capacity; the sizes of structures are those of a 64-bit platform. */
module RetainedWeight {
  import opened Common
  import opened ByteBudgets
  import Batch = BatchReservations

  const QUANTUM: int := 128
  const OVERHEAD: int := 16
  const SAFETY_FACTOR: int := 2
  const PAGE: int := 4096
  const MAX_WEIGHT: int := 8 * 1024 * 1024

  const SYNC_SIZE: int := 80
  const STATUS_SIZE: int := 48
  const REDIRECT_SIZE: int := 24
  const JID_SIZE: int := 64
  const META_SIZE: int := 288
  const KEY_VALUE_SIZE: int := 72
  const STRING_SIZE: int := 16

  type Len = x: int | 0 <= x <= MAX_INT64

  datatype Slice<T> = Slice(capacity: Len, items: seq<T>)

  datatype JID = JID(appKey: Len, name: Len, domain: Len, resource: Len)

  datatype Status = Status(reason: Len, redirects: Slice<Len>)  // the redirects by host length

  datatype KeyValue = KeyValue(key: Len, text: Len)

  datatype Meta = Meta(payload: Len, attributes: Len, from: JID, to: JID, ext: Slice<KeyValue>,
                       directedUsers: Slice<Len>, environment: Len)

  datatype Sync = Sync(status: Option<Status>, queue: Option<JID>, metas: Slice<Meta>)

  // ---- The formula ------------------------------------------------------------------------

  ghost function RoundUp(value: nat, quantum: nat): (r: nat)
    requires quantum > 0
    ensures value <= r < value + quantum
  {
    if value % quantum == 0 then value else value + (quantum - value % quantum)
  }

  /** What one allocation of `size` bytes costs. */
  ghost function Charge(size: nat): nat {
    if size == 0 then 0 else RoundUp(size, QUANTUM) + OVERHEAD
  }

  ghost function Bytes(size: nat): nat { size }

  /** The sum of f over the sizes of every allocation of a part of a batch. */
  ghost function JidTotal(j: JID, f: nat -> nat): nat {
    f(j.appKey) + f(j.name) + f(j.domain) + f(j.resource)
  }

  ghost function TextsTotal(texts: seq<Len>, f: nat -> nat): nat {
    if texts == [] then 0 else TextsTotal(texts[..|texts| - 1], f) + f(texts[|texts| - 1])
  }

  ghost function KeyValuesTotal(items: seq<KeyValue>, f: nat -> nat): nat {
    if items == [] then 0
    else KeyValuesTotal(items[..|items| - 1], f) + f(items[|items| - 1].key) + f(items[|items| - 1].text)
  }

  ghost function MetaTotal(m: Meta, f: nat -> nat): nat {
    f(m.payload) + f(m.attributes) + JidTotal(m.from, f) + JidTotal(m.to, f)
    + f(m.ext.capacity * KEY_VALUE_SIZE) + KeyValuesTotal(m.ext.items, f)
    + f(m.directedUsers.capacity * STRING_SIZE) + TextsTotal(m.directedUsers.items, f)
    + f(m.environment)
  }

  ghost function MetasTotal(metas: seq<Meta>, f: nat -> nat): nat {
    if metas == [] then 0 else MetasTotal(metas[..|metas| - 1], f) + MetaTotal(metas[|metas| - 1], f)
  }

  ghost function StatusTotal(s: Status, f: nat -> nat): nat {
    f(STATUS_SIZE) + f(s.reason) + f(s.redirects.capacity * REDIRECT_SIZE) + TextsTotal(s.redirects.items, f)
  }

  ghost function SyncTotal(s: Sync, f: nat -> nat): nat {
    f(SYNC_SIZE)
    + (if s.status.Some? then StatusTotal(s.status.value, f) else 0)
    + (if s.queue.Some? then f(JID_SIZE) + JidTotal(s.queue.value, f) else 0)
    + f(s.metas.capacity * META_SIZE) + MetasTotal(s.metas.items, f)
  }

  /** The weight over unbounded integers. */
  ghost function Weight(s: Sync): nat {
    RoundUp(SAFETY_FACTOR * SyncTotal(s, Charge), PAGE)
  }

  // ---- Checked arithmetic -----------------------------------------------------------------

  lemma QuotientBounds(a: int, b: int, max: int)
    requires a > 0 && b >= 0 && max >= 0
    ensures b > max / a <==> a * b > max
  {
    if b > max / a {
      assert a * b >= a * (max / a + 1) == a * (max / a) + a > max;
    } else {
      assert a * b <= a * (max / a) <= max;
    }
  }

  function CheckedMul(a: Uint64, b: Uint64): (r: Option<Uint64>)
    ensures r == if a * b <= MAX_UINT64 then Some(a * b) else None
  {
    if a != 0 && (QuotientBounds(a, b, MAX_UINT64); b > MAX_UINT64 / a) then None
    else (if a != 0 then QuotientBounds(a, b, MAX_UINT64); Some(a * b) else Some(0))
  }

  function CheckedRoundUp(value: Uint64, quantum: Uint64): (r: Option<Uint64>)
    ensures quantum > 0 ==> r == if RoundUp(value, quantum) <= MAX_UINT64 then Some(RoundUp(value, quantum)) else None
  {
    if quantum == 0 then None
    else if value % quantum == 0 then Some(value)
    else CheckedAdd(value, quantum - value % quantum)
  }

  // ---- The estimator ----------------------------------------------------------------------

  /** Every method adds the exact cost of its part, or reports that the total no longer fits
      64 bits; then the exact total does not. */
  class Estimator {
    var total: Uint64

    constructor ()
      ensures total == 0
    {
      total := 0;
    }

    method Allocation(size: Uint64) returns (ok: bool)
      modifies this
      ensures ok <==> old(total) + Charge(size) <= MAX_UINT64
      ensures ok ==> total == old(total) + Charge(size)
    {
      if size == 0 {
        return true;
      }
      var rounded := CheckedRoundUp(size, QUANTUM);
      if rounded == None {
        return false;
      }
      var charged := CheckedAdd(rounded.value, OVERHEAD);
      if charged == None {
        return false;
      }
      var sum := CheckedAdd(total, charged.value);
      if sum == None {
        return false;
      }
      total := sum.value;
      return true;
    }

    method Backing(capacity: Len, elementSize: Uint64) returns (ok: bool)
      requires elementSize > 0
      modifies this
      ensures ok <==> old(total) + Charge(capacity * elementSize) <= MAX_UINT64
      ensures ok ==> total == old(total) + Charge(capacity * elementSize)
    {
      if capacity <= 0 {
        return true;
      }
      var size := CheckedMul(capacity, elementSize);
      if size == None {
        return false;
      }
      ok := Allocation(size.value);
    }

    method Identity(j: JID) returns (ok: bool)
      modifies this
      ensures ok <==> old(total) + JidTotal(j, Charge) <= MAX_UINT64
      ensures ok ==> total == old(total) + JidTotal(j, Charge)
    {
      ok := Allocation(j.appKey);
      if !ok { return; }
      ok := Allocation(j.name);
      if !ok { return; }
      ok := Allocation(j.domain);
      if !ok { return; }
      ok := Allocation(j.resource);
    }

    method Texts(texts: seq<Len>) returns (ok: bool)
      modifies this
      ensures ok <==> old(total) + TextsTotal(texts, Charge) <= MAX_UINT64
      ensures ok ==> total == old(total) + TextsTotal(texts, Charge)
    {
      for i := 0 to |texts|
        invariant total == old(total) + TextsTotal(texts[..i], Charge)
      {
        assert texts[..i + 1][..i] == texts[..i];
        ok := Allocation(texts[i]);
        if !ok {
          TextsGrow(texts, i + 1);
          return;
        }
      }
      assert texts[..|texts|] == texts;
      return true;
    }

    method KeyValues(items: seq<KeyValue>) returns (ok: bool)
      modifies this
      ensures ok <==> old(total) + KeyValuesTotal(items, Charge) <= MAX_UINT64
      ensures ok ==> total == old(total) + KeyValuesTotal(items, Charge)
    {
      for i := 0 to |items|
        invariant total == old(total) + KeyValuesTotal(items[..i], Charge)
      {
        assert items[..i + 1][..i] == items[..i];
        ok := Allocation(items[i].key);
        if ok {
          ok := Allocation(items[i].text);
        }
        if !ok {
          KeyValuesGrow(items, i + 1);
          return;
        }
      }
      assert items[..|items|] == items;
      return true;
    }

    method MessageMeta(m: Meta) returns (ok: bool)
      modifies this
      ensures ok <==> old(total) + MetaTotal(m, Charge) <= MAX_UINT64
      ensures ok ==> total == old(total) + MetaTotal(m, Charge)
    {
      ok := Backing(m.payload, 1);
      if !ok { return; }
      ok := Backing(m.attributes, 1);
      if !ok { return; }
      ok := Identity(m.from);
      if !ok { return; }
      ok := Identity(m.to);
      if !ok { return; }
      ok := Backing(m.ext.capacity, KEY_VALUE_SIZE);
      if !ok { return; }
      ok := KeyValues(m.ext.items);
      if !ok { return; }
      ok := Backing(m.directedUsers.capacity, STRING_SIZE);
      if !ok { return; }
      ok := Texts(m.directedUsers.items);
      if !ok { return; }
      ok := Allocation(m.environment);
    }

    method Metas(metas: seq<Meta>) returns (ok: bool)
      modifies this
      ensures ok <==> old(total) + MetasTotal(metas, Charge) <= MAX_UINT64
      ensures ok ==> total == old(total) + MetasTotal(metas, Charge)
    {
      for i := 0 to |metas|
        invariant total == old(total) + MetasTotal(metas[..i], Charge)
      {
        assert metas[..i + 1][..i] == metas[..i];
        ok := MessageMeta(metas[i]);
        if !ok {
          MetasGrow(metas, i + 1);
          return;
        }
      }
      assert metas[..|metas|] == metas;
      return true;
    }

    method ResponseStatus(s: Status) returns (ok: bool)
      modifies this
      ensures ok <==> old(total) + StatusTotal(s, Charge) <= MAX_UINT64
      ensures ok ==> total == old(total) + StatusTotal(s, Charge)
    {
      ok := Allocation(STATUS_SIZE);
      if !ok { return; }
      ok := Allocation(s.reason);
      if !ok { return; }
      ok := Backing(s.redirects.capacity, REDIRECT_SIZE);
      if !ok { return; }
      ok := Texts(s.redirects.items);
    }

    method Batch(s: Sync) returns (ok: bool)
      modifies this
      ensures ok <==> old(total) + SyncTotal(s, Charge) <= MAX_UINT64
      ensures ok ==> total == old(total) + SyncTotal(s, Charge)
    {
      ok := Allocation(SYNC_SIZE);
      if !ok { return; }
      if s.status.Some? {
        ok := ResponseStatus(s.status.value);
        if !ok { return; }
      }
      if s.queue.Some? {
        ok := Allocation(JID_SIZE);
        if !ok { return; }
        ok := Identity(s.queue.value);
        if !ok { return; }
      }
      ok := Backing(s.metas.capacity, META_SIZE);
      if !ok { return; }
      ok := Metas(s.metas.items);
    }
  }

  lemma {:induction false} TextsGrow(texts: seq<Len>, n: nat)
    requires n <= |texts|
    ensures TextsTotal(texts[..n], Charge) <= TextsTotal(texts, Charge)
    decreases |texts|
  {
    if n < |texts| {
      TextsGrow(texts[..|texts| - 1], n);
      assert texts[..|texts| - 1][..n] == texts[..n];
    } else {
      assert texts[..n] == texts;
    }
  }

  lemma {:induction false} KeyValuesGrow(items: seq<KeyValue>, n: nat)
    requires n <= |items|
    ensures KeyValuesTotal(items[..n], Charge) <= KeyValuesTotal(items, Charge)
    decreases |items|
  {
    if n < |items| {
      KeyValuesGrow(items[..|items| - 1], n);
      assert items[..|items| - 1][..n] == items[..n];
    } else {
      assert items[..n] == items;
    }
  }

  lemma {:induction false} MetasGrow(metas: seq<Meta>, n: nat)
    requires n <= |metas|
    ensures MetasTotal(metas[..n], Charge) <= MetasTotal(metas, Charge)
    decreases |metas|
  {
    if n < |metas| {
      MetasGrow(metas[..|metas| - 1], n);
      assert metas[..|metas| - 1][..n] == metas[..n];
    } else {
      assert metas[..n] == metas;
    }
  }

  /** The weight of a batch, zero for no batch, or None for the protocol limit error: exactly
      the formula over unbounded integers, refused exactly when that exceeds 8 MiB. */
  method SyncRetainedWeight(sync: Option<Sync>) returns (weight: Option<int>)
    ensures sync.None? ==> weight == Some(0)
    ensures sync.Some? ==> weight == if Weight(sync.value) <= MAX_WEIGHT then Some(Weight(sync.value)) else None
  {
    if sync.None? {
      return Some(0);
    }
    var estimate := new Estimator();
    var ok := estimate.Batch(sync.value);
    if !ok {
      return None;
    }
    var doubled := CheckedMul(estimate.total, SAFETY_FACTOR);
    if doubled == None {
      return None;
    }
    var paged := CheckedRoundUp(doubled.value, PAGE);
    if paged == None || paged.value > MAX_WEIGHT {
      return None;
    }
    return Some(paged.value);
  }

  // ---- What the weight guarantees ---------------------------------------------------------

  lemma JidCovered(j: JID)
    ensures JidTotal(j, Bytes) <= JidTotal(j, Charge)
  {
  }

  lemma {:induction false} TextsCovered(texts: seq<Len>)
    ensures TextsTotal(texts, Bytes) <= TextsTotal(texts, Charge)
    decreases |texts|
  {
    if texts != [] {
      TextsCovered(texts[..|texts| - 1]);
    }
  }

  lemma {:induction false} KeyValuesCovered(items: seq<KeyValue>)
    ensures KeyValuesTotal(items, Bytes) <= KeyValuesTotal(items, Charge)
    decreases |items|
  {
    if items != [] {
      KeyValuesCovered(items[..|items| - 1]);
    }
  }

  lemma BackingCovered(capacity: Len, elementSize: nat)
    ensures Bytes(capacity * elementSize) <= Charge(capacity * elementSize)
  {
  }

  lemma MetaCovered(m: Meta)
    ensures MetaTotal(m, Bytes) <= MetaTotal(m, Charge)
  {
    JidCovered(m.from);
    JidCovered(m.to);
    BackingCovered(m.ext.capacity, KEY_VALUE_SIZE);
    KeyValuesCovered(m.ext.items);
    BackingCovered(m.directedUsers.capacity, STRING_SIZE);
    TextsCovered(m.directedUsers.items);
  }

  lemma {:induction false} MetasCovered(metas: seq<Meta>)
    ensures MetasTotal(metas, Bytes) <= MetasTotal(metas, Charge)
    decreases |metas|
  {
    if metas != [] {
      MetasCovered(metas[..|metas| - 1]);
      MetaCovered(metas[|metas| - 1]);
    }
  }

  lemma SyncCovered(s: Sync)
    ensures SyncTotal(s, Bytes) <= SyncTotal(s, Charge) && SyncTotal(s, Charge) > 0
  {
    BackingCovered(s.metas.capacity, META_SIZE);
    MetasCovered(s.metas.items);
    if s.status.Some? {
      BackingCovered(s.status.value.redirects.capacity, REDIRECT_SIZE);
      TextsCovered(s.status.value.redirects.items);
    }
    if s.queue.Some? {
      JidCovered(s.queue.value);
    }
  }

  /** A batch is charged in whole pages, at least twice the bytes of all its allocations, and
      an accepted charge is one that neither batch budget can call an ownership error. */
  lemma WeightIsAdmissible(s: Sync)
    ensures Weight(s) % PAGE == 0 && Weight(s) >= PAGE
    ensures Weight(s) >= 2 * SyncTotal(s, Bytes)
    ensures Weight(s) <= MAX_WEIGHT ==>
      Admissible(Batch.CLIENT_BATCH_BUDGET, Weight(s)) && Admissible(Batch.PROCESS_BATCH_BUDGET, Weight(s))
  {
    SyncCovered(s);
    WholePages(SAFETY_FACTOR * SyncTotal(s, Charge));
  }

  lemma WholePages(value: nat)
    ensures RoundUp(value, PAGE) % PAGE == 0
  {
  }
}
