/** Which allocations the weight of a batch counts, field by field: how the total before doubling
    and rounding moves with each length and capacity of the decoded structures. */
module WeightFields {
  import opened Common
  import opened RetainedWeight

  ghost function Total(s: Sync): int {
    SyncTotal(s, Charge)
  }

  // ---- Parts of a batch ---------------------------------------------------------------------------

  lemma JidMoves(j: JID, n: Len)
    ensures JidTotal(j.(appKey := n), Charge) - JidTotal(j, Charge) == Charge(n) - Charge(j.appKey)
    ensures JidTotal(j.(name := n), Charge) - JidTotal(j, Charge) == Charge(n) - Charge(j.name)
    ensures JidTotal(j.(domain := n), Charge) - JidTotal(j, Charge) == Charge(n) - Charge(j.domain)
    ensures JidTotal(j.(resource := n), Charge) - JidTotal(j, Charge) == Charge(n) - Charge(j.resource)
  {
  }

  lemma {:induction false} TextMoves(texts: seq<Len>, i: nat, n: Len)
    requires i < |texts|
    ensures TextsTotal(texts[i := n], Charge) - TextsTotal(texts, Charge) == Charge(n) - Charge(texts[i])
    decreases |texts|
  {
    var before := texts[..|texts| - 1];
    if i < |texts| - 1 {
      TextMoves(before, i, n);
      assert texts[i := n][..|texts| - 1] == before[i := n];
    } else {
      assert texts[i := n][..|texts| - 1] == before;
    }
  }

  lemma {:induction false} KeyValueMoves(items: seq<KeyValue>, i: nat, kv: KeyValue)
    requires i < |items|
    ensures KeyValuesTotal(items[i := kv], Charge) - KeyValuesTotal(items, Charge) ==
      Charge(kv.key) + Charge(kv.text) - Charge(items[i].key) - Charge(items[i].text)
    decreases |items|
  {
    var before := items[..|items| - 1];
    if i < |items| - 1 {
      KeyValueMoves(before, i, kv);
      assert items[i := kv][..|items| - 1] == before[i := kv];
    } else {
      assert items[i := kv][..|items| - 1] == before;
    }
  }

  lemma {:induction false} MetaMoves(metas: seq<Meta>, i: nat, m: Meta)
    requires i < |metas|
    ensures MetasTotal(metas[i := m], Charge) - MetasTotal(metas, Charge) == MetaTotal(m, Charge) - MetaTotal(metas[i], Charge)
    decreases |metas|
  {
    var before := metas[..|metas| - 1];
    if i < |metas| - 1 {
      MetaMoves(before, i, m);
      assert metas[i := m][..|metas| - 1] == before[i := m];
    } else {
      assert metas[i := m][..|metas| - 1] == before;
    }
  }

  /** The batch with its i-th message entry replaced. */
  function WithMeta(s: Sync, i: nat, m: Meta): Sync
    requires i < |s.metas.items|
  {
    s.(metas := s.metas.(items := s.metas.items[i := m]))
  }

  lemma WithMetaMoves(s: Sync, i: nat, m: Meta)
    requires i < |s.metas.items|
    ensures Total(WithMeta(s, i, m)) - Total(s) == MetaTotal(m, Charge) - MetaTotal(s.metas.items[i], Charge)
  {
    MetaMoves(s.metas.items, i, m);
  }

  // ---- Message entries ----------------------------------------------------------------------------

  /** The total moves by exactly the difference of the charges when one allocation of a message
      entry changes from `a` to `b` bytes. */
  ghost predicate Charged(s: Sync, i: nat, m: Meta, a: nat, b: nat)
    requires i < |s.metas.items|
  {
    Total(WithMeta(s, i, m)) - Total(s) == Charge(b) - Charge(a)
  }

  lemma MetaLengthsAreCharged(s: Sync, i: nat, n: Len)
    requires i < |s.metas.items|
    ensures var m := s.metas.items[i];
      && Charged(s, i, m.(payload := n), m.payload, n)
      && Charged(s, i, m.(attributes := n), m.attributes, n)
      && Charged(s, i, m.(environment := n), m.environment, n)
      && Charged(s, i, m.(ext := m.ext.(capacity := n)), m.ext.capacity * KEY_VALUE_SIZE, n * KEY_VALUE_SIZE)
      && Charged(s, i, m.(directedUsers := m.directedUsers.(capacity := n)), m.directedUsers.capacity * STRING_SIZE, n * STRING_SIZE)
  {
    var m := s.metas.items[i];
    WithMetaMoves(s, i, m.(payload := n));
    WithMetaMoves(s, i, m.(attributes := n));
    WithMetaMoves(s, i, m.(environment := n));
    WithMetaMoves(s, i, m.(ext := m.ext.(capacity := n)));
    WithMetaMoves(s, i, m.(directedUsers := m.directedUsers.(capacity := n)));
  }

  lemma MetaIdentitiesAreCharged(s: Sync, i: nat, n: Len)
    requires i < |s.metas.items|
    ensures var m := s.metas.items[i];
      && Charged(s, i, m.(from := m.from.(appKey := n)), m.from.appKey, n)
      && Charged(s, i, m.(from := m.from.(name := n)), m.from.name, n)
      && Charged(s, i, m.(from := m.from.(domain := n)), m.from.domain, n)
      && Charged(s, i, m.(from := m.from.(resource := n)), m.from.resource, n)
      && Charged(s, i, m.(to := m.to.(appKey := n)), m.to.appKey, n)
      && Charged(s, i, m.(to := m.to.(name := n)), m.to.name, n)
      && Charged(s, i, m.(to := m.to.(domain := n)), m.to.domain, n)
      && Charged(s, i, m.(to := m.to.(resource := n)), m.to.resource, n)
  {
    var m := s.metas.items[i];
    JidMoves(m.from, n);
    JidMoves(m.to, n);
    FromMoves(s, i, m.from.(appKey := n));
    FromMoves(s, i, m.from.(name := n));
    FromMoves(s, i, m.from.(domain := n));
    FromMoves(s, i, m.from.(resource := n));
    ToMoves(s, i, m.to.(appKey := n));
    ToMoves(s, i, m.to.(name := n));
    ToMoves(s, i, m.to.(domain := n));
    ToMoves(s, i, m.to.(resource := n));
  }

  lemma FromMoves(s: Sync, i: nat, j: JID)
    requires i < |s.metas.items|
    ensures var m := s.metas.items[i];
      Total(WithMeta(s, i, m.(from := j))) - Total(s) == JidTotal(j, Charge) - JidTotal(m.from, Charge)
  {
    WithMetaMoves(s, i, s.metas.items[i].(from := j));
  }

  lemma ToMoves(s: Sync, i: nat, j: JID)
    requires i < |s.metas.items|
    ensures var m := s.metas.items[i];
      Total(WithMeta(s, i, m.(to := j))) - Total(s) == JidTotal(j, Charge) - JidTotal(m.to, Charge)
  {
    WithMetaMoves(s, i, s.metas.items[i].(to := j));
  }

  lemma MetaListsAreCharged(s: Sync, i: nat, x: nat, n: Len)
    requires i < |s.metas.items|
    ensures var m := s.metas.items[i];
      x < |m.ext.items| ==>
        var kv := m.ext.items[x];
        && Charged(s, i, m.(ext := m.ext.(items := m.ext.items[x := kv.(key := n)])), kv.key, n)
        && Charged(s, i, m.(ext := m.ext.(items := m.ext.items[x := kv.(text := n)])), kv.text, n)
    ensures var m := s.metas.items[i];
      x < |m.directedUsers.items| ==>
        Charged(s, i, m.(directedUsers := m.directedUsers.(items := m.directedUsers.items[x := n])), m.directedUsers.items[x], n)
  {
    var m := s.metas.items[i];
    if x < |m.ext.items| {
      var kv := m.ext.items[x];
      KeyValueMoves(m.ext.items, x, kv.(key := n));
      KeyValueMoves(m.ext.items, x, kv.(text := n));
      WithMetaMoves(s, i, m.(ext := m.ext.(items := m.ext.items[x := kv.(key := n)])));
      WithMetaMoves(s, i, m.(ext := m.ext.(items := m.ext.items[x := kv.(text := n)])));
    }
    if x < |m.directedUsers.items| {
      TextMoves(m.directedUsers.items, x, n);
      WithMetaMoves(s, i, m.(directedUsers := m.directedUsers.(items := m.directedUsers.items[x := n])));
    }
  }

  // ---- The rest of a batch ------------------------------------------------------------------------

  lemma StatusIsCharged(s: Sync, x: nat, n: Len)
    requires s.status.Some?
    ensures var t := s.status.value;
      && Total(s.(status := Some(t.(reason := n)))) - Total(s) == Charge(n) - Charge(t.reason)
      && Total(s.(status := Some(t.(redirects := t.redirects.(capacity := n))))) - Total(s) ==
           Charge(n * REDIRECT_SIZE) - Charge(t.redirects.capacity * REDIRECT_SIZE)
      && (x < |t.redirects.items| ==>
            Total(s.(status := Some(t.(redirects := t.redirects.(items := t.redirects.items[x := n]))))) - Total(s) ==
              Charge(n) - Charge(t.redirects.items[x]))
    ensures Total(s) - Total(s.(status := None)) >= Charge(STATUS_SIZE)
  {
    if x < |s.status.value.redirects.items| {
      TextMoves(s.status.value.redirects.items, x, n);
    }
  }

  lemma QueueIsCharged(s: Sync, n: Len)
    requires s.queue.Some?
    ensures var j := s.queue.value;
      && Total(s.(queue := Some(j.(appKey := n)))) - Total(s) == Charge(n) - Charge(j.appKey)
      && Total(s.(queue := Some(j.(name := n)))) - Total(s) == Charge(n) - Charge(j.name)
      && Total(s.(queue := Some(j.(domain := n)))) - Total(s) == Charge(n) - Charge(j.domain)
      && Total(s.(queue := Some(j.(resource := n)))) - Total(s) == Charge(n) - Charge(j.resource)
  {
    JidMoves(s.queue.value, n);
  }

  lemma MetasCapacityIsCharged(s: Sync, n: Len)
    ensures Total(s.(metas := s.metas.(capacity := n))) - Total(s) == Charge(n * META_SIZE) - Charge(s.metas.capacity * META_SIZE)
  {
  }

  // ---- The empty batch ----------------------------------------------------------------------------

  predicate BlankJid(j: JID) {
    j.appKey == 0 && j.name == 0 && j.domain == 0 && j.resource == 0
  }

  predicate BlankTexts(texts: Slice<Len>) {
    texts.capacity == 0 && forall i :: 0 <= i < |texts.items| ==> texts.items[i] == 0
  }

  predicate BlankMeta(m: Meta) {
    && m.payload == 0 && m.attributes == 0 && m.environment == 0 && BlankJid(m.from) && BlankJid(m.to)
    && m.ext.capacity == 0 && (forall i :: 0 <= i < |m.ext.items| ==> m.ext.items[i] == KeyValue(0, 0))
    && BlankTexts(m.directedUsers)
  }

  /** Every length and capacity is zero. */
  predicate Blank(s: Sync) {
    && (s.status.Some? ==> s.status.value.reason == 0 && BlankTexts(s.status.value.redirects))
    && (s.queue.Some? ==> BlankJid(s.queue.value))
    && s.metas.capacity == 0 && (forall i :: 0 <= i < |s.metas.items| ==> BlankMeta(s.metas.items[i]))
  }

  lemma {:induction false} BlankTextsCostNothing(texts: seq<Len>)
    requires forall i :: 0 <= i < |texts| ==> texts[i] == 0
    ensures TextsTotal(texts, Charge) == 0
    decreases |texts|
  {
    if texts != [] {
      BlankTextsCostNothing(texts[..|texts| - 1]);
    }
  }

  lemma {:induction false} BlankKeyValuesCostNothing(items: seq<KeyValue>)
    requires forall i :: 0 <= i < |items| ==> items[i] == KeyValue(0, 0)
    ensures KeyValuesTotal(items, Charge) == 0
    decreases |items|
  {
    if items != [] {
      BlankKeyValuesCostNothing(items[..|items| - 1]);
    }
  }

  lemma {:induction false} BlankMetasCostNothing(metas: seq<Meta>)
    requires forall i :: 0 <= i < |metas| ==> BlankMeta(metas[i])
    ensures MetasTotal(metas, Charge) == 0
    decreases |metas|
  {
    if metas != [] {
      var m := metas[|metas| - 1];
      BlankMetasCostNothing(metas[..|metas| - 1]);
      BlankKeyValuesCostNothing(m.ext.items);
      BlankTextsCostNothing(m.directedUsers.items);
    }
  }

  /** A batch whose lengths and capacities are all zero costs its structures and nothing else. */
  lemma BlankBatchCosts(s: Sync)
    requires Blank(s)
    ensures Total(s) == Charge(SYNC_SIZE) + (if s.status.Some? then Charge(STATUS_SIZE) else 0) + (if s.queue.Some? then Charge(JID_SIZE) else 0)
  {
    BlankMetasCostNothing(s.metas.items);
    if s.status.Some? {
      BlankTextsCostNothing(s.status.value.redirects.items);
    }
  }

  /** What one allocation is charged: its size in whole blocks of 128 bytes and 16 bytes more. */
  lemma ChargeIsExact(size: nat)
    ensures Charge(0) == 0
    ensures size > 0 ==> size + OVERHEAD <= Charge(size) < size + OVERHEAD + QUANTUM && (Charge(size) - OVERHEAD) % QUANTUM == 0
  {
  }

  /** The weight of a batch: twice the total, in whole pages. */
  lemma WeightFollowsTotal(s: Sync)
    ensures SAFETY_FACTOR * Total(s) <= Weight(s) < SAFETY_FACTOR * Total(s) + PAGE && Weight(s) % PAGE == 0
  {
    WholePages(SAFETY_FACTOR * Total(s));
  }
}
