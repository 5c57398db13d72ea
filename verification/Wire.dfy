/** The protobuf wire format as the envelope adapter reads and writes it: base-128 varints and
    the fields of a message ("Base 128 Varints" and "Message Structure" of the Protocol
    Buffers "Encoding" document). */
module Wire {
  import opened Common

  type byte = x: int | 0 <= x < 256

  datatype WireError = Truncated | VarintOverflow | ZeroNumber | BadWireType | LimitExceeded | Unusable

  datatype Result<+T> = Ok(value: T) | Err(error: WireError) {
    predicate IsFailure() { Err? }
    function PropagateFailure<U>(): Result<U> requires Err? { Err(error) }
    function Extract(): T requires Ok? { value }
  }

  // ---- Varints ----------------------------------------------------------------------------

  /** A decoded varint and the number of bytes it took. */
  datatype Decoded = Decoded(value: nat, used: nat)

  /** Decodes the i-th and later groups of a varint at the head of s, least significant first.
      Encodings longer than necessary are accepted; the tenth byte may only be 0 or 1. */
  function ReadFrom(s: seq<byte>, i: nat): (r: Result<Decoded>)
    requires i <= 9
    ensures r.Ok? ==> 1 <= r.value.used <= |s| && r.value.used + i <= 10
    decreases |s|
  {
    if s == [] then Err(Truncated)
    else if i == 9 && s[0] > 1 then Err(VarintOverflow)
    else if s[0] < 128 then Ok(Decoded(s[0], 1))
    else
      var rest :- ReadFrom(s[1..], i + 1);
      Ok(Decoded(s[0] - 128 + 128 * rest.value, 1 + rest.used))
  }

  function ReadVarint(s: seq<byte>): Result<Decoded> {
    ReadFrom(s, 0)
  }

  function Varint(v: nat): (s: seq<byte>)
    ensures |s| >= 1
  {
    if v < 128 then [v] else [v % 128 + 128] + Varint(v / 128)
  }

  /** What the groups from the i-th on can hold: 2^(64 - 7i). */
  ghost function Capacity(i: nat): nat
    requires i <= 9
    decreases 9 - i
  {
    if i == 9 then 2 else 128 * Capacity(i + 1)
  }

  lemma CapacityIsUint64()
    ensures Capacity(0) == MAX_UINT64 + 1
  {
    assert Capacity(8) == 128 * 2;
    assert Capacity(6) == 128 * (128 * Capacity(8));
    assert Capacity(4) == 128 * (128 * Capacity(6));
    assert Capacity(2) == 128 * (128 * Capacity(4));
    assert Capacity(0) == 128 * (128 * Capacity(2));
  }

  /** Decoding undoes encoding, whatever follows. */
  lemma {:induction false} VarintRoundTrip(v: nat, tail: seq<byte>, i: nat)
    requires i <= 9 && v < Capacity(i)
    ensures ReadFrom(Varint(v) + tail, i) == Ok(Decoded(v, |Varint(v)|))
    decreases v
  {
    if v >= 128 {
      VarintRoundTrip(v / 128, tail, i + 1);
      assert (Varint(v) + tail)[1..] == Varint(v / 128) + tail;
    }
  }

  lemma Uint64RoundTrip(v: nat, tail: seq<byte>)
    requires v <= MAX_UINT64
    ensures ReadVarint(Varint(v) + tail) == Ok(Decoded(v, |Varint(v)|))
  {
    CapacityIsUint64();
    VarintRoundTrip(v, tail, 0);
  }

  /** A decoded value fits 64 bits, so the source's shifts lose nothing. */
  lemma {:induction false} ReadFits(s: seq<byte>, i: nat)
    requires i <= 9 && ReadFrom(s, i).Ok?
    ensures ReadFrom(s, i).value.value < Capacity(i)
    decreases 9 - i
  {
    if s[0] >= 128 {
      ReadFits(s[1..], i + 1);
    } else {
      CapacityGrows(i);
    }
  }

  lemma {:induction false} CapacityGrows(i: nat)
    requires i <= 9
    ensures Capacity(i) >= 2 && (i < 9 ==> Capacity(i) >= 256)
    decreases 9 - i
  {
    if i < 9 {
      CapacityGrows(i + 1);
    }
  }

  /** A varint decodes from its own bytes alone. */
  lemma {:induction false} ReadIsLocal(s: seq<byte>, tail: seq<byte>, i: nat)
    requires i <= 9 && ReadFrom(s, i).Ok?
    ensures ReadFrom(s[..ReadFrom(s, i).value.used] + tail, i) == ReadFrom(s, i)
    decreases 9 - i
  {
    if s[0] >= 128 {
      var n := ReadFrom(s, i).value.used;
      ReadIsLocal(s[1..], tail, i + 1);
      assert (s[..n] + tail)[1..] == s[1..][..n - 1] + tail;
    }
  }

  /** What decoding yields when groups worth `value` have been read, the next one counts
      `scale`, and `rest` is what the remaining groups decode to. */
  ghost function Resumed(value: nat, scale: nat, i: nat, rest: Result<Decoded>): Result<Decoded> {
    match rest
    case Ok(d) => Ok(Decoded(value + scale * d.value, i + d.used))
    case Err(e) => Err(e)
  }

  lemma ResumeStep(value: nat, scale: nat, i: nat, s: seq<byte>, group: nat)
    requires i <= 9 && s != [] && !(i == 9 && s[0] > 1) && group == s[0] % 128
    ensures scale * group >= 0
    ensures s[0] < 128 ==> Resumed(value, scale, i, ReadFrom(s, i)) == Ok(Decoded(value + scale * group, i + 1))
    ensures s[0] >= 128 ==>
      Resumed(value, scale, i, ReadFrom(s, i)) == Resumed(value + scale * group, 128 * scale, i + 1, ReadFrom(s[1..], i + 1))
  {
    if s[0] >= 128 && ReadFrom(s[1..], i + 1).Ok? {
      Distribute(scale, group, ReadFrom(s[1..], i + 1).value.value);
    }
  }

  lemma Distribute(a: int, c: int, v: int)
    ensures a * (c + 128 * v) == a * c + 128 * a * v
  {
    assert a * (c + 128 * v) == a * c + a * (128 * v);
    assert a * (128 * v) == 128 * a * v;
  }

  /** The decoding loop; `scale` is the weight of the next group, the source's shift by 7i. */
  method ReadVarintAt(data: seq<byte>, start: nat) returns (r: Result<Decoded>)
    requires start <= |data|
    ensures r == ReadVarint(data[start..])
  {
    var value: nat, scale: nat, offset, i := 0, 1, start, 0;
    while i < 10
      invariant i <= 9 && start <= offset <= |data| && offset == start + i
      invariant ReadVarint(data[start..]) == Resumed(value, scale, i, ReadFrom(data[offset..], i))
      decreases 10 - i
    {
      if offset >= |data| {
        return Err(Truncated);
      }
      var b := data[offset];
      if i == 9 && b > 1 {
        return Err(VarintOverflow);
      }
      var group := b % 128;
      ResumeStep(value, scale, i, data[offset..], group);
      assert data[offset..][1..] == data[offset + 1..];
      value := value + scale * group;
      offset := offset + 1;
      if b < 128 {
        return Ok(Decoded(value, offset - start));
      }
      scale, i := 128 * scale, i + 1;
    }
    return Err(VarintOverflow);
  }

  method AppendVarint(dst: seq<byte>, value: nat) returns (out: seq<byte>)
    ensures out == dst + Varint(value)
  {
    out := dst;
    var x := value;
    while x >= 128
      invariant out + Varint(x) == dst + Varint(value)
    {
      assert out + Varint(x) == (out + [x % 128 + 128]) + Varint(x / 128);
      out := out + [x % 128 + 128];
      x := x / 128;
    }
    out := out + [x];
  }

  // ---- Fields -----------------------------------------------------------------------------

  const VARINT: nat := 0
  const FIXED64: nat := 1
  const BYTES: nat := 2
  const FIXED32: nat := 5

  /** One field of a message with the exact bytes it was read from. */
  datatype Field = Field(number: nat, wire: nat, value: nat, payload: seq<byte>, raw: seq<byte>)

  /** A field's tag: its number and wire type, and the bytes they took. */
  datatype Key = Key(number: nat, wire: nat, used: nat)

  function KeyFrom(tag: Decoded): Key {
    Key(tag.value / 8, tag.value % 8, tag.used)
  }

  function ReadKey(s: seq<byte>): (r: Result<Key>)
    ensures r.Ok? ==> 1 <= r.value.used <= |s|
  {
    var tag :- ReadVarint(s);
    Ok(KeyFrom(tag))
  }

  method ReadKeyAt(data: seq<byte>, start: nat) returns (r: Result<Key>)
    requires start <= |data|
    ensures r == ReadKey(data[start..])
  {
    var tag := ReadVarintAt(data, start);
    if tag.Err? {
      return Err(tag.error);
    }
    return Ok(KeyFrom(tag.value));
  }

  /** The part of a field after its tag. */
  datatype Body = Body(value: nat, payload: seq<byte>, used: nat)

  function ReadBody(s: seq<byte>, wire: nat): (r: Result<Body>)
    ensures r.Ok? ==> r.value.used <= |s|
  {
    if wire == VARINT then
      var v :- ReadVarint(s);
      Ok(Body(v.value, [], v.used))
    else if wire == FIXED64 then
      if |s| < 8 then Err(Truncated) else Ok(Body(0, [], 8))
    else if wire == BYTES then
      var n :- ReadVarint(s);
      if n.value > |s| - n.used then Err(Truncated)
      else Ok(Body(0, s[n.used..n.used + n.value], n.used + n.value))
    else if wire == FIXED32 then
      if |s| < 4 then Err(Truncated) else Ok(Body(0, [], 4))
    else Err(BadWireType)
  }

  function ReadField(s: seq<byte>): (r: Result<Field>)
    ensures r.Ok? ==> 1 <= |r.value.raw| <= |s| && r.value.raw == s[..|r.value.raw|]
  {
    var key :- ReadKey(s);
    var body :- ReadBody(s[key.used..], key.wire);
    Ok(Field(key.number, key.wire, body.value, body.payload, s[..key.used + body.used]))
  }

  /** All fields of a message. */
  function ReadFields(s: seq<byte>): Result<seq<Field>>
    decreases |s|
  {
    if s == [] then Ok([])
    else
      var f :- ReadField(s);
      var rest :- ReadFields(s[|f.raw|..]);
      Ok([f] + rest)
  }

  /** The bytes of a list of fields. */
  function Concat(fs: seq<Field>): seq<byte> {
    if fs == [] then [] else fs[0].raw + Concat(fs[1..])
  }

  /** A field that reads back from its own bytes. */
  predicate Stable(f: Field) {
    f.raw != [] && ReadField(f.raw) == Ok(f)
  }

  lemma ReadBodyIsLocal(s: seq<byte>, wire: nat, tail: seq<byte>)
    requires ReadBody(s, wire).Ok?
    ensures ReadBody(s[..ReadBody(s, wire).value.used] + tail, wire) == ReadBody(s, wire)
  {
    if wire == VARINT {
      ReadIsLocal(s, tail, 0);
    } else if wire == BYTES {
      var n := ReadVarint(s).value;
      var m := n.used + n.value;
      ReadIsLocal(s, s[n.used..m] + tail, 0);
      assert s[..n.used] + (s[n.used..m] + tail) == s[..m] + tail;
      assert (s[..m] + tail)[n.used..m] == s[n.used..m];
    }
  }

  /** A field reads the same whatever follows it. */
  lemma ReadFieldIsLocal(s: seq<byte>, tail: seq<byte>)
    requires ReadField(s).Ok?
    ensures ReadField(ReadField(s).value.raw + tail) == ReadField(s)
  {
    var key := ReadKey(s).value;
    var rest := s[key.used..];
    var body := ReadBody(rest, key.wire).value;
    var whole := s[..key.used + body.used] + tail;
    ReadIsLocal(s, rest[..body.used] + tail, 0);
    assert s[..key.used] + (rest[..body.used] + tail) == whole;
    ReadBodyIsLocal(rest, key.wire, tail);
    assert whole[key.used..] == rest[..body.used] + tail;
    assert whole[..key.used + body.used] == s[..key.used + body.used];
  }

  lemma ReadFieldIsStable(s: seq<byte>)
    requires ReadField(s).Ok?
    ensures Stable(ReadField(s).value)
  {
    ReadFieldIsLocal(s, []);
    assert ReadField(s).value.raw + [] == ReadField(s).value.raw;
  }

  /** Reading a message loses no byte, and every field it yields reads back on its own. */
  lemma {:induction false} ReadFieldsIsExact(s: seq<byte>)
    requires ReadFields(s).Ok?
    ensures Concat(ReadFields(s).value) == s
    ensures forall i :: 0 <= i < |ReadFields(s).value| ==> Stable(ReadFields(s).value[i])
    decreases |s|
  {
    if s != [] {
      var f := ReadField(s).value;
      ReadFieldIsStable(s);
      ReadFieldsIsExact(s[|f.raw|..]);
    }
  }

  /** Writing any list of readable fields and reading it back is the identity. */
  lemma {:induction false} ConcatReadsBack(fs: seq<Field>)
    requires forall i :: 0 <= i < |fs| ==> Stable(fs[i])
    ensures ReadFields(Concat(fs)) == Ok(fs)
    decreases |fs|
  {
    if fs != [] {
      ReadFieldIsLocal(fs[0].raw, Concat(fs[1..]));
      ConcatReadsBack(fs[1..]);
      assert Concat(fs)[|fs[0].raw|..] == Concat(fs[1..]);
      assert [fs[0]] + fs[1..] == fs;
    }
  }

  lemma {:induction false} ConcatAppends(a: seq<Field>, b: seq<Field>)
    ensures Concat(a + b) == Concat(a) + Concat(b)
    decreases |a|
  {
    if a == [] {
      assert a + b == b;
    } else {
      ConcatAppends(a[1..], b);
      assert (a + b)[1..] == a[1..] + b;
    }
  }

  function Tag(number: nat, wire: nat): nat { number * 8 + wire }

  function BytesField(number: nat, payload: seq<byte>): Field {
    Field(number, BYTES, 0, payload, Varint(Tag(number, BYTES)) + (Varint(|payload|) + payload))
  }

  function VarintField(number: nat, value: nat): Field {
    Field(number, VARINT, value, [], Varint(Tag(number, VARINT)) + Varint(value))
  }

  lemma BytesBodyReadsBack(payload: seq<byte>)
    requires |payload| <= MAX_UINT64
    ensures ReadBody(Varint(|payload|) + payload, BYTES) == Ok(Body(0, payload, |Varint(|payload|) + payload|))
  {
    var size := Varint(|payload|);
    Uint64RoundTrip(|payload|, payload);
    assert (size + payload)[|size|..|size| + |payload|] == payload;
  }

  lemma TagParts(number: nat, wire: nat)
    requires wire < 8
    ensures Tag(number, wire) / 8 == number && Tag(number, wire) % 8 == wire
  {
  }

  lemma BytesFieldIsStable(number: nat, payload: seq<byte>)
    requires Tag(number, BYTES) <= MAX_UINT64 && |payload| <= MAX_UINT64
    ensures Stable(BytesField(number, payload))
  {
    var rest := Varint(|payload|) + payload;
    TagParts(number, BYTES);
    BytesBodyReadsBack(payload);
    WholeFieldReadsBack(Tag(number, BYTES), rest, Body(0, payload, |rest|));
  }

  lemma KeyReadsBack(tag: nat, rest: seq<byte>)
    requires tag <= MAX_UINT64
    ensures ReadKey(Varint(tag) + rest) == Ok(Key(tag / 8, tag % 8, |Varint(tag)|))
  {
    Uint64RoundTrip(tag, rest);
  }

  /** A field made of a key and a body that use up all of s. */
  lemma FieldFromParts(s: seq<byte>, key: Key, rest: seq<byte>, body: Body)
    requires ReadKey(s) == Ok(key) && s[key.used..] == rest && ReadBody(rest, key.wire) == Ok(body) && key.used + body.used == |s|
    ensures ReadField(s) == Ok(Field(key.number, key.wire, body.value, body.payload, s))
  {
    assert s[..|s|] == s;
  }

  lemma WholeFieldReadsBack(tag: nat, rest: seq<byte>, body: Body)
    requires tag <= MAX_UINT64 && ReadBody(rest, tag % 8) == Ok(body) && body.used == |rest|
    ensures ReadField(Varint(tag) + rest) == Ok(Field(tag / 8, tag % 8, body.value, body.payload, Varint(tag) + rest))
  {
    KeyReadsBack(tag, rest);
    FieldFromParts(Varint(tag) + rest, Key(tag / 8, tag % 8, |Varint(tag)|), rest, body);
  }

  lemma VarintFieldIsStable(number: nat, value: nat)
    requires Tag(number, VARINT) <= MAX_UINT64 && value <= MAX_UINT64
    ensures Stable(VarintField(number, value))
  {
    TagParts(number, VARINT);
    Uint64RoundTrip(value, []);
    assert Varint(value) + [] == Varint(value);
    WholeFieldReadsBack(Tag(number, VARINT), Varint(value), Body(value, [], |Varint(value)|));
  }
}
