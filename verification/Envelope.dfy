/** The adapter in front of the native codec that removes the optional compression of an MSync
    envelope: it scans the outer message once and splices two of its fields. */
module Envelope {
  import opened Wire

  const COMPRESS_FIELD: nat := 4
  const PAYLOAD_FIELD: nat := 9
  const MAX_FIELDS: nat := 4096
  const MAX_FRAME: nat := 16 * 1024 * 1024

  /** A byte range of the scanned frame. */
  datatype Range = Range(start: nat, end: nat)

  datatype Scan = Scan(
    count: nat,
    hasCompression: bool, compression: nat, compressionRaw: Range,
    hasPayload: bool, payload: seq<byte>, payloadRaw: Range)

  const NOTHING: Scan := Scan(0, false, 0, Range(0, 0), false, [], Range(0, 0))

  /** What scanning remembers of one more field. */
  function Note(acc: Scan, number: nat, body: Body, range: Range): Scan {
    var acc' := acc.(count := acc.count + 1);
    if number == COMPRESS_FIELD then
      acc'.(hasCompression := true, compression := body.value, compressionRaw := range)
    else if number == PAYLOAD_FIELD then
      acc'.(hasPayload := true, payload := body.payload, payloadRaw := range)
    else acc'
  }

  /** Why the field with this number cannot be next. */
  predicate OverLimit(acc: Scan, number: nat) {
    || acc.count + 1 > MAX_FIELDS
    || (number == COMPRESS_FIELD && acc.hasCompression)
    || (number == PAYLOAD_FIELD && acc.hasPayload)
  }

  predicate RightType(number: nat, wire: nat) {
    && (number == COMPRESS_FIELD ==> wire == VARINT)
    && (number == PAYLOAD_FIELD ==> wire == BYTES)
  }

  /** One field scanned, and how many bytes it took. */
  datatype Progress = Progress(scan: Scan, used: nat)

  /** One round of the scan at the head of s, which starts at `offset` of the frame; check by
      check in the source's order. */
  function ScanField(s: seq<byte>, offset: nat, acc: Scan): (r: Result<Progress>)
    ensures r.Ok? ==> 0 < r.value.used <= |s|
  {
    var key :- ReadKey(s);
    if key.number == 0 then Err(ZeroNumber)
    else if OverLimit(acc, key.number) then Err(LimitExceeded)
    else
      var body :- ReadBody(s[key.used..], key.wire);
      if !RightType(key.number, key.wire) then Err(BadWireType)
      else
        var used := key.used + body.used;
        Ok(Progress(Note(acc, key.number, body, Range(offset, offset + used)), used))
  }

  /** Any way to scan one field: the scan of a frame does not depend on what a field is. */
  type FieldScanner = (seq<byte>, nat, Scan) -> Result<Progress>

  ghost predicate Advances(one: FieldScanner) {
    forall s, offset: nat, acc :: one(s, offset, acc).Ok? ==> 0 < one(s, offset, acc).value.used <= |s|
  }

  ghost function ScanWith(one: FieldScanner, s: seq<byte>, offset: nat, acc: Scan): Result<Scan>
    requires Advances(one)
    decreases |s|
  {
    if s == [] then Ok(acc)
    else
      var next :- one(s, offset, acc);
      ScanWith(one, s[next.used..], offset + next.used, next.scan)
  }

  function ScanFieldAt(): (one: FieldScanner)
    ensures Advances(one) && forall s, offset: nat, acc :: one(s, offset, acc) == ScanField(s, offset, acc)
  {
    (s: seq<byte>, offset: nat, acc: Scan) => ScanField(s, offset, acc)
  }

  ghost function ScanFrom(s: seq<byte>, offset: nat, acc: Scan): Result<Scan> {
    ScanWith(ScanFieldAt(), s, offset, acc)
  }

  ghost function ScanEnvelope(data: seq<byte>): Result<Scan> {
    ScanFrom(data, 0, NOTHING)
  }

  /** The body of the scanning loop. */
  method ScanOne(data: seq<byte>, start: nat, acc: Scan) returns (r: Result<Progress>)
    requires start < |data|
    ensures r == ScanField(data[start..], start, acc)
  {
    var key := ReadKeyAt(data, start);
    if key.Err? {
      return Err(key.error);
    }
    var Key(number, wire, used) := key.value;
    if number == 0 {
      return Err(ZeroNumber);
    }
    if acc.count + 1 > MAX_FIELDS {
      return Err(LimitExceeded);
    }
    if number == COMPRESS_FIELD && acc.hasCompression {
      return Err(LimitExceeded);
    }
    if number == PAYLOAD_FIELD && acc.hasPayload {
      return Err(LimitExceeded);
    }
    assert data[start..][used..] == data[start + used..];
    var body := ReadBody(data[start + used..], wire);
    if body.Err? {
      return Err(body.error);
    }
    if (number == COMPRESS_FIELD && wire != VARINT) || (number == PAYLOAD_FIELD && wire != BYTES) {
      return Err(BadWireType);
    }
    used := used + body.value.used;
    return Ok(Progress(Note(acc, number, body.value, Range(start, start + used)), used));
  }

  lemma SkipTwice(data: seq<byte>, offset: nat, used: nat)
    requires offset + used <= |data|
    ensures data[offset..][used..] == data[offset + used..]
  {
  }

  ghost predicate ScansFields(one: FieldScanner) {
    forall s, offset: nat, acc {:trigger ScanField(s, offset, acc)} :: one(s, offset, acc) == ScanField(s, offset, acc)
  }

  method ScanOneBy(data: seq<byte>, start: nat, acc: Scan, ghost one: FieldScanner) returns (r: Result<Progress>)
    requires start < |data| && ScansFields(one)
    ensures r == one(data[start..], start, acc)
  {
    r := ScanOne(data, start, acc);
  }

  /** The scanning loop: it walks offsets of the whole frame. */
  method ScanLoop(data: seq<byte>, ghost one: FieldScanner) returns (r: Result<Scan>)
    requires Advances(one) && ScansFields(one)
    ensures r == ScanWith(one, data, 0, NOTHING)
  {
    var result, offset := NOTHING, 0;
    ghost var whole := ScanWith(one, data, 0, NOTHING);
    assert data[0..] == data;
    while offset < |data|
      invariant offset <= |data| && whole == ScanWith(one, data[offset..], offset, result)
    {
      var next := ScanOneBy(data, offset, result, one);
      if next.Err? {
        return Err(next.error);
      }
      SkipTwice(data, offset, next.value.used);
      result, offset := next.value.scan, offset + next.value.used;
    }
    return Ok(result);
  }

  method ScanEnvelopeLoop(data: seq<byte>) returns (r: Result<Scan>)
    ensures r == ScanEnvelope(data)
  {
    r := ScanLoop(data, ScanFieldAt());
  }

  // ---- What a scan accepts and reports ------------------------------------------------------

  /** The index of the only field with this number, or the length when there is none. */
  function Find(fs: seq<Field>, number: nat): (i: nat)
    ensures i <= |fs|
    ensures i < |fs| ==> fs[i].number == number
    ensures forall k :: 0 <= k < i ==> fs[k].number != number
  {
    if fs == [] then 0
    else
      var i := Find(fs[..|fs| - 1], number);
      if i < |fs| - 1 || fs[|fs| - 1].number == number then i else |fs|
  }

  predicate Occurs(fs: seq<Field>, number: nat) {
    Find(fs, number) < |fs|
  }

  /** An envelope: few enough fields, none numbered 0, at most one compression marker and one
      payload, each of its proper type. */
  predicate Acceptable(fs: seq<Field>) {
    && |fs| <= MAX_FIELDS
    && (forall i :: 0 <= i < |fs| ==> fs[i].number != 0 && RightType(fs[i].number, fs[i].wire))
    && (forall i, j :: 0 <= i < j < |fs| && fs[i].number == fs[j].number ==>
          fs[i].number != COMPRESS_FIELD && fs[i].number != PAYLOAD_FIELD)
  }

  function RangeOf(fs: seq<Field>, i: nat): Range
    requires i < |fs|
  {
    Range(|Concat(fs[..i])|, |Concat(fs[..i])| + |fs[i].raw|)
  }

  predicate Describes(scan: Scan, fs: seq<Field>) {
    && scan.count == |fs|
    && scan.hasCompression == Occurs(fs, COMPRESS_FIELD)
    && scan.hasPayload == Occurs(fs, PAYLOAD_FIELD)
    && (scan.hasCompression ==>
          var i := Find(fs, COMPRESS_FIELD);
          scan.compression == fs[i].value && scan.compressionRaw == RangeOf(fs, i))
    && (scan.hasPayload ==>
          var i := Find(fs, PAYLOAD_FIELD);
          scan.payload == fs[i].payload && scan.payloadRaw == RangeOf(fs, i))
  }

  lemma FindAppended(fs: seq<Field>, f: Field, number: nat)
    ensures Find(fs + [f], number) ==
      if Find(fs, number) < |fs| || f.number == number then Find(fs, number) else |fs| + 1
  {
    assert (fs + [f])[..|fs|] == fs;
  }

  lemma RangeAppended(fs: seq<Field>, f: Field, i: nat)
    requires i <= |fs|
    ensures i < |fs| ==> RangeOf(fs + [f], i) == RangeOf(fs, i)
    ensures i == |fs| ==> RangeOf(fs + [f], i) == Range(|Concat(fs)|, |Concat(fs)| + |f.raw|)
  {
    assert (fs + [f])[..i] == fs[..i];
    assert fs[..|fs|] == fs;
  }

  lemma NoteDescribes(acc: Scan, fs: seq<Field>, f: Field, body: Body, range: Range)
    requires Describes(acc, fs) && !OverLimit(acc, f.number)
    requires body.value == f.value && body.payload == f.payload
    requires range == Range(|Concat(fs)|, |Concat(fs)| + |f.raw|)
    ensures Describes(Note(acc, f.number, body, range), fs + [f])
  {
    FindAppended(fs, f, COMPRESS_FIELD);
    FindAppended(fs, f, PAYLOAD_FIELD);
    RangeAppended(fs, f, Find(fs, COMPRESS_FIELD));
    RangeAppended(fs, f, Find(fs, PAYLOAD_FIELD));
  }

  lemma AcceptableAppended(fs: seq<Field>, f: Field, acc: Scan)
    requires Describes(acc, fs)
    ensures Acceptable(fs + [f]) <==>
      Acceptable(fs) && f.number != 0 && RightType(f.number, f.wire) && !OverLimit(acc, f.number)
  {
    var gs := fs + [f];
    assert gs[|fs|] == f && forall i :: 0 <= i < |fs| ==> gs[i] == fs[i];
    if Acceptable(gs) {
      assert forall i :: 0 <= i < |fs| ==> gs[i].number != gs[|fs|].number || (f.number != COMPRESS_FIELD && f.number != PAYLOAD_FIELD);
    }
  }

  /** A list that is not acceptable does not become so by growing. */
  lemma AcceptablePrefix(fs: seq<Field>, rest: seq<Field>)
    requires Acceptable(fs + rest)
    ensures Acceptable(fs)
  {
    assert forall i :: 0 <= i < |fs| ==> (fs + rest)[i] == fs[i];
  }

  /** One round accepts exactly a readable field that keeps the list acceptable. */
  lemma ScanFieldIsExact(s: seq<byte>, acc: Scan, before: seq<Field>)
    requires Describes(acc, before) && Acceptable(before)
    ensures var f := ReadField(s);
      var next := ScanField(s, |Concat(before)|, acc);
      && (next.Ok? <==> f.Ok? && Acceptable(before + [f.value]))
      && (next.Ok? ==> next.value.used == |f.value.raw| && Describes(next.value.scan, before + [f.value]))
  {
    if ReadField(s).Ok? {
      var f := ReadField(s).value;
      AcceptableAppended(before, f, acc);
      if ScanField(s, |Concat(before)|, acc).Ok? {
        var key := ReadKey(s).value;
        var start := |Concat(before)|;
        NoteDescribes(acc, before, f, ReadBody(s[key.used..], key.wire).value, Range(start, start + |f.raw|));
      }
    }
  }

  /** The scan succeeded exactly when the remaining fields were readable and all of them
      together form an envelope, which it then describes. */
  predicate Matches(scan: Result<Scan>, before: seq<Field>, rest: Result<seq<Field>>) {
    && (scan.Ok? <==> rest.Ok? && Acceptable(before + rest.value))
    && (scan.Ok? ==> Describes(scan.value, before + rest.value))
  }

  function Prepend(f: Field, rest: Result<seq<Field>>): Result<seq<Field>> {
    if rest.Ok? then Ok([f] + rest.value) else rest
  }

  lemma MatchesPrepended(scan: Result<Scan>, before: seq<Field>, f: Field, rest: Result<seq<Field>>)
    requires if Acceptable(before + [f]) then Matches(scan, before + [f], rest) else scan.Err?
    ensures Matches(scan, before, Prepend(f, rest))
  {
    if rest.Ok? {
      RegroupFields(before, f, rest.value);
    }
  }

  lemma {:induction false} ScanIsExactFrom(s: seq<byte>, acc: Scan, before: seq<Field>)
    requires Describes(acc, before) && Acceptable(before)
    ensures Matches(ScanFrom(s, |Concat(before)|, acc), before, ReadFields(s))
    decreases |s|
  {
    if s == [] {
      assert before + [] == before;
    } else {
      var scan := ScanFrom(s, |Concat(before)|, acc);
      ScanFieldIsExact(s, acc, before);
      if ReadField(s).Ok? {
        var f := ReadField(s).value;
        var tail := s[|f.raw|..];
        LengthAppended(before, f);
        if Acceptable(before + [f]) {
          ScanIsExactFrom(tail, ScanField(s, |Concat(before)|, acc).value.scan, before + [f]);
        }
        MatchesPrepended(scan, before, f, ReadFields(tail));
        assert ReadFields(s) == Prepend(f, ReadFields(tail));
      }
    }
  }

  lemma LengthAppended(before: seq<Field>, f: Field)
    ensures |Concat(before + [f])| == |Concat(before)| + |f.raw|
  {
    ConcatAppends(before, [f]);
    assert [f][1..] == [];
  }

  lemma RegroupFields(before: seq<Field>, f: Field, rest: seq<Field>)
    ensures before + ([f] + rest) == before + [f] + rest
    ensures Acceptable(before + ([f] + rest)) ==> Acceptable(before + [f])
  {
    assert before + ([f] + rest) == before + [f] + rest;
    if Acceptable(before + ([f] + rest)) {
      AcceptablePrefix(before + [f], rest);
    }
  }

  /** The scan accepts exactly the frames whose fields can all be read and form an envelope,
      and then reports where the two fields are and what they hold. */
  lemma ScanIsExact(data: seq<byte>)
    ensures ScanEnvelope(data).Ok? <==> ReadFields(data).Ok? && Acceptable(ReadFields(data).value)
    ensures ScanEnvelope(data).Ok? ==> Describes(ScanEnvelope(data).value, ReadFields(data).value)
  {
    ScanIsExactFrom(data, NOTHING, []);
    if ReadFields(data).Ok? {
      assert [] + ReadFields(data).value == ReadFields(data).value;
    }
  }
}
