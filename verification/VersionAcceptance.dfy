/** Which messages and frames get the provision version, and what becomes of each of them. */
module VersionAcceptance {
  import opened Wire
  import opened Envelope
  import opened EnvelopeRewrite
  import opened ProvisionAction

  /** Readable fields none of which is the version. */
  ghost predicate Plain(fs: seq<Field>) {
    forall i :: 0 <= i < |fs| ==> Stable(fs[i]) && fs[i].number != VERSION_FIELD
  }

  /** Fields before the version are passed over and kept. */
  lemma {:induction false} UpsertSkips(fs: seq<Field>, rest: seq<byte>)
    requires Plain(fs)
    ensures Upsert(Concat(fs) + rest) == Keep(Concat(fs), Upsert(rest))
    decreases |fs|
  {
    if fs == [] {
      assert Concat(fs) + rest == rest;
      KeepNothing(Upsert(rest));
    } else {
      var f, tail := fs[0], Concat(fs[1..]);
      UpsertSkips(fs[1..], rest);
      SkipField(f, tail, rest);
      KeepTwice(f.raw, tail, Upsert(rest));
    }
  }

  lemma SkipField(f: Field, tail: seq<byte>, rest: seq<byte>)
    requires Stable(f) && f.number != VERSION_FIELD
    ensures Upsert(f.raw + tail + rest) == Keep(f.raw, Upsert(tail + rest))
  {
    var s := f.raw + tail + rest;
    assert s == f.raw + (tail + rest);
    ReadFieldIsLocal(f.raw, tail + rest);
    assert s[|f.raw|..] == tail + rest;
  }

  /** What becomes of a message that starts with plain fields and goes on with `rest`. */
  function Decided(before: seq<byte>, rest: seq<byte>): Result<Upserted> {
    if rest == [] then Ok(Upserted(before + VERSION_RECORD.raw, true))
    else
      var f :- ReadField(rest);
      if f.wire != BYTES then Err(BadWireType)
      else if f.payload == VERSION then Ok(Upserted(before + rest, false))
      else Ok(Upserted(before + (VERSION_RECORD.raw + rest[|f.raw|..]), true))
  }

  /** Every message is plain fields followed by nothing, by something unreadable, or by a version
      field. */
  ghost predicate Stops(rest: seq<byte>) {
    rest == [] || ReadField(rest).Err? || ReadField(rest).value.number == VERSION_FIELD
  }

  lemma ConcatCons(f: Field, fs: seq<Field>, rest: seq<byte>)
    ensures Concat([f] + fs) + rest == f.raw + (Concat(fs) + rest)
  {
    assert ([f] + fs)[1..] == fs;
  }

  lemma HeadAndTail(s: seq<byte>)
    requires ReadField(s).Ok?
    ensures var raw := ReadField(s).value.raw; 1 <= |raw| <= |s| && s == raw + s[|raw|..]
  {
  }

  lemma {:induction false} MessageSplits(s: seq<byte>) returns (fs: seq<Field>, rest: seq<byte>)
    ensures Plain(fs) && s == Concat(fs) + rest && Stops(rest)
    decreases |s|
  {
    if Stops(s) {
      fs, rest := [], s;
      assert s == Concat([]) + s;
    } else {
      var f := ReadField(s).value;
      HeadAndTail(s);
      ReadFieldIsStable(s);
      var tail;
      tail, rest := MessageSplits(s[|f.raw|..]);
      ConcatCons(f, tail, rest);
      fs := [f] + tail;
    }
  }

  /** What the upsert does with every message: the version is appended when there is none, and
      otherwise the first one is kept or replaced, or refused for its type; what cannot be read
      before it is refused too. Nothing else is. */
  lemma UpsertDecides(fs: seq<Field>, rest: seq<byte>)
    requires Plain(fs) && Stops(rest)
    ensures Upsert(Concat(fs) + rest) == Decided(Concat(fs), rest)
  {
    UpsertSkips(fs, rest);
  }

  lemma ReadsFirst(fs: seq<Field>)
    requires fs != [] && Stable(fs[0])
    ensures Concat(fs) != [] && ReadField(Concat(fs)) == Ok(fs[0])
  {
    ReadFieldIsLocal(fs[0].raw, Concat(fs[1..]));
  }

  /** A message made of fields, cut at its first version field. */
  lemma FieldsDecide(before: seq<Field>, after: seq<Field>)
    requires Plain(before) && (after != [] ==> Stable(after[0]) && after[0].number == VERSION_FIELD)
    ensures Upsert(Concat(before) + Concat(after)) == Decided(Concat(before), Concat(after))
  {
    if after != [] {
      ReadsFirst(after);
    }
    UpsertDecides(before, Concat(after));
  }

  /** What becomes of such a message, by the field it was cut at. */
  lemma DecidedByField(before: seq<byte>, after: seq<Field>)
    requires after != [] ==> Stable(after[0])
    ensures var r := Decided(before, Concat(after));
      if after == [] then r == Ok(Upserted(before + VERSION_RECORD.raw, true))
      else (r.Ok? <==> after[0].wire == BYTES) && (r.Ok? ==> (r.value.changed <==> after[0].payload != VERSION))
  {
    if after != [] {
      ReadsFirst(after);
    }
  }

  lemma CutFields(fs: seq<Field>, i: nat)
    requires i <= |fs|
    ensures Concat(fs) == Concat(fs[..i]) + Concat(fs[i..])
  {
    assert fs == fs[..i] + fs[i..];
    ConcatAppends(fs[..i], fs[i..]);
  }

  /** A readable message is accepted exactly when its first version field, if it has one, is a
      string; it is changed exactly when it has none or another version; and when it has none the
      version is put behind it. */
  lemma UpsertAcceptsExactly(s: seq<byte>)
    requires ReadFields(s).Ok?
    ensures var fs := ReadFields(s).value;
      var i := Find(fs, VERSION_FIELD);
      && (Upsert(s).Ok? <==> i == |fs| || fs[i].wire == BYTES)
      && (Upsert(s).Ok? ==> (Upsert(s).value.changed <==> i == |fs| || fs[i].payload != VERSION))
      && (i == |fs| ==> Upsert(s) == Ok(Upserted(s + VERSION_RECORD.raw, true)))
  {
    ReadFieldsIsExact(s);
    var fs := ReadFields(s).value;
    var i := Find(fs, VERSION_FIELD);
    CutFields(fs, i);
    FieldsDecide(fs[..i], fs[i..]);
    DecidedByField(Concat(fs[..i]), fs[i..]);
    if i == |fs| {
      assert fs[..i] == fs;
    }
  }

  /** A frame gets the version exactly when it is empty, or is an envelope with a payload that
      accepts it and still fits a frame afterwards. */
  lemma VersionAcceptsExactly(data: seq<byte>)
    ensures WithVersion(data).Ok? <==>
      || data == []
      || (&& ReadFields(data).Ok? && Acceptable(ReadFields(data).value) && Occurs(ReadFields(data).value, PAYLOAD_FIELD)
          && var fs := ReadFields(data).value;
             var u := Upsert(fs[Find(fs, PAYLOAD_FIELD)].payload);
             u.Ok? && (u.value.changed ==> |Concat(Reversioned(fs, u.value.message))| <= MAX_FRAME))
  {
    ScanIsExact(data);
  }

  /** The ordinary frame: an envelope whose readable payload has no version yet comes back with
      the version behind its payload and every other field as it was, if that fits a frame. */
  lemma UnversionedFrameIsVersioned(data: seq<byte>)
    requires data != [] && ReadFields(data).Ok? && Acceptable(ReadFields(data).value) && Occurs(ReadFields(data).value, PAYLOAD_FIELD)
    requires var fs := ReadFields(data).value;
      var payload := fs[Find(fs, PAYLOAD_FIELD)].payload;
      ReadFields(payload).Ok? && !Occurs(ReadFields(payload).value, VERSION_FIELD)
    ensures var fs := ReadFields(data).value;
      var out := Concat(Reversioned(fs, fs[Find(fs, PAYLOAD_FIELD)].payload + VERSION_RECORD.raw));
      WithVersion(data) == if |out| <= MAX_FRAME then Ok(out) else Err(LimitExceeded)
  {
    ScanIsExact(data);
    var fs := ReadFields(data).value;
    UpsertAcceptsExactly(fs[Find(fs, PAYLOAD_FIELD)].payload);
  }
}
