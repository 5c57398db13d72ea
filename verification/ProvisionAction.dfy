/** The advertised feature version written into the provision message: field 17 of the payload
    of an MSync envelope is set, everything else keeps its bytes. */
module ProvisionAction {
  import opened Wire
  import opened Envelope
  import opened EnvelopeRewrite

  const VERSION_FIELD: nat := 17

  /** "v5.1" in bytes. */
  const VERSION: seq<byte> := [118, 53, 46, 49]

  const VERSION_RECORD: Field := BytesField(VERSION_FIELD, VERSION)

  /** The outcome of setting the version in a message. */
  datatype Upserted = Upserted(message: seq<byte>, changed: bool)

  /** What becomes of a message when its first version field is at its head. */
  function SetHere(s: seq<byte>, f: Field): Result<Upserted>
    requires |f.raw| <= |s|
  {
    if f.wire != BYTES then Err(BadWireType)
    else if f.payload == VERSION then Ok(Upserted(s, false))
    else Ok(Upserted(VERSION_RECORD.raw + s[|f.raw|..], true))
  }

  function Keep(raw: seq<byte>, rest: Result<Upserted>): Result<Upserted> {
    if rest.Ok? then Ok(Upserted(raw + rest.value.message, rest.value.changed)) else rest
  }

  /** Sets the first version field, or appends one. Nothing after that field is looked at. */
  function Upsert(s: seq<byte>): Result<Upserted>
    decreases |s|
  {
    if s == [] then Ok(Upserted(VERSION_RECORD.raw, true))
    else
      var f :- ReadField(s);
      if f.number == VERSION_FIELD then SetHere(s, f)
      else Keep(f.raw, Upsert(s[|f.raw|..]))
  }

  /** The first version field was found at the offset. */
  method SetVersionAt(message: seq<byte>, offset: nat, f: Field) returns (r: Result<Upserted>)
    requires offset + |f.raw| <= |message|
    ensures r == Keep(message[..offset], SetHere(message[offset..], f))
  {
    var rest := message[offset..];
    if f.wire != BYTES {
      return Err(BadWireType);
    }
    if f.payload == VERSION {
      assert message[..offset] + rest == message;
      return Ok(Upserted(message, false));
    }
    var out := AppendBytesField(message[..offset], VERSION_FIELD, VERSION);
    assert rest[|f.raw|..] == message[offset + |f.raw|..];
    assert message[..offset] + (VERSION_RECORD.raw + rest[|f.raw|..]) == out + message[offset + |f.raw|..];
    return Ok(Upserted(out + message[offset + |f.raw|..], true));
  }

  /** Upserting with any way to read one field: what the loop does, whatever a field is. */
  type FieldReader = seq<byte> -> Result<Field>

  ghost predicate Reads(read: FieldReader) {
    forall s :: read(s).Ok? ==> 1 <= |read(s).value.raw| <= |s| && read(s).value.raw == s[..|read(s).value.raw|]
  }

  ghost function UpsertWith(read: FieldReader, s: seq<byte>): Result<Upserted>
    requires Reads(read)
    decreases |s|
  {
    if s == [] then Ok(Upserted(VERSION_RECORD.raw, true))
    else
      var f :- read(s);
      if f.number == VERSION_FIELD then SetHere(s, f)
      else Keep(f.raw, UpsertWith(read, s[|f.raw|..]))
  }

  lemma {:induction false} UpsertWithReadField(read: FieldReader, s: seq<byte>)
    requires Reads(read) && forall s :: read(s) == ReadField(s)
    ensures UpsertWith(read, s) == Upsert(s)
    decreases |s|
  {
    if s != [] && read(s).Ok? {
      UpsertWithReadField(read, s[|read(s).value.raw|..]);
    }
  }

  /** A field at the offset that is kept joins the bytes before it. */
  lemma KeepAdvances(message: seq<byte>, offset: nat, raw: seq<byte>, rest: Result<Upserted>)
    requires offset + |raw| <= |message| && raw == message[offset..][..|raw|]
    ensures Keep(message[..offset], Keep(raw, rest)) == Keep(message[..offset + |raw|], rest)
  {
    KeepTwice(message[..offset], raw, rest);
    assert message[..offset] + raw == message[..offset + |raw|];
  }

  /** The loop of the source, which walks offsets of the whole message. */
  method WalkAndSet(message: seq<byte>, read: FieldReader) returns (r: Result<Upserted>)
    requires Reads(read)
    ensures r == UpsertWith(read, message)
  {
    var offset := 0;
    ghost var whole := UpsertWith(read, message);
    assert message[0..] == message;
    KeepNothing(whole);
    while offset < |message|
      invariant offset <= |message| && whole == Keep(message[..offset], UpsertWith(read, message[offset..]))
    {
      var field := read(message[offset..]);
      if field.Err? {
        return Err(field.error);
      }
      var f := field.value;
      if f.number == VERSION_FIELD {
        r := SetVersionAt(message, offset, f);
        return;
      }
      SkipTwice(message, offset, |f.raw|);
      KeepAdvances(message, offset, f.raw, UpsertWith(read, message[offset + |f.raw|..]));
      offset := offset + |f.raw|;
    }
    assert message[..offset] == message;
    var out := AppendBytesField(message, VERSION_FIELD, VERSION);
    return Ok(Upserted(out, true));
  }

  method UpsertLoop(message: seq<byte>) returns (r: Result<Upserted>)
    ensures r == Upsert(message)
  {
    var read: FieldReader := s => ReadField(s);
    r := WalkAndSet(message, read);
    UpsertWithReadField(read, message);
  }

  lemma KeepNothing(r: Result<Upserted>)
    ensures Keep([], r) == r
  {
    if r.Ok? {
      assert [] + r.value.message == r.value.message;
    }
  }

  lemma KeepTwice(a: seq<byte>, b: seq<byte>, r: Result<Upserted>)
    ensures Keep(a, Keep(b, r)) == Keep(a + b, r)
  {
    if r.Ok? {
      assert a + (b + r.value.message) == a + b + r.value.message;
    }
  }

  // ---- What is set, and what is not touched ---------------------------------------------------

  /** The value of the first version field, if the message has one. */
  function FirstVersion(s: seq<byte>): Result<seq<byte>>
    decreases |s|
  {
    if s == [] then Err(Truncated)
    else
      var f :- ReadField(s);
      if f.number == VERSION_FIELD && f.wire == BYTES then Ok(f.payload)
      else if f.number == VERSION_FIELD then Err(BadWireType)
      else FirstVersion(s[|f.raw|..])
  }

  /** A message cut at its first version field; without one, `field` and `after` are empty. */
  datatype Parts = Parts(before: seq<byte>, field: seq<byte>, after: seq<byte>)

  function Cut(s: seq<byte>): Parts
    decreases |s|
  {
    if s == [] || ReadField(s).Err? then Parts([], [], s)
    else
      var f := ReadField(s).value;
      if f.number == VERSION_FIELD then Parts([], f.raw, s[|f.raw|..])
      else
        var p := Cut(s[|f.raw|..]);
        Parts(f.raw + p.before, p.field, p.after)
  }

  /** The message with something in place of its first version field. */
  function Joined(p: Parts, middle: seq<byte>): seq<byte> {
    p.before + (middle + p.after)
  }

  lemma JoinedPrefixed(raw: seq<byte>, p: Parts, middle: seq<byte>)
    ensures Joined(p.(before := raw + p.before), middle) == raw + Joined(p, middle)
  {
    assert raw + (p.before + (middle + p.after)) == raw + p.before + (middle + p.after);
  }

  lemma {:induction false} CutIsExact(s: seq<byte>)
    requires Upsert(s).Ok?
    ensures Joined(Cut(s), Cut(s).field) == s
    ensures Cut(s).field == [] ==> Cut(s).after == []
    decreases |s|
  {
    if s != [] {
      var f := ReadField(s).value;
      var tail := s[|f.raw|..];
      assert f.raw + tail == s;
      if f.number != VERSION_FIELD {
        CutIsExact(tail);
        JoinedPrefixed(f.raw, Cut(tail), Cut(tail).field);
      } else {
        assert [] + (f.raw + tail) == f.raw + tail;
      }
    }
  }

  /** Only the first version field is replaced or, when there is none, added at the end. */
  lemma {:induction false} UpsertIsLocal(s: seq<byte>)
    requires Upsert(s).Ok?
    ensures Upsert(s).value.message == if Upsert(s).value.changed then Joined(Cut(s), VERSION_RECORD.raw) else s
    decreases |s|
  {
    if s == [] {
      assert [] + (VERSION_RECORD.raw + []) == VERSION_RECORD.raw;
    } else {
      var f := ReadField(s).value;
      var tail := s[|f.raw|..];
      assert f.raw + tail == s;
      if f.number != VERSION_FIELD {
        UpsertIsLocal(tail);
        JoinedPrefixed(f.raw, Cut(tail), VERSION_RECORD.raw);
      } else {
        assert [] + (VERSION_RECORD.raw + tail) == VERSION_RECORD.raw + tail;
      }
    }
  }

  lemma VersionRecordReads(tail: seq<byte>)
    ensures ReadField(VERSION_RECORD.raw + tail) == Ok(VERSION_RECORD)
  {
    BytesFieldIsStable(VERSION_FIELD, VERSION);
    ReadFieldIsLocal(VERSION_RECORD.raw, tail);
  }

  /** The first version field of the result holds the version, and setting it again finds
      nothing to do. */
  lemma {:induction false} UpsertSetsOnce(s: seq<byte>)
    requires Upsert(s).Ok?
    ensures var out := Upsert(s).value.message;
      FirstVersion(out) == Ok(VERSION) && Upsert(out) == Ok(Upserted(out, false))
    decreases |s|
  {
    if s == [] {
      VersionRecordReads([]);
      assert VERSION_RECORD.raw + [] == VERSION_RECORD.raw;
    } else {
      var f := ReadField(s).value;
      if f.number == VERSION_FIELD {
        if f.payload != VERSION {
          VersionRecordReads(s[|f.raw|..]);
        }
      } else {
        var rest := Upsert(s[|f.raw|..]).value.message;
        UpsertSetsOnce(s[|f.raw|..]);
        ReadFieldIsLocal(s, rest);
        assert (f.raw + rest)[|f.raw|..] == rest;
      }
    }
  }

  // ---- The envelope -----------------------------------------------------------------------------

  function Reversioned(fs: seq<Field>, payload: seq<byte>): seq<Field>
    requires Occurs(fs, PAYLOAD_FIELD)
  {
    fs[Find(fs, PAYLOAD_FIELD) := BytesField(PAYLOAD_FIELD, payload)]
  }

  ghost function WithVersion(data: seq<byte>): Result<seq<byte>> {
    if data == [] then Ok(data)
    else
      var scan :- ScanEnvelope(data);
      if !scan.hasPayload then Err(Unusable)
      else
        var upserted :- Upsert(scan.payload);
        if !upserted.changed then Ok(data)
        else
          ScanIsExact(data);
          var out := Concat(Reversioned(ReadFields(data).value, upserted.message));
          if |out| > MAX_FRAME then Err(LimitExceeded) else Ok(out)
  }

  method WithProvisionActionVersion(data: seq<byte>) returns (r: Result<seq<byte>>)
    ensures r == WithVersion(data)
  {
    if |data| == 0 {
      return Ok(data);
    }
    var scanned := ScanEnvelopeLoop(data);
    if scanned.Err? {
      return Err(scanned.error);
    }
    var scan := scanned.value;
    if !scan.hasPayload {
      return Err(Unusable);
    }
    var upserted := UpsertLoop(scan.payload);
    if upserted.Err? {
      return Err(upserted.error);
    }
    if !upserted.value.changed {
      return Ok(data);
    }
    ScanIsExact(data);
    ReadFieldsIsExact(data);
    ghost var fs := ReadFields(data).value;
    ghost var j := Find(fs, PAYLOAD_FIELD);
    FieldPosition(fs, j);
    SpliceOne(fs, j, BytesField(PAYLOAD_FIELD, upserted.value.message));
    var payload := upserted.value.message;
    var size := scan.payloadRaw.start + (|Varint(Tag(PAYLOAD_FIELD, BYTES))| + |Varint(|payload|)| + |payload|)
                + (|data| - scan.payloadRaw.end);
    if size > MAX_FRAME {
      return Err(LimitExceeded);
    }
    var out := AppendBytesField(data[..scan.payloadRaw.start], PAYLOAD_FIELD, payload);
    return Ok(out + data[scan.payloadRaw.end..]);
  }

  /** On success the payload's first field 17 is the version, every other field of the envelope
      and every other byte of the payload keeps content and order, the frame stays within its
      limit, and a second application returns its input unchanged. */
  lemma VersionIsSetOnceAndLocally(data: seq<byte>)
    requires data != [] && WithVersion(data).Ok?
    ensures var out := WithVersion(data).value;
      && WithVersion(out) == Ok(out)
      && ReadFields(data).Ok? && ReadFields(out).Ok? && ScanEnvelope(data).Ok? && ScanEnvelope(out).Ok?
      && var fs, scan, scan' := ReadFields(data).value, ScanEnvelope(data).value, ScanEnvelope(out).value;
         && scan'.hasPayload && FirstVersion(scan'.payload) == Ok(VERSION)
         && Occurs(fs, PAYLOAD_FIELD) && Upsert(scan.payload).Ok? && scan'.payload == Upsert(scan.payload).value.message
         && (var p := Cut(scan.payload);
             scan.payload == Joined(p, p.field)
             && (scan'.payload == scan.payload || scan'.payload == Joined(p, VERSION_RECORD.raw)))
         && (if Upsert(scan.payload).value.changed
             then |out| <= MAX_FRAME && ReadFields(out) == Ok(Reversioned(fs, scan'.payload))
             else out == data)
  {
    ScanIsExact(data);
    ReadFieldsIsExact(data);
    var scan, fs := ScanEnvelope(data).value, ReadFields(data).value;
    var upserted := Upsert(scan.payload).value;
    UpsertSetsOnce(scan.payload);
    UpsertIsLocal(scan.payload);
    CutIsExact(scan.payload);
    if upserted.changed {
      var p, j := BytesField(PAYLOAD_FIELD, upserted.message), Find(fs, PAYLOAD_FIELD);
      SpliceOne(fs, j, p);
      BytesFieldIsStable(PAYLOAD_FIELD, upserted.message);
      ReplaceKeepsAcceptable(fs, j, p);
      ScanOfFields(Reversioned(fs, upserted.message));
    }
  }
}
