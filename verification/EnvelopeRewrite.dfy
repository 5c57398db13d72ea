/** Splicing fields of a scanned envelope, and the removal of zlib compression built on it.
    zlib (RFC 1950) itself is a parameter: any function from bytes to a stream. */
module EnvelopeRewrite {
  import opened Common
  import opened Wire
  import opened Envelope

  // ---- Splicing -----------------------------------------------------------------------------

  /** Where the fields of a frame lie: before, at and after field i. */
  lemma FieldPosition(fs: seq<Field>, i: nat)
    requires i < |fs|
    ensures var data, range := Concat(fs), RangeOf(fs, i);
      && range.start <= range.end <= |data|
      && data[..range.start] == Concat(fs[..i]) && data[range.end..] == Concat(fs[i + 1..])
  {
    var data, range := Concat(fs), RangeOf(fs, i);
    assert fs == fs[..i] + ([fs[i]] + fs[i + 1..]);
    ConcatAppends(fs[..i], [fs[i]] + fs[i + 1..]);
    assert ([fs[i]] + fs[i + 1..])[1..] == fs[i + 1..];
    assert data == Concat(fs[..i]) + (fs[i].raw + Concat(fs[i + 1..]));
  }

  lemma SpliceOne(fs: seq<Field>, i: nat, f: Field)
    requires i < |fs|
    ensures Concat(fs[i := f]) == Concat(fs[..i]) + f.raw + Concat(fs[i + 1..])
  {
    assert fs[i := f] == fs[..i] + ([f] + fs[i + 1..]);
    ConcatAppends(fs[..i], [f] + fs[i + 1..]);
    assert ([f] + fs[i + 1..])[1..] == fs[i + 1..];
  }

  /** Two fields replaced: the bytes before, between and after them stay as they are. */
  lemma SpliceTwo(fs: seq<Field>, i: nat, f: Field, j: nat, g: Field)
    requires i < j < |fs|
    ensures var data := Concat(fs);
      && RangeOf(fs, i).end <= RangeOf(fs, j).start <= RangeOf(fs, j).end <= |data|
      && Concat(fs[i := f][j := g]) ==
           data[..RangeOf(fs, i).start] + f.raw + data[RangeOf(fs, i).end..RangeOf(fs, j).start] + g.raw + data[RangeOf(fs, j).end..]
  {
    var head := fs[..j];
    FieldPosition(fs, j);
    FieldPosition(head, i);
    assert head[..i] == fs[..i] && RangeOf(head, i) == RangeOf(fs, i);
    SpliceOne(fs[i := f], j, g);
    assert fs[i := f][..j] == head[i := f] && fs[i := f][j + 1..] == fs[j + 1..];
    SpliceOne(head, i, f);
    var data := Concat(fs);
    assert data[..RangeOf(fs, j).start] == Concat(head);
    assert data[..RangeOf(fs, i).start] == Concat(head)[..RangeOf(fs, i).start];
    assert data[RangeOf(fs, i).end..RangeOf(fs, j).start] == Concat(head)[RangeOf(fs, i).end..];
  }

  /** Replacing the payload, or the compression marker, by a field of the same kind keeps an
      envelope an envelope and moves nothing. */
  lemma ReplaceKeepsAcceptable(fs: seq<Field>, i: nat, f: Field)
    requires Acceptable(fs) && i < |fs| && f.number == fs[i].number && f.wire == fs[i].wire
    ensures Acceptable(fs[i := f])
    ensures forall number :: Find(fs[i := f], number) == Find(fs, number)
  {
    forall number
      ensures Find(fs[i := f], number) == Find(fs, number)
    {
      SameNumbersSameFind(fs, fs[i := f], number);
    }
  }

  lemma {:induction false} SameNumbersSameFind(fs: seq<Field>, gs: seq<Field>, number: nat)
    requires |fs| == |gs| && forall i :: 0 <= i < |fs| ==> fs[i].number == gs[i].number
    ensures Find(fs, number) == Find(gs, number)
    decreases |fs|
  {
    if fs != [] {
      SameNumbersSameFind(fs[..|fs| - 1], gs[..|gs| - 1], number);
    }
  }

  // ---- Decompression ------------------------------------------------------------------------

  /** What an inflater makes of its input: nothing, or the bytes it yields before the stream
      ends, cleanly or with an error. */
  datatype Inflated = NotZlib | Stream(bytes: seq<byte>, clean: bool)

  /** Reading at most one byte more than a frame may hold. */
  function Unpacked(z: Inflated): Result<seq<byte>> {
    if z.NotZlib? then Err(Unusable)
    else if |z.bytes| > MAX_FRAME then Err(LimitExceeded)
    else if !z.clean then Err(Unusable)
    else Ok(z.bytes)
  }

  const NO_COMPRESSION: Field := VarintField(COMPRESS_FIELD, 0)

  /** The fields of an envelope with its payload uncompressed. */
  function Uncompressed(fs: seq<Field>, payload: seq<byte>): seq<Field>
    requires Occurs(fs, COMPRESS_FIELD) && Occurs(fs, PAYLOAD_FIELD)
  {
    fs[Find(fs, COMPRESS_FIELD) := NO_COMPRESSION][Find(fs, PAYLOAD_FIELD) := BytesField(PAYLOAD_FIELD, payload)]
  }

  /** The frame handed to the native codec, in terms of the fields of the frame received. */
  ghost function Decompressed(data: seq<byte>, inflate: seq<byte> -> Inflated): Result<seq<byte>> {
    if |data| > MAX_FRAME then Err(LimitExceeded)
    else
      var scan :- ScanEnvelope(data);
      if !scan.hasCompression || scan.compression == 0 then Ok(data)
      else if scan.compression != 1 || !scan.hasPayload then Err(Unusable)
      else
        var payload :- Unpacked(inflate(scan.payload));
        ScanIsExact(data);
        var out := Concat(Uncompressed(ReadFields(data).value, payload));
        if |out| > MAX_FRAME then Err(LimitExceeded) else Ok(out)
  }

  /** The size of the rebuilt frame from the scan alone, with the source's overflow checks. */
  function RebuiltSize(inputLen: nat, scan: Scan, payloadLen: nat): Result<nat> {
    var removed := (scan.compressionRaw.end - scan.compressionRaw.start) + (scan.payloadRaw.end - scan.payloadRaw.start);
    if removed < 0 || removed > inputLen then Err(Unusable)
    else
      var a :- AddLimited(inputLen - removed, |Varint(Tag(COMPRESS_FIELD, VARINT))| + 1);
      var b :- AddLimited(a, |Varint(Tag(PAYLOAD_FIELD, BYTES))|);
      var c :- AddLimited(b, |Varint(payloadLen)|);
      var total :- AddLimited(c, payloadLen);
      if total > MAX_FRAME then Err(LimitExceeded) else Ok(total)
  }

  /** An addition that does not fit 64 bits is the limit error. */
  function AddLimited(a: nat, b: nat): Result<nat> {
    if a > MAX_UINT64 || b > MAX_UINT64 || CheckedAdd(a, b).None? then Err(LimitExceeded) else Ok(a + b)
  }

  lemma {:induction false} LengthWithReplacement(fs: seq<Field>, i: nat, f: Field)
    requires i < |fs|
    ensures |Concat(fs[i := f])| == |Concat(fs)| - |fs[i].raw| + |f.raw|
  {
    SpliceOne(fs, i, f);
    FieldPosition(fs, i);
  }

  /** The length of the rebuilt frame. */
  lemma UncompressedLength(fs: seq<Field>, payload: seq<byte>)
    requires Occurs(fs, COMPRESS_FIELD) && Occurs(fs, PAYLOAD_FIELD)
    ensures |Concat(Uncompressed(fs, payload))| ==
      |Concat(fs)| - |fs[Find(fs, COMPRESS_FIELD)].raw| - |fs[Find(fs, PAYLOAD_FIELD)].raw|
      + |NO_COMPRESSION.raw| + |BytesField(PAYLOAD_FIELD, payload).raw|
  {
    var i, j := Find(fs, COMPRESS_FIELD), Find(fs, PAYLOAD_FIELD);
    LengthWithReplacement(fs, i, NO_COMPRESSION);
    LengthWithReplacement(fs[i := NO_COMPRESSION], j, BytesField(PAYLOAD_FIELD, payload));
  }

  /** The chain of checked additions gives the sum, or the limit error exactly beyond the limit. */
  lemma SizeAdds(kept: nat, marker: nat, key: nat, length: nat, payloadLen: nat, inputLen: nat, scan: Scan)
    requires kept <= MAX_FRAME && payloadLen <= MAX_FRAME && length <= payloadLen + 1
    requires marker == |Varint(Tag(COMPRESS_FIELD, VARINT))| + 1 && key == |Varint(Tag(PAYLOAD_FIELD, BYTES))| && length == |Varint(payloadLen)|
    requires marker <= 16 && key <= 16
    requires kept == inputLen - ((scan.compressionRaw.end - scan.compressionRaw.start) + (scan.payloadRaw.end - scan.payloadRaw.start)) <= inputLen
    ensures var n := kept + marker + key + length + payloadLen;
      RebuiltSize(inputLen, scan, payloadLen) == if n > MAX_FRAME then Err(LimitExceeded) else Ok(n)
  {
  }

  /** The precomputed size is exactly the length of the rebuilt frame, or the limit error
      exactly when that is more than a frame may hold. */
  lemma RebuiltSizeIsExact(fs: seq<Field>, scan: Scan, payload: seq<byte>)
    requires Describes(scan, fs) && scan.hasCompression && scan.hasPayload
    requires |Concat(fs)| <= MAX_FRAME && |payload| <= MAX_FRAME
    ensures var n := |Concat(Uncompressed(fs, payload))|;
      RebuiltSize(|Concat(fs)|, scan, |payload|) == if n > MAX_FRAME then Err(LimitExceeded) else Ok(n)
  {
    var i, j := Find(fs, COMPRESS_FIELD), Find(fs, PAYLOAD_FIELD);
    UncompressedLength(fs, payload);
    VarintIsShort(|payload|);
    VarintIsShort(0);
    RangesFit(fs, i, j);
    var kept := |Concat(fs)| - |fs[i].raw| - |fs[j].raw|;
    var marker, key := |Varint(Tag(COMPRESS_FIELD, VARINT))| + 1, |Varint(Tag(PAYLOAD_FIELD, BYTES))|;
    assert |NO_COMPRESSION.raw| == marker && marker <= 16 && key <= 16;
    SizeAdds(kept, marker, key, |Varint(|payload|)|, |payload|, |Concat(fs)|, scan);
  }

  lemma RangesFit(fs: seq<Field>, i: nat, j: nat)
    requires i < |fs| && j < |fs| && i != j
    ensures |fs[i].raw| + |fs[j].raw| <= |Concat(fs)|
  {
    if i < j {
      SpliceTwo(fs, i, fs[i], j, fs[j]);
    } else {
      SpliceTwo(fs, j, fs[j], i, fs[i]);
    }
  }

  lemma {:induction false} VarintIsShort(v: nat)
    ensures |Varint(v)| <= v + 1
    decreases v
  {
    if v >= 128 {
      VarintIsShort(v / 128);
    }
  }

  method AppendCompressionField(dst: seq<byte>) returns (out: seq<byte>)
    ensures out == dst + NO_COMPRESSION.raw
  {
    out := AppendVarint(dst, Tag(COMPRESS_FIELD, VARINT));
    out := AppendVarint(out, 0);
  }

  method AppendBytesField(dst: seq<byte>, number: nat, payload: seq<byte>) returns (out: seq<byte>)
    ensures out == dst + BytesField(number, payload).raw
  {
    out := AppendVarint(dst, Tag(number, BYTES));
    out := AppendVarint(out, |payload|);
    out := out + payload;
  }

  /** The source's construction of the rebuilt frame: five pieces in the order of the frame. */
  method Rebuild(data: seq<byte>, scan: Scan, payload: seq<byte>, ghost fs: seq<Field>) returns (out: seq<byte>)
    requires Describes(scan, fs) && scan.hasCompression && scan.hasPayload && data == Concat(fs)
    requires forall k :: 0 <= k < |fs| ==> fs[k].raw != []
    ensures out == Concat(Uncompressed(fs, payload))
  {
    ghost var i, j := Find(fs, COMPRESS_FIELD), Find(fs, PAYLOAD_FIELD);
    ghost var p := BytesField(PAYLOAD_FIELD, payload);
    if scan.payloadRaw.start < scan.compressionRaw.start {
      EarlierStart(fs, i, j);
      SpliceTwo(fs, j, p, i, NO_COMPRESSION);
      assert fs[j := p][i := NO_COMPRESSION] == Uncompressed(fs, payload);
      out := data[..scan.payloadRaw.start];
      out := AppendBytesField(out, PAYLOAD_FIELD, payload);
      out := out + data[scan.payloadRaw.end..scan.compressionRaw.start];
      out := AppendCompressionField(out);
      out := out + data[scan.compressionRaw.end..];
    } else {
      EarlierStart(fs, i, j);
      SpliceTwo(fs, i, NO_COMPRESSION, j, p);
      out := data[..scan.compressionRaw.start];
      out := AppendCompressionField(out);
      out := out + data[scan.compressionRaw.end..scan.payloadRaw.start];
      out := AppendBytesField(out, PAYLOAD_FIELD, payload);
      out := out + data[scan.payloadRaw.end..];
    }
  }

  /** Offsets order fields as their indices do, since every field has at least one byte. */
  lemma EarlierStart(fs: seq<Field>, i: nat, j: nat)
    requires i < |fs| && j < |fs| && i != j && fs[i].raw != [] && fs[j].raw != []
    ensures RangeOf(fs, j).start < RangeOf(fs, i).start <==> j < i
  {
    if i < j {
      SpliceTwo(fs, i, fs[i], j, fs[j]);
    } else {
      SpliceTwo(fs, j, fs[j], i, fs[i]);
    }
  }

  method DecompressEnvelopePayload(data: seq<byte>, inflate: seq<byte> -> Inflated) returns (r: Result<seq<byte>>)
    ensures r == Decompressed(data, inflate)
  {
    if |data| > MAX_FRAME {
      return Err(LimitExceeded);
    }
    var scanned := ScanEnvelopeLoop(data);
    if scanned.Err? {
      return Err(scanned.error);
    }
    var scan := scanned.value;
    if !scan.hasCompression || scan.compression == 0 {
      return Ok(data);
    }
    if scan.compression != 1 {
      return Err(Unusable);
    }
    if !scan.hasPayload {
      return Err(Unusable);
    }
    var unpacked := Unpacked(inflate(scan.payload));
    if unpacked.Err? {
      return Err(unpacked.error);
    }
    ScanIsExact(data);
    ReadFieldsIsExact(data);
    ghost var fs := ReadFields(data).value;
    RebuiltSizeIsExact(fs, scan, unpacked.value);
    var size := RebuiltSize(|data|, scan, |unpacked.value|);
    if size.Err? {
      return Err(size.error);
    }
    var out := Rebuild(data, scan, unpacked.value, fs);
    return Ok(out);
  }

  /** The scan of a frame made of given readable fields. */
  lemma ScanOfFields(fs: seq<Field>)
    requires Acceptable(fs) && forall i :: 0 <= i < |fs| ==> Stable(fs[i])
    ensures ReadFields(Concat(fs)) == Ok(fs)
    ensures ScanEnvelope(Concat(fs)).Ok? && Describes(ScanEnvelope(Concat(fs)).value, fs)
  {
    ConcatReadsBack(fs);
    ScanIsExact(Concat(fs));
  }

  lemma UncompressedIsEnvelope(fs: seq<Field>, payload: seq<byte>)
    requires Acceptable(fs) && (forall i :: 0 <= i < |fs| ==> Stable(fs[i])) && |payload| <= MAX_FRAME
    requires Occurs(fs, COMPRESS_FIELD) && Occurs(fs, PAYLOAD_FIELD)
    ensures var gs := Uncompressed(fs, payload);
      && Acceptable(gs) && (forall i :: 0 <= i < |gs| ==> Stable(gs[i]))
      && Find(gs, COMPRESS_FIELD) == Find(fs, COMPRESS_FIELD) && Find(gs, PAYLOAD_FIELD) == Find(fs, PAYLOAD_FIELD)
  {
    var i, p := Find(fs, COMPRESS_FIELD), BytesField(PAYLOAD_FIELD, payload);
    VarintFieldIsStable(COMPRESS_FIELD, 0);
    BytesFieldIsStable(PAYLOAD_FIELD, payload);
    ReplaceKeepsAcceptable(fs, i, NO_COMPRESSION);
    ReplaceKeepsAcceptable(fs[i := NO_COMPRESSION], Find(fs, PAYLOAD_FIELD), p);
  }

  /** What a rewritten frame is, by its fields. */
  ghost predicate Rewritten(out: seq<byte>, fs: seq<Field>, payload: seq<byte>) {
    && Occurs(fs, COMPRESS_FIELD) && Occurs(fs, PAYLOAD_FIELD)
    && ReadFields(out) == Ok(Uncompressed(fs, payload)) && ScanEnvelope(out).Ok?
    && var scan := ScanEnvelope(out).value;
       scan.hasCompression && scan.compression == 0 && scan.hasPayload && scan.payload == payload
  }

  lemma UncompressedRereads(fs: seq<Field>, payload: seq<byte>)
    requires Acceptable(fs) && (forall i :: 0 <= i < |fs| ==> Stable(fs[i])) && |payload| <= MAX_FRAME
    requires Occurs(fs, COMPRESS_FIELD) && Occurs(fs, PAYLOAD_FIELD)
    ensures Rewritten(Concat(Uncompressed(fs, payload)), fs, payload)
  {
    UncompressedIsEnvelope(fs, payload);
    ScanOfFields(Uncompressed(fs, payload));
  }

  /** The rewrite preserves meaning. A frame without active compression comes back unchanged.
      Otherwise the output reads back as exactly the fields of the input, in order and byte for
      byte, except that the compression marker is 0 and the payload is the inflated payload;
      it is no longer than a frame may be; and decompressing it again changes nothing. */
  lemma DecompressionPreservesMeaning(data: seq<byte>, inflate: seq<byte> -> Inflated)
    requires Decompressed(data, inflate).Ok?
    ensures var out := Decompressed(data, inflate).value;
      && |out| <= MAX_FRAME && Decompressed(out, inflate) == Ok(out)
      && ReadFields(data).Ok? && ScanEnvelope(data).Ok?
      && var fs, scan := ReadFields(data).value, ScanEnvelope(data).value;
         if !scan.hasCompression || scan.compression == 0 then out == data
         else Unpacked(inflate(scan.payload)).Ok? && Rewritten(out, fs, Unpacked(inflate(scan.payload)).value)
  {
    ScanIsExact(data);
    var scan, out := ScanEnvelope(data).value, Decompressed(data, inflate).value;
    if scan.hasCompression && scan.compression != 0 {
      CompressedFrameIsRewritten(data, inflate);
      MarkedZeroIsUnchanged(out, inflate);
    }
  }

  lemma CompressedFrameIsRewritten(data: seq<byte>, inflate: seq<byte> -> Inflated)
    requires Decompressed(data, inflate).Ok? && ScanEnvelope(data).Ok? && ReadFields(data).Ok?
    requires ScanEnvelope(data).value.hasCompression && ScanEnvelope(data).value.compression != 0
    ensures var out, payload := Decompressed(data, inflate).value, Unpacked(inflate(ScanEnvelope(data).value.payload));
      |out| <= MAX_FRAME && payload.Ok? && Rewritten(out, ReadFields(data).value, payload.value)
  {
    ScanIsExact(data);
    ReadFieldsIsExact(data);
    UncompressedRereads(ReadFields(data).value, Unpacked(inflate(ScanEnvelope(data).value.payload)).value);
  }

  lemma MarkedZeroIsUnchanged(data: seq<byte>, inflate: seq<byte> -> Inflated)
    requires |data| <= MAX_FRAME && ScanEnvelope(data).Ok? && ScanEnvelope(data).value.compression == 0
    ensures Decompressed(data, inflate) == Ok(data)
  {
  }

  /** Exactly which frames are accepted, in terms of their fields: an envelope no longer than a
      frame, whose marker is absent or 0, or is 1 and comes with a payload that inflates cleanly
      into a frame that still fits. */
  lemma DecompressionAcceptsExactly(data: seq<byte>, inflate: seq<byte> -> Inflated)
    ensures Decompressed(data, inflate).Ok? <==>
      && |data| <= MAX_FRAME && ReadFields(data).Ok? && Acceptable(ReadFields(data).value)
      && var fs := ReadFields(data).value;
         || !Occurs(fs, COMPRESS_FIELD) || fs[Find(fs, COMPRESS_FIELD)].value == 0
         || (&& fs[Find(fs, COMPRESS_FIELD)].value == 1 && Occurs(fs, PAYLOAD_FIELD)
             && var z := inflate(fs[Find(fs, PAYLOAD_FIELD)].payload);
                z.Stream? && z.clean && |z.bytes| <= MAX_FRAME && |Concat(Uncompressed(fs, z.bytes))| <= MAX_FRAME)
  {
    ScanIsExact(data);
  }

  // ---- Admission ----------------------------------------------------------------------------

  datatype AdmissionClass = Tiny | Small | Large | Compressed | Ambiguous

  ghost function EstimateDecodeAdmission(data: seq<byte>): Result<AdmissionClass> {
    if |data| > MAX_FRAME then Err(LimitExceeded)
    else
      var scan :- ScanEnvelope(data);
      if scan.hasCompression && scan.compression == 1 then
        (if scan.hasPayload then Ok(Compressed) else Err(Unusable))
      else if scan.hasCompression && scan.compression != 0 then Ok(Ambiguous)
      else if |data| <= 64 * 1024 then Ok(Tiny)
      else if |data| <= 1024 * 1024 then Ok(Small)
      else if |data| <= 4 * 1024 * 1024 then Ok(Large)
      else Ok(Ambiguous)
  }

  /** The compression marker of an envelope, 0 when it has none. */
  function MarkerOf(fs: seq<Field>): nat {
    if Occurs(fs, COMPRESS_FIELD) then fs[Find(fs, COMPRESS_FIELD)].value else 0
  }

  /** Exactly which frame gets which class. Only an envelope no longer than a frame gets one; a
      marker of 1 needs a payload. */
  lemma AdmissionIsExact(data: seq<byte>)
    ensures var envelope := |data| <= MAX_FRAME && ReadFields(data).Ok? && Acceptable(ReadFields(data).value);
      var taken := EstimateDecodeAdmission(data);
      if !envelope then taken.Err?
      else
        var fs := ReadFields(data).value;
        && (taken.Err? <==> MarkerOf(fs) == 1 && !Occurs(fs, PAYLOAD_FIELD))
        && (taken == Ok(Compressed) <==> MarkerOf(fs) == 1 && Occurs(fs, PAYLOAD_FIELD))
        && (taken == Ok(Tiny) <==> MarkerOf(fs) == 0 && |data| <= 65536)
        && (taken == Ok(Small) <==> MarkerOf(fs) == 0 && 65536 < |data| <= 1048576)
        && (taken == Ok(Large) <==> MarkerOf(fs) == 0 && 1048576 < |data| <= 4194304)
        && (taken == Ok(Ambiguous) <==> MarkerOf(fs) > 1 || (MarkerOf(fs) == 0 && |data| > 4194304))
  {
    ScanIsExact(data);
  }

  /** The admission class, taken before decoding, foretells the rewrite: a frame classed by size
      is passed on unchanged whatever the inflater would do, and only a frame classed
      compressed is ever inflated. */
  lemma AdmissionForetellsRewrite(data: seq<byte>, inflate: seq<byte> -> Inflated)
    ensures EstimateDecodeAdmission(data).Err? ==> Decompressed(data, inflate).Err?
    ensures (var c := EstimateDecodeAdmission(data); c == Ok(Tiny) || c == Ok(Small) || c == Ok(Large)) ==> Decompressed(data, inflate) == Ok(data)
    ensures (EstimateDecodeAdmission(data) == Ok(Ambiguous) && Decompressed(data, inflate).Ok?) ==>
      Decompressed(data, inflate).value == data
  {
    ScanIsExact(data);
  }
}
