/** Exactly what is read: which byte sequences are varints and with which value, and which fields a
    message may hold. Encodings longer than necessary are among them. */
module WireExact {
  import opened Common
  import opened Wire

  // ---- Varints ------------------------------------------------------------------------------------


  /** The number whose base-128 digits, least significant first, are the low bits of the bytes. */
  ghost function Digits(s: seq<byte>): nat {
    if s == [] then 0 else s[0] % 128 + 128 * Digits(s[1..])
  }

  /** The first n bytes of s are one varint of which i groups have been read before: all but the last
      have their high bit set, and a tenth group holds at most one bit. */
  predicate Terminates(s: seq<byte>, i: nat, n: nat) {
    && 1 <= n <= |s| && i + n <= 10
    && (forall j :: 0 <= j < n - 1 ==> s[j] >= 128)
    && s[n - 1] < 128 && (i + n == 10 ==> s[n - 1] <= 1)
  }

  lemma {:induction false} ReadsExactly(s: seq<byte>, i: nat, n: nat)
    requires i <= 9 && Terminates(s, i, n)
    ensures ReadFrom(s, i) == Ok(Decoded(Digits(s[..n]), n))
    decreases n
  {
    assert s[..n][1..] == s[1..][..n - 1];
    if n > 1 {
      assert forall j :: 0 <= j < n - 1 ==> s[1..][j] == s[j + 1];
      ReadsExactly(s[1..], i + 1, n - 1);
    } else {
      assert Digits(s[..1][1..]) == 0;
    }
  }

  lemma {:induction false} OnlyReadsThese(s: seq<byte>, i: nat)
    requires i <= 9 && ReadFrom(s, i).Ok?
    ensures Terminates(s, i, ReadFrom(s, i).value.used)
    decreases 9 - i
  {
    if s[0] >= 128 {
      OnlyReadsThese(s[1..], i + 1);
      assert forall j :: 0 < j < |s| ==> s[j] == s[1..][j - 1];
    }
  }

  /** A varint is read exactly from one to ten bytes of which the last and no other has its high bit
      clear, the tenth being 0 or 1; its value is that of the base-128 digits. */
  lemma VarintIsExact(s: seq<byte>, value: nat, used: nat)
    ensures ReadVarint(s) == Ok(Decoded(value, used)) <==> Terminates(s, 0, used) && value == Digits(s[..used])
  {
    if ReadVarint(s).Ok? {
      OnlyReadsThese(s, 0);
      ReadsExactly(s, 0, ReadVarint(s).value.used);
    }
    if Terminates(s, 0, used) {
      ReadsExactly(s, 0, used);
    }
  }

  // ---- Fields -------------------------------------------------------------------------------------

  /** A field of fixed width. */
  function FixedField(number: nat, wire: nat, content: seq<byte>): Field {
    Field(number, wire, 0, [], Varint(Tag(number, wire)) + content)
  }

  lemma FixedFieldIsStable(number: nat, wire: nat, content: seq<byte>)
    requires (wire == FIXED64 && |content| == 8) || (wire == FIXED32 && |content| == 4)
    requires Tag(number, wire) <= MAX_UINT64
    ensures Stable(FixedField(number, wire, content))
  {
    TagParts(number, wire);
    WholeFieldReadsBack(Tag(number, wire), content, Body(0, [], |content|));
  }

  /** The four wire types are read and no others. */
  lemma OtherWireTypesAreRefused(s: seq<byte>)
    ensures ReadField(s).Ok? ==>
      var wire := ReadField(s).value.wire; wire == VARINT || wire == FIXED64 || wire == BYTES || wire == FIXED32
  {
  }

  /** A fixed-width or length-delimited field needs all its bytes. */
  lemma BodyIsExact(s: seq<byte>, wire: nat)
    ensures wire == FIXED64 ==> (ReadBody(s, wire).Ok? <==> |s| >= 8)
    ensures wire == FIXED32 ==> (ReadBody(s, wire).Ok? <==> |s| >= 4)
    ensures wire == VARINT ==> (ReadBody(s, wire).Ok? <==> ReadVarint(s).Ok?)
    ensures wire == BYTES ==>
      (ReadBody(s, wire).Ok? <==> ReadVarint(s).Ok? && ReadVarint(s).value.used + ReadVarint(s).value.value <= |s|)
    ensures wire == BYTES && ReadBody(s, wire).Ok? ==>
      var v := ReadVarint(s).value; ReadBody(s, wire).value == Body(0, s[v.used..v.used + v.value], v.used + v.value)
  {
  }
}
