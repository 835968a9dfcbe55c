/**
 The two scanners that look for CA-making extensions in a signing request, against a decoder of the
 DER they scan.
 */
module Csr {
  import opened Options
  import opened Base64

  const SEQUENCE := 0x30
  const BOOLEAN := 0x01
  const INTEGER := 0x02
  const BIT_STRING := 0x03
  const OCTET_STRING := 0x04

  // ------------------------------------------------------------------ the scanners

  predicate IsCABasicConstraints(v: seq<Byte>)
  {
    |v| >= 5 && v[0] == SEQUENCE && v[2] == BOOLEAN && v[3] == 1 && v[4] == 0xff
  }

  /** Whether bit `i` of an octet is set, counting from the most significant. */
  predicate Bit(b: Byte, i: nat)
    requires i < 8
  {
    b / [128, 64, 32, 16, 8, 4, 2, 1][i] % 2 == 1
  }

  /** Bits 5 (keyCertSign) and 6 (cRLSign). */
  predicate SignsCerts(b: Byte) { Bit(b, 5) || Bit(b, 6) }

  predicate ScanBits(v: seq<Byte>, idx: nat)
  {
    idx + 2 < |v| && v[idx + 1] >= 2 && idx + 2 + v[idx + 1] <= |v| && SignsCerts(v[idx + 3])
  }

  predicate HasCAKeyUsageBits(v: seq<Byte>)
  {
    if |v| > 0 && v[0] == BIT_STRING then ScanBits(v, 0)
    else if |v| > 2 && v[0] == OCTET_STRING && v[2] == BIT_STRING then ScanBits(v, 2)
    else false
  }

  datatype Extension = Extension(oid: seq<nat>, value: seq<Byte>)

  const BASIC_CONSTRAINTS := [2, 5, 29, 19]
  const KEY_USAGE := [2, 5, 29, 15]

  predicate Forbidden(e: Extension)
  {
    (e.oid == BASIC_CONSTRAINTS && IsCABasicConstraints(e.value)) || (e.oid == KEY_USAGE && HasCAKeyUsageBits(e.value))
  }

  /** The position of the first forbidden extension, if there is one. */
  method ValidateExtensions(exts: seq<Extension>) returns (at: Option<nat>)
    ensures at.None? ==> forall i :: 0 <= i < |exts| ==> !Forbidden(exts[i])
    ensures at.Some? ==>
              && at.value < |exts| && Forbidden(exts[at.value])
              && forall i :: 0 <= i < at.value ==> !Forbidden(exts[i])
  {
    var i := 0;
    while i < |exts|
      invariant i <= |exts| && forall j :: 0 <= j < i ==> !Forbidden(exts[j])
    {
      if exts[i].oid == BASIC_CONSTRAINTS {
        if IsCABasicConstraints(exts[i].value) { return Some(i); }
      } else if exts[i].oid == KEY_USAGE {
        if HasCAKeyUsageBits(exts[i].value) { return Some(i); }
      }
      i := i + 1;
    }
    return None;
  }

  // ------------------------------------------------------------------ DER

  datatype Tlv = Tlv(tag: Byte, short: bool, body: seq<Byte>, rest: seq<Byte>)

  function Big(b: seq<Byte>): nat
  {
    if b == [] then 0 else 256 * Big(b[..|b| - 1]) + b[|b| - 1]
  }

  /** The first element: its length in one octet, or minimally in the long form. */
  function ReadTlv(v: seq<Byte>): Option<Tlv>
  {
    if |v| < 2 then None
    else if v[1] < 128 then
      if 2 + v[1] <= |v| then Some(Tlv(v[0], true, v[2..2 + v[1]], v[2 + v[1]..])) else None
    else
      var start: int := v[1] as int - 126;
      if start == 2 || start > |v| then None else
      var n := Big(v[2..start]);
      if v[2] == 0 || n < 128 || start + n > |v| then None
      else Some(Tlv(v[0], false, v[start..start + n], v[start + n..]))
  }

  /** A whole value of one element with this tag. */
  function Only(v: seq<Byte>, tag: Byte): Option<Tlv>
  {
    match ReadTlv(v)
    case None => None
    case Some(t) => if t.tag == tag && t.rest == [] then Some(t) else None
  }

  predicate IsPathLength(v: seq<Byte>) { Only(v, INTEGER).Some? && Only(v, INTEGER).value.body != [] }

  /** The cA flag of a BasicConstraints value (section 4.2.1.9 of RFC 5280), if it is one. */
  function DecodesCA(v: seq<Byte>): Option<bool>
  {
    match Only(v, SEQUENCE)
    case None => None
    case Some(t) =>
      if t.body == [] || IsPathLength(t.body) then Some(false) else
      match ReadTlv(t.body)
      case None => None
      case Some(flag) =>
        if flag.tag == BOOLEAN && (flag.body == [0] || flag.body == [0xff]) &&
            (flag.rest == [] || IsPathLength(flag.rest))
        then Some(flag.body == [0xff]) else None
  }

  /** The flag octets of a KeyUsage value, if it is a well-formed bit string (unused bits are zero). */
  function DecodesBits(v: seq<Byte>): Option<seq<Byte>>
  {
    match Only(v, BIT_STRING)
    case None => None
    case Some(t) =>
      if t.body == [] || t.body[0] > 7 || (|t.body| == 1 && t.body[0] != 0) then None
      else if |t.body| > 1 && t.body[|t.body| - 1] % [1, 2, 4, 8, 16, 32, 64, 128][t.body[0]] != 0 then None
      else Some(t.body[1..])
  }

  /** Whether a bit string's named bit is set: present, and one. */
  predicate NamedBit(v: seq<Byte>, i: nat)
    requires DecodesBits(v).Some? && i < 8
  {
    var octets, unused := DecodesBits(v).value, Only(v, BIT_STRING).value.body[0];
    i < 8 * |octets| - unused && Bit(octets[0], i)
  }

  // ------------------------------------------------------------------ agreement

  /** On every BasicConstraints value the scanner reports the cA flag when the length is in short form;
      in long form it reports whether the length octets happen to begin 01 01 FF. */
  lemma ScannerReadsCA(v: seq<Byte>)
    requires DecodesCA(v).Some?
    ensures IsCABasicConstraints(v) <==>
              if ReadTlv(v).value.short then DecodesCA(v) == Some(true) else v[1] >= 0x83 && v[2..5] == [1, 1, 0xff]
  {
    if ReadTlv(v).value.short { ShortLength(v); } else { LongLength(v); }
  }

  lemma ShortLength(v: seq<Byte>)
    requires DecodesCA(v).Some? && ReadTlv(v).value.short
    ensures IsCABasicConstraints(v) <==> DecodesCA(v) == Some(true)
  {
    var body := ReadTlv(v).value.body;
    assert body == v[2..];
    if body != [] && !IsPathLength(body) {
      ShortFlag(body);
      assert v[2] == BOOLEAN && v[3] == 1 && v[4] == body[2];
    }
  }

  lemma ShortFlag(body: seq<Byte>)
    requires |body| > 0 && body[0] == BOOLEAN && ReadTlv(body).Some?
    ensures |ReadTlv(body).value.body| == 1 ==> |body| >= 3 && body[1] == 1 && ReadTlv(body).value.body == [body[2]]
  {
  }

  /** A long-form length has at least one octet, and one octet of at least 128. */
  lemma LongHeader(v: seq<Byte>)
    requires ReadTlv(v).Some? && !ReadTlv(v).value.short
    ensures |v| >= 131 && v[1] >= 0x81 && (v[1] == 0x81 ==> v[2] >= 128)
  {
    if v[1] == 0x81 { assert v[2..3] == [v[2]] && Big([v[2]]) == v[2]; }
  }

  /** The body of a two-octet length begins at octet 4, with the tag of a flag or of a path length. */
  lemma LongBody(v: seq<Byte>)
    requires DecodesCA(v).Some? && !ReadTlv(v).value.short && v[1] == 0x82
    ensures |v| >= 5 && (v[4] == BOOLEAN || v[4] == INTEGER)
  {
    assert v[4] == ReadTlv(v).value.body[0];
  }

  lemma LongLength(v: seq<Byte>)
    requires DecodesCA(v).Some? && !ReadTlv(v).value.short
    ensures |v| >= 5 && (IsCABasicConstraints(v) <==> v[1] >= 0x83 && v[2..5] == [1, 1, 0xff])
  {
    LongHeader(v);
    if v[1] == 0x82 { LongBody(v); }
    assert v[2..5] == [v[2], v[3], v[4]];
  }

  /** On every short-form KeyUsage value the scanner reports exactly keyCertSign or cRLSign (section
      4.2.1.3 of RFC 5280), bare or wrapped in an octet string. */
  lemma ScannerReadsKeyUsage(v: seq<Byte>)
    requires DecodesBits(v).Some? && ReadTlv(v).value.short
    ensures HasCAKeyUsageBits(v) <==> NamedBit(v, 5) || NamedBit(v, 6)
  {
    FirstFlagOctet(v);
  }

  lemma ScannerReadsWrappedKeyUsage(v: seq<Byte>)
    requires Only(v, OCTET_STRING).Some? && ReadTlv(v).value.short
    requires DecodesBits(ReadTlv(v).value.body).Some? && ReadTlv(ReadTlv(v).value.body).value.short
    ensures HasCAKeyUsageBits(v) <==> NamedBit(ReadTlv(v).value.body, 5) || NamedBit(ReadTlv(v).value.body, 6)
  {
    var body := ReadTlv(v).value.body;
    assert body == v[2..];
    FirstFlagOctet(body);
    assert ScanBits(v, 2) <==> ScanBits(body, 0);
  }

  lemma FirstFlagOctet(v: seq<Byte>)
    requires DecodesBits(v).Some? && ReadTlv(v).value.short
    ensures ScanBits(v, 0) <==> NamedBit(v, 5) || NamedBit(v, 6)
  {
    var t := Only(v, BIT_STRING).value;
    assert t.body == v[2..];
    if |t.body| > 1 {
      assert DecodesBits(v).value[0] == v[3];
      if |t.body| == 2 { UnusedBitsAreZero(v[3], v[2]); }
    }
  }

  lemma MultipleOfFour(b: Byte, k: int)
    requires b == 4 * k
    ensures !Bit(b, 6)
  {
    assert b / 2 == 2 * k;
  }

  lemma MultipleOfEight(b: Byte, k: int)
    requires b == 8 * k
    ensures !Bit(b, 5) && !Bit(b, 6)
  {
    assert b / 4 == 2 * k;
    MultipleOfFour(b, 2 * k);
  }

  lemma UnusedBitsAreZero(b: Byte, unused: Byte)
    requires unused < 8 && b % [1, 2, 4, 8, 16, 32, 64, 128][unused] == 0
    ensures unused >= 2 ==> !Bit(b, 6)
    ensures unused >= 3 ==> !Bit(b, 5)
  {
    var c: int := b;
    if unused == 2 {
      MultipleOfFour(b, c / 4);
    } else if unused == 3 {
      MultipleOfEight(b, c / 8);
    } else if unused == 4 {
      MultipleOfEight(b, 2 * (c / 16));
    } else if unused == 5 {
      MultipleOfEight(b, 4 * (c / 32));
    } else if unused == 6 {
      MultipleOfEight(b, 8 * (c / 64));
    } else if unused == 7 {
      MultipleOfEight(b, 16 * (c / 128));
    }
  }

  /** In long form the scanner looks at octet 3, which is a length octet or the unused-bit count. */
  lemma ScannerOnLongKeyUsage(v: seq<Byte>)
    requires DecodesBits(v).Some? && !ReadTlv(v).value.short
    ensures |v| > 3 && (HasCAKeyUsageBits(v) <==> SignsCerts(v[3]))
  {
    var start: int := v[1] as int - 126;
    assert |ReadTlv(v).value.body| == |v| - start;
  }

  // ------------------------------------------------------------------ where they differ

  /** A long-form BasicConstraints with cA set, its path length padded with ones, that is not reported. */
  function LongCA(): seq<Byte> { [SEQUENCE, 0x81, 130] + ([BOOLEAN, 1, 0xff] + ([INTEGER, 125] + Padding(125, 1))) }

  function Padding(n: nat, b: Byte): seq<Byte> { seq(n, _ => b) }

  lemma LongCAIsMissed()
    ensures DecodesCA(LongCA()) == Some(true) && !IsCABasicConstraints(LongCA())
  {
    var v, path := LongCA(), [INTEGER, 125] + Padding(125, 1);
    var body := [BOOLEAN, 1, 0xff] + path;
    assert v[2..3] == [130] && Big([130]) == 130;
    assert v[3..133] == body && v[133..] == [];
    assert path[2..127] == Padding(125, 1) && path[127..] == [];
    assert body[2..3] == [0xff] && body[3..] == path;
    assert ReadTlv(body) == Some(Tlv(BOOLEAN, true, [0xff], path));
    assert !IsPathLength(body);
  }

  /** The scanner's answer is not that of the named bits. */
  predicate Misread(v: seq<Byte>)
  {
    DecodesBits(v).Some? && (HasCAKeyUsageBits(v) <==> !(NamedBit(v, 5) || NamedBit(v, 6)))
  }

  /** A long-form KeyUsage with this unused-bit count and these first flags. */
  function LongBits(unused: Byte, flags: Byte): seq<Byte>
  {
    [BIT_STRING, 0x81, 129] + ([unused, flags] + Padding(127, 0))
  }

  lemma LongBitsDecode(unused: Byte, flags: Byte)
    requires unused < 8
    ensures DecodesBits(LongBits(unused, flags)) == Some([flags] + Padding(127, 0))
    ensures !ReadTlv(LongBits(unused, flags)).value.short && LongBits(unused, flags)[3] == unused
    ensures Only(LongBits(unused, flags), BIT_STRING).value.body[0] == unused
  {
    var v, body := LongBits(unused, flags), [unused, flags] + Padding(127, 0);
    assert v[2..3] == [129] && Big([129]) == 129;
    assert v[3..132] == body && v[132..] == [];
    assert ReadTlv(v) == Some(Tlv(BIT_STRING, false, body, []));
    assert body[128] == 0 && body[1..] == [flags] + Padding(127, 0);
  }

  /** Of those, the ones whose count and flags disagree on bits 5 and 6 are misread. */
  lemma LongKeyUsageIsMisreadIff(unused: Byte, flags: Byte)
    requires unused < 8
    ensures Misread(LongBits(unused, flags)) <==> (SignsCerts(unused) <==> !SignsCerts(flags))
  {
    LongBitsDecode(unused, flags);
    ScannerOnLongKeyUsage(LongBits(unused, flags));
  }

  /** One with keyCertSign set that is missed, and one without either bit that is reported. */
  lemma LongKeyUsageIsMisread()
    ensures Misread(LongBits(0, 4)) && Misread(LongBits(4, 0))
  {
    LongKeyUsageIsMisreadIff(0, 4);
    LongKeyUsageIsMisreadIff(4, 0);
  }
}
