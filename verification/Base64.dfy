/**
 Base64 without padding (sections 4 and 5 of RFC 4648), with the decoder's leniency: line breaks are
 skipped and unused trailing bits are ignored.
 */
module Base64 {
  import opened Options

  type Byte = b: int | 0 <= b < 256

  datatype Alphabet = Std | Url

  function Sym(a: Alphabet, v: nat): char
    requires v < 64
  {
    if v < 26 then ('A' as int + v) as char
    else if v < 52 then ('a' as int + (v - 26)) as char
    else if v < 62 then ('0' as int + (v - 52)) as char
    else if v == 62 then (if a.Std? then '+' else '-')
    else if a.Std? then '/' else '_'
  }

  function Val(a: Alphabet, c: char): (v: Option<nat>)
    ensures v.Some? ==> v.value < 64 && Sym(a, v.value) == c
  {
    if 'A' <= c <= 'Z' then Some(c as int - 'A' as int)
    else if 'a' <= c <= 'z' then Some(c as int - 'a' as int + 26)
    else if '0' <= c <= '9' then Some(c as int - '0' as int + 52)
    else if c == (if a.Std? then '+' else '-') then Some(62)
    else if c == (if a.Std? then '/' else '_') then Some(63)
    else None
  }

  type Sextet = v: int | 0 <= v < 64

  // Three bytes b, c, e and four 6-bit groups x, y, z, w in terms of each other.

  function X(b: int): int { b / 4 }
  function Y(b: int, c: int): int { b % 4 * 16 + c / 16 }
  function Z(c: int, e: int): int { c % 16 * 4 + e / 64 }
  function W(e: int): int { e % 64 }
  function B(x: int, y: int): int { x * 4 + y / 16 }
  function C(y: int, z: int): int { y % 16 * 16 + z / 4 }
  function E(z: int, w: int): int { z % 4 * 64 + w }

  /** The 6-bit groups of the bytes, the last one padded with zero bits. */
  function Pack(b: seq<Byte>): seq<Sextet>
  {
    if |b| == 0 then []
    else if |b| == 1 then [X(b[0]), Y(b[0], 0)]
    else if |b| == 2 then [X(b[0]), Y(b[0], b[1]), Z(b[1], 0)]
    else [X(b[0]), Y(b[0], b[1]), Z(b[1], b[2]), W(b[2])] + Pack(b[3..])
  }

  /** The bytes of the 6-bit groups; a lone trailing group is an error, and leftover bits are dropped. */
  function Unpack(d: seq<Sextet>): Option<seq<Byte>>
  {
    if |d| == 0 then Some([])
    else if |d| == 1 then None
    else if |d| == 2 then Some([B(d[0], d[1])])
    else if |d| == 3 then Some([B(d[0], d[1]), C(d[1], d[2])])
    else match Unpack(d[4..])
      case None => None
      case Some(rest) => Some([B(d[0], d[1]), C(d[1], d[2]), E(d[2], d[3])] + rest)
  }

  function Show(a: Alphabet, d: seq<Sextet>): string
  {
    if d == [] then "" else [Sym(a, d[0])] + Show(a, d[1..])
  }

  /** The values of the symbols, line breaks skipped. */
  function Read(a: Alphabet, s: string): Option<seq<Sextet>>
  {
    if s == "" then Some([])
    else if s[0] == '\r' || s[0] == '\n' then Read(a, s[1..])
    else match Val(a, s[0])
      case None => None
      case Some(v) => (match Read(a, s[1..]) case None => None case Some(rest) => Some([v] + rest))
  }

  function Encode(a: Alphabet, b: seq<Byte>): string { Show(a, Pack(b)) }

  function Decode(a: Alphabet, s: string): Option<seq<Byte>>
  {
    match Read(a, s) case None => None case Some(d) => Unpack(d)
  }

  // ------------------------------------------------------------------ round trips

  lemma SymVal(a: Alphabet, v: nat)
    requires v < 64
    ensures Val(a, Sym(a, v)) == Some(v) && Sym(a, v) !in "\r\n.$,"
  {
  }

  lemma {:induction false} ReadShow(a: Alphabet, d: seq<Sextet>)
    ensures Read(a, Show(a, d)) == Some(d)
    ensures forall c :: c in Show(a, d) ==> c !in "\r\n.$,"
  {
    if d != [] {
      SymVal(a, d[0]);
      ReadShow(a, d[1..]);
      assert Show(a, d)[1..] == Show(a, d[1..]) && [d[0]] + d[1..] == d;
    }
  }

  lemma QuantumOfBytes(b: Byte, c: Byte, e: Byte)
    ensures B(X(b), Y(b, c)) == b && C(Y(b, c), Z(c, e)) == c && E(Z(c, e), W(e)) == e
  {
  }

  lemma UnpackQuantum(b: seq<Byte>, rest: seq<Sextet>)
    requires |b| >= 3 && Unpack(rest) == Some(b[3..])
    ensures Unpack([X(b[0]), Y(b[0], b[1]), Z(b[1], b[2]), W(b[2])] + rest) == Some(b)
  {
    QuantumOfBytes(b[0], b[1], b[2]);
    assert ([X(b[0]), Y(b[0], b[1]), Z(b[1], b[2]), W(b[2])] + rest)[4..] == rest;
    assert [b[0], b[1], b[2]] + b[3..] == b;
  }

  lemma UnpackOne(b: Byte)
    ensures Unpack([X(b), Y(b, 0)]) == Some([b])
  {
    var y := Y(b, 0);
    assert B(X(b), y) == b by { QuantumOfBytes(b, 0, 0); }
    assert Unpack([X(b), y]) == Some([B(X(b), y)]);
  }

  lemma UnpackTwo(b: Byte, c: Byte)
    ensures Unpack([X(b), Y(b, c), Z(c, 0)]) == Some([b, c])
  {
    QuantumOfBytes(b, c, 0);
  }

  lemma {:induction false} UnpackPack(b: seq<Byte>)
    ensures Unpack(Pack(b)) == Some(b)
  {
    if |b| > 2 {
      UnpackPack(b[3..]);
      UnpackQuantum(b, Pack(b[3..]));
    } else if |b| == 2 {
      UnpackTwo(b[0], b[1]);
      assert b == [b[0], b[1]];
    } else if |b| == 1 {
      UnpackOne(b[0]);
      assert b == [b[0]];
    }
  }

  /** Decoding undoes encoding, and encodings avoid the separators of the formats built on them. */
  lemma DecodeEncode(a: Alphabet, b: seq<Byte>)
    ensures Decode(a, Encode(a, b)) == Some(b)
    ensures forall c :: c in Encode(a, b) ==> c !in "\r\n.$,"
  {
    ReadShow(a, Pack(b));
    UnpackPack(b);
  }

  /** The bits of the last group that belong to no byte are zero. */
  predicate NoLeftover(d: seq<Sextet>)
  {
    (|d| % 4 == 2 ==> d[|d| - 1] % 16 == 0) && (|d| % 4 == 3 ==> d[|d| - 1] % 4 == 0)
  }

  lemma QuantumOfSextets(x: Sextet, y: Sextet, z: Sextet, w: Sextet)
    ensures X(B(x, y)) == x && Y(B(x, y), C(y, z)) == y && Z(C(y, z), E(z, w)) == z && W(E(z, w)) == w
    ensures Y(B(x, y), 0) == y <==> y % 16 == 0
    ensures Z(C(y, z), 0) == z <==> z % 4 == 0
  {
  }

  lemma PackQuantum(d: seq<Sextet>, rest: seq<Byte>)
    requires |d| >= 4
    ensures Pack([B(d[0], d[1]), C(d[1], d[2]), E(d[2], d[3])] + rest) == d[..4] + Pack(rest)
  {
    QuantumOfSextets(d[0], d[1], d[2], d[3]);
    assert ([B(d[0], d[1]), C(d[1], d[2]), E(d[2], d[3])] + rest)[3..] == rest;
  }

  lemma PackTail(d: seq<Sextet>)
    requires 2 <= |d| < 4
    ensures Pack(Unpack(d).value) == d <==> NoLeftover(d)
  {
    QuantumOfSextets(d[0], d[1], if |d| == 3 then d[2] else 0, 0);
    assert d == if |d| == 3 then [d[0], d[1], d[2]] else [d[0], d[1]];
  }

  lemma LeftoverIsInTail(d: seq<Sextet>)
    requires |d| >= 4
    ensures NoLeftover(d) <==> NoLeftover(d[4..])
  {
    assert |d[4..]| % 4 == |d| % 4;
  }

  lemma SameTail(d: seq<Sextet>, tail: seq<Sextet>)
    requires |d| >= 4
    ensures d[..4] + tail == d <==> tail == d[4..]
  {
    assert d == d[..4] + d[4..] && (d[..4] + tail)[4..] == tail;
  }

  lemma {:induction false} PackUnpack(d: seq<Sextet>)
    requires Unpack(d).Some?
    ensures Pack(Unpack(d).value) == d <==> NoLeftover(d)
  {
    if |d| >= 4 {
      var rest := Unpack(d[4..]).value;
      PackUnpack(d[4..]);
      PackQuantum(d, rest);
      LeftoverIsInTail(d);
      SameTail(d, Pack(rest));
    } else if |d| > 0 {
      PackTail(d);
    }
  }

  lemma {:induction false} ShowRead(a: Alphabet, s: string)
    requires Read(a, s).Some?
    ensures Show(a, Read(a, s).value) == s <==> '\r' !in s && '\n' !in s
    ensures |Read(a, s).value| <= |s|
    ensures '\r' in s || '\n' in s ==> |Read(a, s).value| < |s|
  {
    if s != "" {
      ShowRead(a, s[1..]);
      assert s == [s[0]] + s[1..];
      if s[0] != '\r' && s[0] != '\n' {
        assert Read(a, s).value[1..] == Read(a, s[1..]).value;
      }
      ShowLength(a, Read(a, s).value);
    }
  }

  lemma {:induction false} ShowLength(a: Alphabet, d: seq<Sextet>)
    ensures |Show(a, d)| == |d|
  {
    if d != [] { ShowLength(a, d[1..]); }
  }

  /** A decodable string is the encoding of what it decodes to exactly when it has no line breaks and
      its leftover bits are zero; every other decodable string is an alias of that encoding. */
  lemma CanonicalIff(a: Alphabet, s: string)
    requires Decode(a, s).Some?
    ensures s == Encode(a, Decode(a, s).value) <==> '\r' !in s && '\n' !in s && NoLeftover(Read(a, s).value)
  {
    var d := Read(a, s).value;
    var p := Pack(Decode(a, s).value);
    PackUnpack(d);
    ShowRead(a, s);
    ReadShow(a, p);
    if s == Show(a, p) {
      assert Read(a, s) == Some(p);
    }
  }
}
