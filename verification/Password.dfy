/**
 Password hashes in the PHC string format: printing with the active cost parameters, and the
 verifier's parser. argon2id stays abstract; it may panic (no value) outside its domain.
 */
module Password {
  import opened Options
  import opened Base64
  import opened Text

  const VERSION := 19
  const KEY_LEN := 32
  const U32 := 0x1_0000_0000
  const U8 := 256
  const MAX_DIGEST := 1024

  datatype Params = Params(memory: nat, time: nat, threads: nat)

  /** Passwords, salt, cost parameters and output length to the digest. */
  type Argon = (string, seq<Byte>, Params, nat) -> Option<seq<Byte>>

  ghost predicate Lawful(argon: Argon)
  {
    forall pw, salt, cost, n {:trigger argon(pw, salt, cost, n)} :: argon(pw, salt, cost, n).Some? ==>
          |argon(pw, salt, cost, n).value| == n
  }

  datatype Verdict = Match | Mismatch | Malformed | Panics

  datatype Phc = Phc(cost: Params, salt: seq<Byte>, digest: seq<Byte>)

  function Costs(cost: Params): string
  {
    "m=" + Decimal(cost.memory) + ",t=" + Decimal(cost.time) + ",p=" + Decimal(cost.threads)
  }

  function Show(phc: Phc): string
  {
    "$argon2id$" + "v=" + Decimal(VERSION) + "$" + Costs(phc.cost) + "$" + Encode(Std, phc.salt) + "$" +
        Encode(Std, phc.digest)
  }

  /** No value for an empty password, or where argon2 panics. */
  function Hash(argon: Argon, active: Params, salt: seq<Byte>, plaintext: string): Option<string>
  {
    if plaintext == "" then None else
    match argon(plaintext, salt, active, KEY_LEN)
    case None => None
    case Some(digest) => Some(Show(Phc(active, salt, digest)))
  }

  // ------------------------------------------------------------------ the scanner

  /** Skips blanks; a line feed is an error. */
  function SkipBlanks(s: string): Option<string>
  {
    if s == "" then Some(s) else if s[0] == '\n' then None else if IsSpace(s[0]) then SkipBlanks(s[1..]) else Some(s)
  }

  function Literal(lit: string, s: string): Option<string>
  {
    if lit <= s then Some(s[|lit|..]) else None
  }

  /** A decimal number below `bound` after optional blanks, and what follows it. */
  function Unsigned(s: string, bound: nat): Option<(nat, string)>
  {
    match SkipBlanks(s)
    case None => None
    case Some(t) =>
      var k := DigitRun(t);
      if k == 0 || Number(t[..k]) >= bound then None else Some((Number(t[..k]), t[k..]))
  }

  /** A `lit` and then a number. */
  function Field(lit: string, s: string, bound: nat): Option<(nat, string)>
  {
    match Literal(lit, s) case None => None case Some(t) => Unsigned(t, bound)
  }

  /** Whether the version field scans as the supported version; anything after the number is ignored. */
  predicate VersionOk(s: string)
  {
    match Literal("v=", s)
    case None => false
    case Some(t) =>
      match SkipBlanks(t)
      case None => false
      case Some(u) =>
        var digits := if u != "" && u[0] == '+' then u[1..] else u;
        var k := DigitRun(digits);
        k > 0 && Number(digits[..k]) == VERSION
  }

  /** Anything after the third number is ignored. */
  function ReadCosts(s: string): Option<Params>
  {
    match Field("m=", s, U32)
    case None => None
    case Some(m) =>
      match Field(",t=", m.1, U32)
      case None => None
      case Some(t) => (match Field(",p=", t.1, U8) case None => None case Some(p) => Some(Params(m.0, t.0, p.0)))
  }

  function Parse(stored: string): Option<Phc> { ParseFields(Split(stored, '$')) }

  function ParseFields(parts: seq<string>): Option<Phc>
  {
    if |parts| != 6 || parts[0] != "" || parts[1] != "argon2id" || !VersionOk(parts[2]) then None else
    match ReadCosts(parts[3])
    case None => None
    case Some(cost) =>
      match Decode(Std, parts[4])
      case None => None
      case Some(salt) =>
        match Decode(Std, parts[5])
        case None => None
        case Some(digest) => if |digest| > MAX_DIGEST then None else Some(Phc(cost, salt, digest))
  }

  /** The cost parameters come from the string alone: the active ones are no argument. */
  function Verify(argon: Argon, stored: string, plaintext: string): Verdict
  {
    match Parse(stored)
    case None => Malformed
    case Some(phc) =>
      match argon(plaintext, phc.salt, phc.cost, |phc.digest|)
      case None => Panics
      case Some(got) => if got == phc.digest then Match else Mismatch
  }

  // ------------------------------------------------------------------ round trips

  lemma {:induction false} DecimalIsPlain(n: nat, c: char)
    requires !IsDigit(c)
    ensures c !in Decimal(n)
  {
  }

  lemma UnsignedReadsBack(n: nat, rest: string, bound: nat)
    requires rest != "" ==> !IsDigit(rest[0])
    ensures Unsigned(Decimal(n) + rest, bound) == if n < bound then Some((n, rest)) else None
  {
    var s := Decimal(n) + rest;
    assert s[0] == Decimal(n)[0] && IsDigit(s[0]) && !IsSpace(s[0]);
    DigitRunStops(Decimal(n), rest);
    NumberOfDecimal(n);
    assert s[..|Decimal(n)|] == Decimal(n) && s[|Decimal(n)|..] == rest;
  }

  lemma FieldReadsBack(lit: string, n: nat, rest: string, bound: nat)
    requires rest != "" ==> !IsDigit(rest[0])
    ensures Field(lit, lit + Decimal(n) + rest, bound) == if n < bound then Some((n, rest)) else None
  {
    var s := lit + Decimal(n) + rest;
    assert s[|lit|..] == Decimal(n) + rest && lit <= s;
    UnsignedReadsBack(n, rest, bound);
  }

  predicate InRange(cost: Params) { cost.memory < U32 && cost.time < U32 && cost.threads < U8 }

  /** Costs scan back exactly when they fit their fields; others are refused, never truncated. */
  lemma CostsReadBack(cost: Params)
    ensures ReadCosts(Costs(cost)) == if InRange(cost) then Some(cost) else None
  {
    var p := ",p=" + Decimal(cost.threads);
    var t := ",t=" + Decimal(cost.time) + p;
    assert Costs(cost) == "m=" + Decimal(cost.memory) + t;
    FieldReadsBack("m=", cost.memory, t, U32);
    FieldReadsBack(",t=", cost.time, p, U32);
    assert p == p + "";
    FieldReadsBack(",p=", cost.threads, "", U8);
  }

  /** Only the supported version is accepted. */
  lemma VersionReadsBack(version: nat)
    ensures VersionOk("v=" + Decimal(version)) <==> version == VERSION
  {
    var s := Decimal(version);
    assert ("v=" + s)[2..] == s && s == s + "";
    assert IsDigit(s[0]) && !IsSpace(s[0]);
    DigitRunStops(s, "");
    NumberOfDecimal(version);
    assert s[..|s|] == s;
  }

  lemma PlainCosts(cost: Params)
    ensures '$' !in Costs(cost)
  {
    DecimalIsPlain(cost.memory, '$');
    DecimalIsPlain(cost.time, '$');
    DecimalIsPlain(cost.threads, '$');
  }

  /** The printed string has exactly the six fields it was made of. */
  lemma SplitsInSix(phc: Phc)
    ensures Split(Show(phc), '$') == ["", "argon2id", "v=" + Decimal(VERSION), Costs(phc.cost), Encode(Std, phc.salt),
                                      Encode(Std, phc.digest)]
  {
    var parts := ["", "argon2id", "v=" + Decimal(VERSION), Costs(phc.cost), Encode(Std, phc.salt),
                  Encode(Std, phc.digest)];
    PlainCosts(phc.cost);
    DecimalIsPlain(VERSION, '$');
    DecodeEncode(Std, phc.salt);
    DecodeEncode(Std, phc.digest);
    JoinsToShow(phc);
    SplitJoin(parts, '$');
  }

  lemma JoinCons(head: string, tail: seq<string>)
    requires tail != []
    ensures Join([head] + tail, '$') == head + "$" + Join(tail, '$')
  {
    assert ([head] + tail)[1..] == tail;
  }

  lemma JoinSix(a: string, b: string, c: string, d: string, e: string, f: string)
    ensures Join([a, b, c, d, e, f], '$') == a + "$" + (b + "$" + (c + "$" + (d + "$" + (e + "$" + f))))
  {
    JoinCons(e, [f]);
    JoinCons(d, [e, f]);
    JoinCons(c, [d, e, f]);
    JoinCons(b, [c, d, e, f]);
    JoinCons(a, [b, c, d, e, f]);
    assert [e] + [f] == [e, f] && [d] + [e, f] == [d, e, f] && [c] + [d, e, f] == [c, d, e, f];
    assert [b] + [c, d, e, f] == [b, c, d, e, f] && [a] + [b, c, d, e, f] == [a, b, c, d, e, f];
  }

  lemma JoinsToShow(phc: Phc)
    ensures Join(["", "argon2id", "v=" + Decimal(VERSION), Costs(phc.cost), Encode(Std, phc.salt),
                  Encode(Std, phc.digest)], '$') == Show(phc)
  {
    var v, c, s, d := "v=" + Decimal(VERSION), Costs(phc.cost), Encode(Std, phc.salt), Encode(Std, phc.digest);
    JoinSix("", "argon2id", v, c, s, d);
    Regroup(v, c, s, d);
    assert "$argon2id$" + "v=" + Decimal(VERSION) == "$argon2id$" + v;
  }

  lemma Regroup(v: string, c: string, s: string, d: string)
    ensures "" + "$" + ("argon2id" + "$" + (v + "$" + (c + "$" + (s + "$" + d)))) ==
            "$argon2id$" + v + "$" + c + "$" + s + "$" + d
  {
    assert "" + "$" + ("argon2id" + "$") == "$argon2id$";
  }

  lemma FieldsReadBack(parts: seq<string>, cost: Params, salt: seq<Byte>, digest: seq<Byte>)
    requires |parts| == 6 && parts[0] == "" && parts[1] == "argon2id" && VersionOk(parts[2])
    requires ReadCosts(parts[3]) == if InRange(cost) then Some(cost) else None
    requires Decode(Std, parts[4]) == Some(salt) && Decode(Std, parts[5]) == Some(digest)
    ensures ParseFields(parts) == if InRange(cost) && |digest| <= MAX_DIGEST then Some(Phc(cost, salt, digest))
            else None
  {
  }

  /** Parsing undoes printing, for every salt, exactly when the costs fit and the digest is not too long. */
  lemma ParseShow(phc: Phc)
    ensures Parse(Show(phc)) == if InRange(phc.cost) && |phc.digest| <= MAX_DIGEST then Some(phc) else None
  {
    SplitsInSix(phc);
    VersionReadsBack(VERSION);
    CostsReadBack(phc.cost);
    DecodeEncode(Std, phc.salt);
    DecodeEncode(Std, phc.digest);
    FieldsReadBack(Split(Show(phc), '$'), phc.cost, phc.salt, phc.digest);
  }

  /** A hash made under any cost parameters accepts its own password, and accepts another exactly when
      argon2 maps both to one digest. */
  lemma HashThenVerify(argon: Argon, active: Params, salt: seq<Byte>, plaintext: string, attempt: string)
    requires Lawful(argon) && InRange(active) && Hash(argon, active, salt, plaintext).Some?
    ensures var stored := Hash(argon, active, salt, plaintext).value;
            && Verify(argon, stored, plaintext) == Match
            && (Verify(argon, stored, attempt) == Match <==>
                  argon(attempt, salt, active, KEY_LEN) == argon(plaintext, salt, active, KEY_LEN))
            && Verify(argon, stored, attempt) != Malformed
  {
    var digest := argon(plaintext, salt, active, KEY_LEN).value;
    ParseShow(Phc(active, salt, digest));
  }
}
