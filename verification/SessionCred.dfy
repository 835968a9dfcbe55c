/**
 Ingress session credentials: prefix, then base64url header, claims and signature joined by dots. JSON
 and ECDSA stay abstract; times are nanoseconds from the zero time.
 */
module SessionCred {
  import opened Options
  import opened Base64
  import opened Text

  const PREFIX := "otx_ingress_"
  const DEFAULT_TTL := 300_000_000_000
  const ZERO_TIME := 0

  datatype Claims = Claims(vmId: nat, nicMac: string, guestIp: Option<nat>, port: int, leaseEpoch: int, expiresAt: int)

  datatype Header = Header(alg: string, typ: string)

  const HEADER := Header("ES384", "otx-ingress")

  /** The JSON printers and parsers; printing claims can fail (a year past 9999). */
  datatype Json = Json(showHeader: Header -> seq<Byte>, readHeader: seq<Byte> -> Option<Header>,
                       showClaims: Claims -> Option<seq<Byte>>, readClaims: seq<Byte> -> Option<Claims>)
  {
    /** Parsing undoes printing. */
    ghost predicate Lawful()
    {
      && (forall h :: readHeader(showHeader(h)) == Some(h))
      && (forall c :: showClaims(c).Some? ==> readClaims(showClaims(c).value) == Some(c))
    }
  }

  /** The verification half of an ECDSA key over SHA-384 of a signing input; absent for other key types. */
  type PublicKey = Option<(string, seq<Byte>) -> bool>

  datatype Outcome = Valid(claims: Claims) | Invalid | Expired

  /** The claims with the default expiry stamped when unset. */
  function Stamped(c: Claims, now: int): Claims
  {
    if c.expiresAt == ZERO_TIME then c.(expiresAt := now + DEFAULT_TTL) else c
  }

  function SigningInput(json: Json, claims: seq<Byte>): string
  {
    Encode(Url, json.showHeader(HEADER)) + "." + Encode(Url, claims)
  }

  /** `signer` maps a signing input to its signature, or fails. */
  function Sign(json: Json, signer: string -> Option<seq<Byte>>, c: Claims, now: int): Option<string>
  {
    match json.showClaims(Stamped(c, now))
    case None => None
    case Some(bytes) =>
      var input := SigningInput(json, bytes);
      match signer(input)
      case None => None
      case Some(sig) => Some(PREFIX + input + "." + Encode(Url, sig))
  }

  predicate IsIngressCredFormat(s: string) { PREFIX <= s }

  function Verify(json: Json, key: PublicKey, token: string, now: int): Outcome
  {
    if key.None? || !IsIngressCredFormat(token) then Invalid else
    var parts := Split(token[|PREFIX|..], '.');
    if |parts| != 3 then Invalid else
    match Decode(Url, parts[0])
    case None => Invalid
    case Some(hdr) =>
      if json.readHeader(hdr) != Some(HEADER) then Invalid else
      match Decode(Url, parts[2])
      case None => Invalid
      case Some(sig) =>
        if !key.value(parts[0] + "." + parts[1], sig) then Invalid else VerifyClaims(json, parts[1], now)
  }

  /** The rest of verification, once the signature is known good. */
  function VerifyClaims(json: Json, segment: string, now: int): Outcome
  {
    match Decode(Url, segment)
    case None => Invalid
    case Some(bytes) =>
      match json.readClaims(bytes)
      case None => Invalid
      case Some(c) => if c.expiresAt == ZERO_TIME then Invalid else if now < c.expiresAt then Valid(c) else Expired
  }

  // ------------------------------------------------------------------ signed tokens verify

  lemma TokenSplits(a: string, b: string, c: string, token: string)
    requires '.' !in a && '.' !in b && '.' !in c && token == PREFIX + (a + "." + b) + "." + c
    ensures IsIngressCredFormat(token) && Split(token[|PREFIX|..], '.') == [a, b, c]
  {
    SplitPlain(c, '.');
    SplitCons(b, c, '.');
    SplitCons(a, b + "." + c, '.');
    assert token[|PREFIX|..] == a + "." + (b + "." + c);
  }

  /** Verifying a freshly signed token gives back the stamped claims exactly while `now` is before the
      expiry, and reports expiry from then on; only a stamp that lands on the zero time is refused. */
  lemma SignThenVerify(json: Json, signer: string -> Option<seq<Byte>>, key: PublicKey, c: Claims, signedAt: int,
                       now: int)
    requires json.Lawful() && Sign(json, signer, c, signedAt).Some?
    requires key.Some? && forall input {:trigger signer(input)} :: signer(input).Some? ==>
               key.value(input, signer(input).value)
    ensures var token := Sign(json, signer, c, signedAt).value;
            var stamped := Stamped(c, signedAt);
            Verify(json, key, token, now) ==
            if stamped.expiresAt == ZERO_TIME then Invalid else if now < stamped.expiresAt then Valid(stamped)
                else Expired
  {
    var stamped := Stamped(c, signedAt);
    var bytes := json.showClaims(stamped).value;
    var input := SigningInput(json, bytes);
    var sig := signer(input).value;
    DecodeEncode(Url, json.showHeader(HEADER));
    DecodeEncode(Url, bytes);
    DecodeEncode(Url, sig);
    TokenSplits(Encode(Url, json.showHeader(HEADER)), Encode(Url, bytes), Encode(Url, sig),
                Sign(json, signer, c, signedAt).value);
  }

  /** The stamp is refused exactly when the caller leaves the expiry unset at one instant before the zero time. */
  lemma StampIsZeroIff(c: Claims, signedAt: int)
    ensures Stamped(c, signedAt).expiresAt == ZERO_TIME <==> c.expiresAt == ZERO_TIME && signedAt == -DEFAULT_TTL
  {
  }

  // ------------------------------------------------------------------ verified tokens were minted

  /** What the session CA has signed: the inputs of these claims, as stamped. */
  function Inputs(json: Json, minted: set<Claims>): set<string>
  {
    set c | c in minted && json.showClaims(c).Some? :: SigningInput(json, json.showClaims(c).value)
  }

  /** Ideal signatures: one verifies only over an input the CA signed. */
  ghost predicate OnlySigned(key: PublicKey, inputs: set<string>)
  {
    key.Some? && forall input, sig {:trigger key.value(input, sig)} :: key.value(input, sig) ==> input in inputs
  }

  lemma SplitOnce(a: string, b: string, c: string, d: string)
    requires '.' !in a && '.' !in b && '.' !in c && '.' !in d && a + "." + b == c + "." + d
    ensures a == c && b == d
  {
    SplitPlain(b, '.');
    SplitPlain(d, '.');
    SplitCons(a, b, '.');
    SplitCons(c, d, '.');
    assert [a] + [b] == [c] + [d];
    assert ([a] + [b])[0] == a && ([a] + [b])[1] == b;
  }

  /** Every token that verifies, however it came about, carries claims the CA minted, unexpired. */
  lemma VerifiedWasMinted(json: Json, key: PublicKey, minted: set<Claims>, token: string, now: int)
    requires json.Lawful() && OnlySigned(key, Inputs(json, minted))
    ensures var r := Verify(json, key, token, now);
            (r.Valid? ==> r.claims in minted && now < r.claims.expiresAt) &&
            (r.Expired? ==> exists c :: c in minted && c.expiresAt <= now)
  {
    var r := Verify(json, key, token, now);
    if r != Invalid {
      var parts := Split(token[|PREFIX|..], '.');
      JoinSplit(token[|PREFIX|..], '.');
      var input := parts[0] + "." + parts[1];
      assert input in Inputs(json, minted);
      var c :| c in minted && json.showClaims(c).Some? && input == SigningInput(json, json.showClaims(c).value);
      var bytes := json.showClaims(c).value;
      DecodeEncode(Url, json.showHeader(HEADER));
      DecodeEncode(Url, bytes);
      SplitOnce(parts[0], parts[1], Encode(Url, json.showHeader(HEADER)), Encode(Url, bytes));
      assert Decode(Url, parts[1]) == Some(bytes);
    }
  }
}
