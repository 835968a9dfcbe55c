/**
 Reusing a cached certificate: the leaf a replica signs, and when a later boot still accepts it. Times are
 nanoseconds.
 */
module CertCache {
  import opened Options
  import opened Dedup
  import opened Sans

  const SECOND := 1_000_000_000
  const MINUTE := 60 * SECOND
  const DAY := 24 * 60 * MINUTE
  const NEAR_EXPIRY := 30 * DAY
  const DEFAULT_VALIDITY := 365 * DAY

  datatype Authority = Authority(id: nat, notBefore: int, notAfter: int)

  datatype Leaf = Leaf(issuer: nat, dns: seq<string>, ips: seq<Ip>, notBefore: int, notAfter: int, serverAuth: bool)

  /** Certificates carry whole seconds. */
  function WholeSecond(t: int): int { t / SECOND * SECOND }

  /** Addresses in their shortest form, as X.509 stores them. */
  function Stored(ips: seq<Ip>): (r: seq<Ip>)
    ensures |r| == |ips| && forall i :: 0 <= i < |ips| ==> r[i] == IpKey(ips[i])
  {
    if ips == [] then [] else Stored(ips[..|ips| - 1]) + [IpKey(ips[|ips| - 1])]
  }

  function Lifetime(validity: int): int { if validity <= 0 then DEFAULT_VALIDITY else validity }

  /** A leaf signed at `now`; refused when it would name nothing. */
  function GenerateReplicaCert(ca: Authority, dns: seq<string>, ips: seq<Ip>, validity: int, now: int): Option<Leaf>
  {
    if dns == [] && ips == [] then None else
    Some(Leaf(ca.id, dns, Stored(ips), WholeSecond(now - MINUTE), WholeSecond(now + Lifetime(validity)), true))
  }

  /** What X.509 chain verification checks here: the issuer is the trusted root, both certificates are
      within their validity windows, and the leaf may serve. */
  predicate Chains(leaf: Leaf, ca: Authority, now: int)
  {
    leaf.issuer == ca.id && leaf.serverAuth && leaf.notBefore <= now <= leaf.notAfter &&
        ca.notBefore <= now <= ca.notAfter
  }

  predicate CoversDns(have: seq<string>, want: seq<string>, lower: string -> string)
  {
    forall i :: 0 <= i < |want| ==> HasKey(have, lower, lower(want[i]))
  }

  predicate CoversIps(have: seq<Ip>, want: seq<Option<Ip>>)
  {
    forall i :: 0 <= i < |want| && want[i].Some? ==> HasKey(have, IpKey, IpKey(want[i].value))
  }

  datatype Reason =
    | Usable | NoCert | NoAuthority | HasExpired | NearExpiry | MissesDns(name: string) | MissesIp(ip: Ip)
    | BrokenChain

  method KeySet(names: seq<string>, lower: string -> string) returns (have: set<string>)
    ensures forall k :: k in have <==> HasKey(names, lower, k)
  {
    have := {};
    var i := 0;
    while i < |names|
      invariant i <= |names| && forall k :: k in have <==> HasKey(names[..i], lower, k)
    {
      HasKeyGrows(names[..i], names[i], lower);
      assert names[..i + 1] == names[..i] + [names[i]];
      have := have + {lower(names[i])};
      i := i + 1;
    }
    assert names[..|names|] == names;
  }

  method MissingDns(have: seq<string>, want: seq<string>, lower: string -> string) returns (m: Option<string>)
    ensures m.None? <==> CoversDns(have, want, lower)
    ensures m.Some? ==> m.value in want && !HasKey(have, lower, lower(m.value))
  {
    var keys := KeySet(have, lower);
    var i := 0;
    while i < |want|
      invariant i <= |want| && forall j :: 0 <= j < i ==> HasKey(have, lower, lower(want[j]))
    {
      if lower(want[i]) !in keys { return Some(want[i]); }
      i := i + 1;
    }
    return None;
  }

  method MissingIp(have: seq<Ip>, want: seq<Option<Ip>>) returns (m: Option<Ip>)
    ensures m.None? <==> CoversIps(have, want)
    ensures m.Some? ==> m in want && !HasKey(have, IpKey, IpKey(m.value))
  {
    var i := 0;
    while i < |want|
      invariant i <= |want| && forall j :: 0 <= j < i && want[j].Some? ==> HasKey(have, IpKey, IpKey(want[j].value))
    {
      if want[i].Some? {
        var found := HasIp(have, want[i].value);
        if !found { return want[i]; }
      }
      i := i + 1;
    }
    return None;
  }

  method CertCacheValid(cert: Option<Leaf>, wantDns: seq<string>, wantIps: seq<Option<Ip>>, ca: Option<Authority>,
                        now: int, lower: string -> string)
    returns (r: Reason)
    ensures r == Usable <==> cert.Some? && ca.Some? && Accepts(cert.value, wantDns, wantIps, ca.value, now, lower)
    ensures (r == NoCert <==> cert.None?) && (r == NoAuthority <==> cert.Some? && ca.None?)
    ensures r == HasExpired <==> cert.Some? && ca.Some? && cert.value.notAfter <= now
    ensures r == NearExpiry <==> cert.Some? && ca.Some? && now < cert.value.notAfter < now + NEAR_EXPIRY
    ensures r.MissesDns? ==> cert.Some? && r.name in wantDns && !HasKey(cert.value.dns, lower, lower(r.name))
    ensures r.MissesIp? ==> cert.Some? && Some(r.ip) in wantIps && !HasKey(cert.value.ips, IpKey, IpKey(r.ip))
  {
    if cert.None? { return NoCert; }
    if ca.None? { return NoAuthority; }
    var leaf := cert.value;
    if now >= leaf.notAfter { return HasExpired; }
    if leaf.notAfter - now < NEAR_EXPIRY { return NearExpiry; }
    var name := MissingDns(leaf.dns, wantDns, lower);
    if name.Some? { return MissesDns(name.value); }
    var ip := MissingIp(leaf.ips, wantIps);
    if ip.Some? { return MissesIp(ip.value); }
    return if Chains(leaf, ca.value, now) then Usable else BrokenChain;
  }

  predicate Accepts(leaf: Leaf, wantDns: seq<string>, wantIps: seq<Option<Ip>>, ca: Authority, now: int,
                    lower: string -> string)
  {
    now + NEAR_EXPIRY <= leaf.notAfter && CoversDns(leaf.dns, wantDns, lower) && CoversIps(leaf.ips, wantIps) &&
        Chains(leaf, ca, now)
  }

  // ------------------------------------------------------------------ the leaf of a merged name set

  lemma StoredKeys(ips: seq<Ip>, k: Ip)
    ensures HasKey(Stored(ips), IpKey, k) <==> HasKey(ips, IpKey, k)
  {
    forall i | 0 <= i < |ips| ensures IpKey(Stored(ips)[i]) == IpKey(ips[i]) { KeyIsStable(ips[i]); }
    if i :| 0 <= i < |ips| && IpKey(ips[i]) == k { assert IpKey(Stored(ips)[i]) == k; }
    if i :| 0 <= i < |ips| && IpKey(Stored(ips)[i]) == k { assert IpKey(ips[i]) == k; }
  }

  lemma KeyIsStable(ip: Ip)
    ensures IpKey(IpKey(ip)) == IpKey(ip)
  {
  }

  lemma MergedCoversDns(all: seq<string>, want: seq<string>, lower: string -> string)
    ensures CoversDns(Firsts(all, lower), want, lower) <==> CoversDns(all, want, lower)
  {
    forall i | 0 <= i < |want|
      ensures HasKey(Firsts(all, lower), lower, lower(want[i])) <==> HasKey(all, lower, lower(want[i]))
    {
      FirstsKeys(all, lower, lower(want[i]));
    }
  }

  lemma MergedCoversIps(all: seq<Ip>, want: seq<Option<Ip>>)
    ensures CoversIps(Stored(Firsts(all, IpKey)), want) <==> CoversIps(all, want)
  {
    forall i | 0 <= i < |want| && want[i].Some?
      ensures HasKey(Stored(Firsts(all, IpKey)), IpKey, IpKey(want[i].value)) <==>
                HasKey(all, IpKey, IpKey(want[i].value))
    {
      StoredKeys(Firsts(all, IpKey), IpKey(want[i].value));
      FirstsKeys(all, IpKey, IpKey(want[i].value));
    }
  }

  lemma CoveringLeafIsReusedIff(leaf: Leaf, dns: seq<string>, ips: seq<Ip>, wantDns: seq<string>,
                                wantIps: seq<Option<Ip>>, ca: Authority, now: int, lower: string -> string)
    requires leaf.dns == Firsts(dns, lower) && leaf.ips == Stored(Firsts(ips, IpKey)) && leaf.serverAuth
    ensures Accepts(leaf, wantDns, wantIps, ca, now, lower) <==>
            && leaf.issuer == ca.id && ca.notBefore <= now <= ca.notAfter &&
               leaf.notBefore <= now <= leaf.notAfter - NEAR_EXPIRY
            && CoversDns(dns, wantDns, lower) && CoversIps(ips, wantIps)
  {
    MergedCoversDns(dns, wantDns, lower);
    MergedCoversIps(ips, wantIps);
  }

  /** A leaf signed at `signedAt` for a merged name set is reused at `now` exactly when the same authority
      is current and valid, `now` lies from one minute before signing (whole seconds) to thirty days before
      the end of the leaf's life, and every expected name and address was among those merged. */
  lemma MergedLeafIsReusedIff(ca: Authority, dns: seq<string>, ips: seq<Ip>, validity: int, signedAt: int,
                              wantDns: seq<string>, wantIps: seq<Option<Ip>>, current: Authority, now: int,
                              lower: string -> string)
    requires GenerateReplicaCert(ca, Firsts(dns, lower), Firsts(ips, IpKey), validity, signedAt).Some?
    ensures var leaf := GenerateReplicaCert(ca, Firsts(dns, lower), Firsts(ips, IpKey), validity, signedAt).value;
            Accepts(leaf, wantDns, wantIps, current, now, lower) <==>
            && ca.id == current.id && current.notBefore <= now <= current.notAfter
            && WholeSecond(signedAt - MINUTE) <= now <= WholeSecond(signedAt + Lifetime(validity)) - NEAR_EXPIRY
            && CoversDns(dns, wantDns, lower) && CoversIps(ips, wantIps)
  {
    var leaf := GenerateReplicaCert(ca, Firsts(dns, lower), Firsts(ips, IpKey), validity, signedAt).value;
    CoveringLeafIsReusedIff(leaf, dns, ips, wantDns, wantIps, current, now, lower);
  }

  /** The second a time falls in starts within the second before it. */
  lemma SecondStarts(t: int)
    ensures t - SECOND < WholeSecond(t) <= t
  {
  }

  /** A boot that expects what it merged reuses its own fresh leaf, for the default lifetime and for any of
      at least thirty days and a second. */
  lemma FreshLeafIsReused(ca: Authority, dns: seq<string>, ips: seq<Ip>, wantIps: seq<Option<Ip>>, validity: int,
                          now: int, lower: string -> string)
    requires GenerateReplicaCert(ca, Firsts(dns, lower), Firsts(ips, IpKey), validity, now).Some?
    requires ca.notBefore <= now <= ca.notAfter && (validity <= 0 || validity >= NEAR_EXPIRY + SECOND)
    requires forall i :: 0 <= i < |wantIps| && wantIps[i].Some? ==> wantIps[i].value in ips
    ensures Accepts(GenerateReplicaCert(ca, Firsts(dns, lower), Firsts(ips, IpKey), validity, now).value,
                    Firsts(dns, lower), wantIps, ca, now, lower)
  {
    MergedLeafIsReusedIff(ca, dns, ips, validity, now, Firsts(dns, lower), wantIps, ca, now, lower);
    SecondStarts(now - MINUTE);
    SecondStarts(now + Lifetime(validity));
    CoversItself(dns, ips, wantIps, lower);
  }

  lemma CoversItself(dns: seq<string>, ips: seq<Ip>, wantIps: seq<Option<Ip>>, lower: string -> string)
    requires forall i :: 0 <= i < |wantIps| && wantIps[i].Some? ==> wantIps[i].value in ips
    ensures CoversDns(dns, Firsts(dns, lower), lower) && CoversIps(ips, wantIps)
  {
    forall i | 0 <= i < |Firsts(dns, lower)| ensures HasKey(dns, lower, lower(Firsts(dns, lower)[i])) {
      FirstsKeys(dns, lower, lower(Firsts(dns, lower)[i]));
    }
    forall i | 0 <= i < |wantIps| && wantIps[i].Some? ensures HasKey(ips, IpKey, IpKey(wantIps[i].value)) {
      var j :| 0 <= j < |ips| && ips[j] == wantIps[i].value;
      assert IpKey(ips[j]) == IpKey(wantIps[i].value);
    }
  }
}
