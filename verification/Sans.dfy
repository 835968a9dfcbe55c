/**
 Subject alternative names: merging and classifying them, and the names of a node's leaf. Case folding,
 address parsing and URL parsing are given functions.
 */
module Sans {
  import opened Options
  import opened Base64
  import opened Dedup

  type Ip = seq<Byte>

  const V4_IN_V6: Ip := [0, 0, 0, 0, 0, 0, 0, 0, 0, 0, 0xff, 0xff]

  /** Address equality: a four-byte address equals its IPv6-mapped form. */
  predicate IpEqual(a: Ip, b: Ip)
  {
    if |a| == |b| then a == b
    else if |a| == 4 && |b| == 16 then b[..12] == V4_IN_V6 && a == b[12..]
    else if |a| == 16 && |b| == 4 then a[..12] == V4_IN_V6 && a[12..] == b
    else false
  }

  /** The shortest form of an address; what X.509 stores. */
  function IpKey(a: Ip): Ip { if |a| == 16 && a[..12] == V4_IN_V6 then a[12..] else a }

  lemma EqualIsSameKey(a: Ip, b: Ip)
    ensures IpEqual(a, b) <==> IpKey(a) == IpKey(b)
  {
    if |a| == 16 { assert a == a[..12] + a[12..]; }
    if |b| == 16 { assert b == b[..12] + b[12..]; }
  }

  /** The addresses that are not nil. */
  function Present(ips: seq<Option<Ip>>): seq<Ip>
  {
    if ips == [] then [] else
      var last := ips[|ips| - 1];
      Present(ips[..|ips| - 1]) + if last.Some? then [last.value] else []
  }

  // ------------------------------------------------------------------ merging

  /** `seen` holds the folded forms of the kept names. */
  ghost predicate Mirrors(seen: set<string>, kept: seq<string>, lower: string -> string)
  {
    forall k {:trigger HasKey(kept, lower, k)} :: k in seen <==> HasKey(kept, lower, k)
  }

  lemma MirrorsGrows(seen: set<string>, kept: seq<string>, name: string, lower: string -> string)
    requires Mirrors(seen, kept, lower)
    ensures Mirrors(seen + {lower(name)}, kept + [name], lower)
  {
    HasKeyGrows(kept, name, lower);
    forall k ensures k in seen + {lower(name)} <==> HasKey(kept + [name], lower, k) {
      assert k in seen <==> HasKey(kept, lower, k);
    }
  }

  /** The names kept are those with the first occurrence of each folded form. */
  method MergeDns(names: seq<string>, lower: string -> string) returns (kept: seq<string>)
    ensures kept == Firsts(names, lower)
  {
    kept := [];
    var seen, i := {}, 0;
    while i < |names|
      invariant i <= |names| && kept == Firsts(names[..i], lower) && Mirrors(seen, kept, lower)
    {
      FirstsStep(names[..i], names[i], lower);
      assert names[..i + 1] == names[..i] + [names[i]];
      assert lower(names[i]) in seen <==> HasKey(kept, lower, lower(names[i]));
      if lower(names[i]) !in seen {
        MirrorsGrows(seen, kept, names[i], lower);
        seen := seen + {lower(names[i])};
        kept := kept + [names[i]];
      }
      i := i + 1;
    }
    assert names[..|names|] == names;
  }

  lemma HasKeyGrows<T, K>(kept: seq<T>, x: T, key: T -> K)
    ensures forall k :: HasKey(kept + [x], key, k) <==> HasKey(kept, key, k) || k == key(x)
  {
    forall k ensures HasKey(kept + [x], key, k) <==> HasKey(kept, key, k) || k == key(x) {
      var all := kept + [x];
      if i :| 0 <= i < |kept| && key(kept[i]) == k { assert key(all[i]) == k; }
      assert all[|kept|] == x;
      if i :| 0 <= i < |all| && key(all[i]) == k { assert i < |kept| ==> key(kept[i]) == k; }
    }
  }

  /** Whether an equal address is listed. */
  method HasIp(ips: seq<Ip>, ip: Ip) returns (found: bool)
    ensures found == HasKey(ips, IpKey, IpKey(ip))
  {
    var i := 0;
    while i < |ips|
      invariant i <= |ips| && forall j :: 0 <= j < i ==> IpKey(ips[j]) != IpKey(ip)
    {
      EqualIsSameKey(ips[i], ip);
      if IpEqual(ips[i], ip) { return true; }
      i := i + 1;
    }
    return false;
  }

  method AppendUniqueIp(ips: seq<Ip>, ip: Ip) returns (r: seq<Ip>)
    ensures r == if HasKey(ips, IpKey, IpKey(ip)) then ips else ips + [ip]
  {
    var found := HasIp(ips, ip);
    return if found then ips else ips + [ip];
  }

  method MergeIps(ips: seq<Option<Ip>>) returns (kept: seq<Ip>)
    ensures kept == Firsts(Present(ips), IpKey)
  {
    kept := [];
    var i := 0;
    while i < |ips|
      invariant i <= |ips| && kept == Firsts(Present(ips[..i]), IpKey)
    {
      assert ips[..i + 1][..i] == ips[..i];
      assert Present(ips[..i + 1]) == if ips[i].Some? then Present(ips[..i]) + [ips[i].value] else Present(ips[..i]);
      if ips[i].Some? {
        FirstsStep(Present(ips[..i]), ips[i].value, IpKey);
        kept := AppendUniqueIp(kept, ips[i].value);
      }
      i := i + 1;
    }
    assert ips[..|ips|] == ips;
  }

  method MergeUniqueSANs(autoDns: seq<string>, autoIps: seq<Option<Ip>>, addDns: seq<string>, addIps: seq<Option<Ip>>,
                         lower: string -> string)
    returns (dns: seq<string>, ips: seq<Ip>)
    ensures dns == Firsts(autoDns + addDns, lower) && ips == Firsts(Present(autoIps + addIps), IpKey)
  {
    dns := MergeDns(autoDns + addDns, lower);
    ips := MergeIps(autoIps + addIps);
  }

  /** Merging a merged list changes nothing. */
  lemma MergeIsIdempotent<T, K>(s: seq<T>, key: T -> K)
    ensures Firsts(Firsts(s, key) + [], key) == Firsts(s, key)
  {
    FirstsDistinct(s, key);
    FirstsOfDistinct(Firsts(s, key), key);
    assert Firsts(s, key) + [] == Firsts(s, key);
  }

  lemma LastSplits<T>(s: seq<T>, more: seq<T>)
    requires more != []
    ensures s + more == (s + more[..|more| - 1]) + [more[|more| - 1]]
  {
  }

  /** Merging in stages is merging at once: what was merged first can be merged again with more. */
  lemma {:induction false} MergeInStages<T, K>(s: seq<T>, more: seq<T>, key: T -> K)
    ensures Firsts(Firsts(s, key) + more, key) == Firsts(s + more, key)
  {
    if more == [] {
      MergeIsIdempotent(s, key);
      assert s + more == s;
    } else {
      var rest, last := more[..|more| - 1], more[|more| - 1];
      MergeInStages(s, rest, key);
      LastSplits(s, more);
      LastSplits(Firsts(s, key), more);
      FirstsStep(Firsts(s, key) + rest, last, key);
      FirstsStep(s + rest, last, key);
    }
  }

  /** Operator-supplied names: each non-empty one goes to one list, by whether it parses as an address. */
  function ClassifiedDns(sans: seq<string>, parse: string -> Option<Ip>): seq<string>
  {
    if sans == [] then [] else
      var last := sans[|sans| - 1];
      ClassifiedDns(sans[..|sans| - 1], parse) + if last != "" && parse(last).None? then [last] else []
  }

  function ClassifiedIps(sans: seq<string>, parse: string -> Option<Ip>): seq<Ip>
  {
    if sans == [] then [] else
      var last := sans[|sans| - 1];
      ClassifiedIps(sans[..|sans| - 1], parse) + if last != "" && parse(last).Some? then [parse(last).value] else []
  }

  method ClassifySANs(sans: seq<string>, parse: string -> Option<Ip>) returns (dns: seq<string>, ips: seq<Ip>)
    ensures dns == ClassifiedDns(sans, parse) && ips == ClassifiedIps(sans, parse)
  {
    dns, ips := [], [];
    var i := 0;
    while i < |sans|
      invariant i <= |sans| && dns == ClassifiedDns(sans[..i], parse) && ips == ClassifiedIps(sans[..i], parse)
    {
      assert sans[..i + 1][..i] == sans[..i];
      if sans[i] != "" {
        match parse(sans[i])
        case Some(ip) => ips := ips + [ip];
        case None => dns := dns + [sans[i]];
      }
      i := i + 1;
    }
    assert sans[..|sans|] == sans;
  }

  /** Classification loses and invents nothing. */
  lemma {:induction false} ClassificationIsExact(sans: seq<string>, parse: string -> Option<Ip>, san: string, ip: Ip)
    ensures san in ClassifiedDns(sans, parse) <==> san in sans && san != "" && parse(san).None?
    ensures ip in ClassifiedIps(sans, parse) <==> exists s :: s in sans && s != "" && parse(s) == Some(ip)
  {
    if sans != [] {
      var rest, last := sans[..|sans| - 1], sans[|sans| - 1];
      ClassificationIsExact(rest, parse, san, ip);
      assert sans == rest + [last];
      if s :| s in rest && s != "" && parse(s) == Some(ip) { assert s in sans; }
    }
  }

  // ------------------------------------------------------------------ a signed agent leaf's names

  /** Case-insensitive equality as equality of folded forms; folding keeps the number of characters. */
  ghost predicate FoldsCase(fold: string -> string) { forall a, b :: fold(a) == fold(b) ==> |a| == |b| }

  const LOCAL_SUFFIX := ".agents.otherix.local"

  method AppendUniqueDns(list: seq<string>, name: string, fold: string -> string) returns (r: seq<string>)
    ensures r == if HasKey(list, fold, fold(name)) then list else list + [name]
  {
    var i := 0;
    while i < |list|
      invariant i <= |list| && forall j :: 0 <= j < i ==> fold(list[j]) != fold(name)
    {
      if fold(list[i]) == fold(name) { return list; }
      i := i + 1;
    }
    return list + [name];
  }

  function Hosts(endpoints: seq<string>, hostOf: string -> string): seq<string>
  {
    if endpoints == [] then [] else Hosts(endpoints[..|endpoints| - 1], hostOf) + [hostOf(endpoints[|endpoints| - 1])]
  }

  lemma AppendedFirsts<T, K>(base: seq<T>, more: seq<T>, x: T, key: T -> K)
    ensures Firsts(base + (more + [x]), key) == if HasKey(Firsts(base + more, key), key, key(x))
            then Firsts(base + more, key) else Firsts(base + more, key) + [x]
  {
    FirstsStep(base + more, x, key);
    assert (base + more) + [x] == base + (more + [x]);
  }

  lemma HostStep(endpoints: seq<string>, i: nat, hostOf: string -> string, parse: string -> Option<Ip>)
    requires i < |endpoints|
    ensures var host, before := hostOf(endpoints[i]), Hosts(endpoints[..i], hostOf);
            && ClassifiedDns(Hosts(endpoints[..i + 1], hostOf), parse) ==
               ClassifiedDns(before, parse) + (if host != "" && parse(host).None? then [host] else [])
            && ClassifiedIps(Hosts(endpoints[..i + 1], hostOf), parse) ==
               ClassifiedIps(before, parse) + (if host != "" && parse(host).Some? then [parse(host).value] else [])
  {
    assert endpoints[..i + 1][..i] == endpoints[..i];
    var before := Hosts(endpoints[..i], hostOf);
    assert (before + [hostOf(endpoints[i])])[..|before|] == before;
  }

  lemma TwoAreDistinct(x: string, y: string, fold: string -> string)
    requires FoldsCase(fold) && |x| != |y|
    ensures Firsts([x, y] + [], fold) == [x, y]
  {
    assert fold(x) != fold(y);
    FirstsOfDistinct([x, y], fold);
    assert [x, y] + [] == [x, y];
  }

  lemma OneIsDistinct<T, K>(x: T, key: T -> K)
    ensures Firsts([x] + [], key) == [x]
  {
    FirstsOfDistinct([x], key);
    assert [x] + [] == [x];
  }

  /** The names a leaf carries: the fixed ones, then each endpoint host that is a name, once, in order. */
  ghost function LeafDns(base: seq<string>, endpoints: seq<string>, hostOf: string -> string,
                         parse: string -> Option<Ip>, fold: string -> string): seq<string>
  {
    Firsts(base + ClassifiedDns(Hosts(endpoints, hostOf), parse), fold)
  }

  ghost function LeafIps(base: seq<Ip>, endpoints: seq<string>, hostOf: string -> string,
                         parse: string -> Option<Ip>): seq<Ip>
  {
    Firsts(base + ClassifiedIps(Hosts(endpoints, hostOf), parse), IpKey)
  }

  lemma LeafDnsStep(base: seq<string>, endpoints: seq<string>, i: nat, hostOf: string -> string,
                    parse: string -> Option<Ip>, fold: string -> string)
    requires i < |endpoints|
    ensures var was, host := LeafDns(base, endpoints[..i], hostOf, parse, fold), hostOf(endpoints[i]);
            LeafDns(base, endpoints[..i + 1], hostOf, parse, fold) ==
            if host == "" || parse(host).Some? || HasKey(was, fold, fold(host)) then was else was + [host]
  {
    HostStep(endpoints, i, hostOf, parse);
    var names := ClassifiedDns(Hosts(endpoints[..i], hostOf), parse);
    AppendedFirsts(base, names, hostOf(endpoints[i]), fold);
    assert names + [] == names;
  }

  lemma LeafIpsStep(base: seq<Ip>, endpoints: seq<string>, i: nat, hostOf: string -> string,
                    parse: string -> Option<Ip>)
    requires i < |endpoints|
    ensures var was, host := LeafIps(base, endpoints[..i], hostOf, parse), hostOf(endpoints[i]);
            LeafIps(base, endpoints[..i + 1], hostOf, parse) ==
            if host == "" || parse(host).None? || HasKey(was, IpKey, IpKey(parse(host).value)) then was
                else was + [parse(host).value]
  {
    HostStep(endpoints, i, hostOf, parse);
    var ips := ClassifiedIps(Hosts(endpoints[..i], hostOf), parse);
    var host := hostOf(endpoints[i]);
    if parse(host).Some? { AppendedFirsts(base, ips, parse(host).value, IpKey); }
    assert ips + [] == ips;
  }

  /** A leaf names a host exactly when its folded form is that of a fixed name or of an endpoint host that
      is no address, never twice, and the fixed names come first. */
  lemma LeafDnsIsExact(base: seq<string>, endpoints: seq<string>, hostOf: string -> string, parse: string -> Option<Ip>,
                       fold: string -> string, k: string)
    requires Distinct(base, fold)
    ensures var dns := LeafDns(base, endpoints, hostOf, parse, fold);
            && base <= dns && Distinct(dns, fold)
            && (HasKey(dns, fold, k) <==>
                  HasKey(base, fold, k) || HasKey(ClassifiedDns(Hosts(endpoints, hostOf), parse), fold, k))
  {
    var names := ClassifiedDns(Hosts(endpoints, hostOf), parse);
    FirstsDistinct(base + names, fold);
    FirstsKeys(base + names, fold, k);
    FirstsOfDistinct(base, fold);
    FirstsExtend(base, names, fold);
    HasKeyOfSum(base, names, fold, k);
  }

  lemma {:induction false} FirstsExtend<T, K>(s: seq<T>, more: seq<T>, key: T -> K)
    ensures Firsts(s, key) <= Firsts(s + more, key)
  {
    if more == [] {
      assert s + more == s;
    } else {
      var rest := more[..|more| - 1];
      FirstsExtend(s, rest, key);
      assert (s + more)[..|s + more| - 1] == s + rest;
    }
  }

  lemma HasKeyOfSum<T, K>(s: seq<T>, t: seq<T>, key: T -> K, k: K)
    ensures HasKey(s + t, key, k) <==> HasKey(s, key, k) || HasKey(t, key, k)
  {
    var all := s + t;
    if i :| 0 <= i < |s| && key(s[i]) == k { assert key(all[i]) == k; }
    if i :| 0 <= i < |t| && key(t[i]) == k { assert key(all[|s| + i]) == k; }
    if i :| 0 <= i < |all| && key(all[i]) == k { assert if i < |s| then key(s[i]) == k else key(t[i - |s|]) == k; }
  }

  /** The names and addresses of a node's leaf. */
  method LeafSans(cn: string, loopback: Ip, endpoints: seq<string>, hostOf: string -> string,
                  parse: string -> Option<Ip>, fold: string -> string)
    returns (dns: seq<string>, ips: seq<Ip>)
    requires FoldsCase(fold)
    ensures dns == LeafDns([cn + LOCAL_SUFFIX, "localhost"], endpoints, hostOf, parse, fold)
    ensures ips == LeafIps([loopback], endpoints, hostOf, parse)
  {
    var name, local := cn + LOCAL_SUFFIX, "localhost";
    TwoAreDistinct(name, local, fold);
    OneIsDistinct(loopback, IpKey);
    dns, ips := [name, local], [loopback];
    ghost var base := dns;
    var i := 0;
    while i < |endpoints|
      invariant i <= |endpoints| && dns == LeafDns(base, endpoints[..i], hostOf, parse, fold)
      invariant ips == LeafIps([loopback], endpoints[..i], hostOf, parse)
    {
      LeafDnsStep(base, endpoints, i, hostOf, parse, fold);
      LeafIpsStep([loopback], endpoints, i, hostOf, parse);
      var host := hostOf(endpoints[i]);
      if host != "" {
        match parse(host)
        case Some(ip) => ips := AppendUniqueIp(ips, ip);
        case None => dns := AppendUniqueDns(dns, host, fold);
      }
      i := i + 1;
    }
    assert endpoints[..|endpoints|] == endpoints;
  }
}
