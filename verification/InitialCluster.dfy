/** The etcd initial-cluster string a joining replica starts from, and the name-collision check before it. */
module InitialCluster {
  import opened Options
  import opened Dedup
  import opened Text

  datatype Member = Member(name: string, peer: string)

  /** The parts of a parsed URL that matter here; `base` stands for scheme, user info and host. */
  datatype Url = Url(base: string, path: string, query: string, fragment: string)

  /** The URL library: parsing may fail, printing does not. */
  datatype UrlLib = UrlLib(parse: string -> Option<Url>, show: Url -> string)

  function CanonPeerURL(lib: UrlLib, s: string): string
  {
    match lib.parse(s)
    case None => s
    case Some(u) => lib.show(if u.path == "/" && u.query == "" && u.fragment == "" then u.(path := "") else u)
  }

  /** A member under its canonical peer URL. */
  datatype Peer = Peer(url: string, name: string)

  function UrlOf(): Peer -> string { (p: Peer) => p.url }

  /** The members that have a peer URL, keyed canonically, in order. */
  function Keyed(lib: UrlLib, members: seq<Member>): seq<Peer>
  {
    if members == [] then [] else
    var rest, m := Keyed(lib, members[..|members| - 1]), members[|members| - 1];
    if m.peer == "" then rest else rest + [Peer(CanonPeerURL(lib, m.peer), m.name)]
  }

  /** The name given to `url` last. */
  function LastName(peers: seq<Peer>, url: string): string
  {
    if peers == [] then ""
    else if peers[|peers| - 1].url == url then peers[|peers| - 1].name
    else LastName(peers[..|peers| - 1], url)
  }

  /** One entry per distinct URL, in first-appearance order, under the name given last. */
  function Entries(peers: seq<Peer>): (entries: seq<Peer>)
    ensures |entries| == |Firsts(peers, UrlOf())|
  {
    var firsts := Firsts(peers, UrlOf());
    seq(|firsts|, i requires 0 <= i < |firsts| => Peer(firsts[i].url, LastName(peers, firsts[i].url)))
  }

  function Pieces(entries: seq<Peer>): seq<string>
  {
    seq(|entries|, i requires 0 <= i < |entries| => entries[i].name + "=" + entries[i].url)
  }

  function Render(entries: seq<Peer>): string { Join(Pieces(entries), ',') }

  /** The initial-cluster string for a membership and this node. */
  function InitialClusterFor(lib: UrlLib, members: seq<Member>, selfName: string, selfPeer: string): string
  {
    Render(Entries(Keyed(lib, members + [Member(selfName, selfPeer)])))
  }

  predicate Collides(lib: UrlLib, members: seq<Member>, selfName: string, selfPeer: string)
  {
    exists i :: 0 <= i < |members| && members[i].name == selfName &&
        CanonPeerURL(lib, members[i].peer) != CanonPeerURL(lib, selfPeer)
  }

  // ------------------------------------------------------------------ buildInitialCluster

  /** The map and the list that buildInitialCluster keeps agree with the peers added so far. */
  ghost predicate Tracks(peers: seq<Peer>, names: map<string, string>, order: seq<string>)
  {
    var firsts := Firsts(peers, UrlOf());
    && |order| == |firsts| && (forall i :: 0 <= i < |order| ==> order[i] == firsts[i].url)
    && (forall u :: u in names <==> HasKey(firsts, UrlOf(), u))
    && (forall u :: u in names ==> names[u] == LastName(peers, u))
  }

  lemma AddTracks(peers: seq<Peer>, names: map<string, string>, order: seq<string>, p: Peer)
    requires Tracks(peers, names, order)
    ensures Tracks(peers + [p], names[p.url := p.name], if p.url in names then order else order + [p.url])
  {
    var firsts, more := Firsts(peers, UrlOf()), peers + [p];
    FirstsStep(peers, p, UrlOf());
    assert more[..|peers|] == peers;
    var firsts' := Firsts(more, UrlOf());
    forall u ensures u in names[p.url := p.name] <==> HasKey(firsts', UrlOf(), u) {
      if i :| 0 <= i < |firsts| && UrlOf()(firsts[i]) == u { assert firsts'[i] == firsts[i]; }
      if u == p.url && p.url !in names { assert UrlOf()(firsts'[|firsts|]) == u; }
    }
  }

  method Add(lib: UrlLib, names: map<string, string>, order: seq<string>, peer: string, name: string,
             ghost peers: seq<Peer>)
    returns (names': map<string, string>, order': seq<string>)
    requires Tracks(peers, names, order)
    ensures Tracks(if peer == "" then peers else peers + [Peer(CanonPeerURL(lib, peer), name)], names', order')
  {
    names', order' := names, order;
    if peer != "" {
      var key := CanonPeerURL(lib, peer);
      AddTracks(peers, names, order, Peer(key, name));
      if key !in names { order' := order' + [key]; }
      names' := names'[key := name];
    }
  }

  method RenderInOrder(names: map<string, string>, order: seq<string>, ghost peers: seq<Peer>) returns (ic: string)
    requires Tracks(peers, names, order)
    ensures ic == Render(Entries(peers))
  {
    ghost var entries := Entries(peers);
    var parts: seq<string> := [];
    for i := 0 to |order|
      invariant |parts| == i && forall j :: 0 <= j < i ==> parts[j] == entries[j].name + "=" + entries[j].url
    {
      assert UrlOf()(Firsts(peers, UrlOf())[i]) == order[i];
      parts := parts + [names[order[i]] + "=" + order[i]];
    }
    assert parts == Pieces(entries);
    ic := Join(parts, ',');
  }

  method BuildInitialCluster(lib: UrlLib, members: seq<Member>, selfName: string, selfPeer: string) returns (ic: string)
    ensures ic == InitialClusterFor(lib, members, selfName, selfPeer)
  {
    var names: map<string, string>, order: seq<string> := map[], [];
    for i := 0 to |members|
      invariant Tracks(Keyed(lib, members[..i]), names, order)
    {
      assert members[..i + 1][..i] == members[..i];
      names, order := Add(lib, names, order, members[i].peer, members[i].name, Keyed(lib, members[..i]));
    }
    assert members[..|members|] == members;
    ghost var all := members + [Member(selfName, selfPeer)];
    assert all[..|members|] == members;
    names, order := Add(lib, names, order, selfPeer, selfName, Keyed(lib, members));
    ic := RenderInOrder(names, order, Keyed(lib, all));
  }

  // ------------------------------------------------------------------ what the string lists

  /** Every canonical peer URL is listed exactly once, at the place of its first appearance. */
  lemma ListsEachPeerOnce(peers: seq<Peer>) returns (at: seq<nat>)
    ensures var entries := Entries(peers);
            && Distinct(entries, UrlOf())
            && (forall u :: HasKey(entries, UrlOf(), u) <==> HasKey(peers, UrlOf(), u))
            && Increasing(at, |peers|) && |at| == |entries|
            && (forall i :: 0 <= i < |at| ==> peers[at[i]].url == entries[i].url && IsFirst(peers, UrlOf(), at[i]))
  {
    var firsts, entries := Firsts(peers, UrlOf()), Entries(peers);
    FirstsDistinct(peers, UrlOf());
    assert forall i :: 0 <= i < |entries| ==> UrlOf()(entries[i]) == UrlOf()(firsts[i]);
    forall u ensures HasKey(entries, UrlOf(), u) <==> HasKey(peers, UrlOf(), u) {
      FirstsKeys(peers, UrlOf(), u);
      if i :| 0 <= i < |firsts| && UrlOf()(firsts[i]) == u { assert UrlOf()(entries[i]) == u; }
    }
    FirstAtLength(peers, UrlOf());
    at := FirstAt(peers, UrlOf());
    forall i | 0 <= i < |at| ensures IsFirst(peers, UrlOf(), at[i]) && peers[at[i]] == firsts[i] {
      FirstsPositions(peers, UrlOf(), i);
      FirstAtIsExact(peers, UrlOf(), at[i]);
    }
  }

  lemma {:induction false} LastNameIsSomeones(peers: seq<Peer>, url: string) returns (i: nat)
    requires HasKey(peers, UrlOf(), url)
    ensures i < |peers| && peers[i] == Peer(url, LastName(peers, url))
  {
    if peers[|peers| - 1].url == url { return |peers| - 1; }
    var rest := peers[..|peers| - 1];
    var k :| 0 <= k < |peers| && UrlOf()(peers[k]) == url;
    assert UrlOf()(rest[k]) == url;
    i := LastNameIsSomeones(rest, url);
  }

  /** Entry `i` is the only one at peer URL `peer`, however spelled, and carries `name`. */
  ghost predicate OnlyEntry(lib: UrlLib, entries: seq<Peer>, i: nat, peer: string, name: string)
  {
    && i < |entries| && entries[i] == Peer(CanonPeerURL(lib, peer), name)
    && forall j :: 0 <= j < |entries| && entries[j].url == CanonPeerURL(lib, peer) ==> j == i
  }

  /** However the membership echoes this node, not at all, nameless, under another name or several times,
      it is listed exactly once and under its configured name. */
  lemma SelfIsListedOnce(lib: UrlLib, members: seq<Member>, selfName: string, selfPeer: string) returns (i: nat)
    requires selfPeer != ""
    ensures OnlyEntry(lib, Entries(Keyed(lib, members + [Member(selfName, selfPeer)])), i, selfPeer, selfName)
  {
    var all := members + [Member(selfName, selfPeer)];
    var entries, url := Entries(Keyed(lib, all)), CanonPeerURL(lib, selfPeer);
    assert all[..|members|] == members;
    var peers := Keyed(lib, all);
    assert UrlOf()(peers[|peers| - 1]) == url;
    var at := ListsEachPeerOnce(peers);
    assert HasKey(peers, UrlOf(), url) && HasKey(entries, UrlOf(), url);
    i :| 0 <= i < |entries| && UrlOf()(entries[i]) == url;
    forall j | 0 <= j < |entries| && entries[j].url == url ensures j == i {
      assert UrlOf()(entries[j]) == UrlOf()(entries[i]);
    }
  }

  /** An echo spelled with a trailing slash is the same entry: no entry is left under the slashed URL. */
  lemma SlashedEchoIsSelf(lib: UrlLib, members: seq<Member>, selfName: string, selfPeer: string, u: Url, k: nat)
    returns (i: nat)
    requires lib.parse(selfPeer) == Some(u) && u.path == "" && u.query == "" && u.fragment == ""
    requires lib.parse(selfPeer + "/") == Some(u.(path := "/"))
    requires selfPeer != "" && k < |members| && members[k].peer == selfPeer + "/"
    ensures var entries := Entries(Keyed(lib, members + [Member(selfName, selfPeer)]));
            OnlyEntry(lib, entries, i, selfPeer, selfName) && OnlyEntry(lib, entries, i, members[k].peer, selfName)
  {
    assert u.(path := "/").(path := "") == u;
    i := SelfIsListedOnce(lib, members, selfName, selfPeer);
  }

  lemma {:induction false} KeyedComesFromMember(lib: UrlLib, members: seq<Member>, i: nat) returns (j: nat)
    requires i < |Keyed(lib, members)|
    ensures j < |members| && members[j].name == Keyed(lib, members)[i].name
    ensures members[j].peer != "" && CanonPeerURL(lib, members[j].peer) == Keyed(lib, members)[i].url
  {
    var rest := members[..|members| - 1];
    if i < |Keyed(lib, rest)| {
      j := KeyedComesFromMember(lib, rest, i);
    } else {
      j := |members| - 1;
    }
  }

  method NameCollision(lib: UrlLib, members: seq<Member>, selfName: string, selfPeer: string)
    returns (r: Option<string>)
    ensures r.Some? <==> Collides(lib, members, selfName, selfPeer)
    ensures r.Some? ==> exists i :: 0 <= i < |members| && members[i] == Member(selfName, r.value)
  {
    var self := CanonPeerURL(lib, selfPeer);
    for i := 0 to |members|
      invariant forall j :: 0 <= j < i && members[j].name == selfName ==> CanonPeerURL(lib, members[j].peer) == self
    {
      if members[i].name == selfName && CanonPeerURL(lib, members[i].peer) != self {
        assert members[i] == Member(selfName, members[i].peer);
        return Some(members[i].peer);
      }
    }
    return None;
  }

  /** When the collision check finds nothing, no other entry carries self's name. */
  lemma NoOtherEntryHasSelfName(lib: UrlLib, members: seq<Member>, selfName: string, selfPeer: string, i: nat)
    requires !Collides(lib, members, selfName, selfPeer)
    requires i < |Entries(Keyed(lib, members + [Member(selfName, selfPeer)]))|
    ensures var e := Entries(Keyed(lib, members + [Member(selfName, selfPeer)]))[i];
            e.url != CanonPeerURL(lib, selfPeer) ==> e.name != selfName
  {
    var all := members + [Member(selfName, selfPeer)];
    var peers := Keyed(lib, all);
    var e := Entries(peers)[i];
    assert HasKey(peers, UrlOf(), e.url) by {
      var at := ListsEachPeerOnce(peers);
      assert UrlOf()(Entries(peers)[i]) == e.url;
    }
    var k := LastNameIsSomeones(peers, e.url);
    var j := KeyedComesFromMember(lib, all, k);
  }

  /** The rendered string splits back into one piece per entry. */
  lemma RenderSplitsBack(entries: seq<Peer>)
    requires entries != [] && forall i :: 0 <= i < |entries| ==> ',' !in entries[i].name && ',' !in entries[i].url
    ensures Split(Render(entries), ',') == Pieces(entries)
  {
    SplitJoin(Pieces(entries), ',');
  }
}
