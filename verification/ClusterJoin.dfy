/**
 A joining replica obtains the cluster CA with a single-use token, and must survive a restart at any
 point without redeeming the token again. A boot is a sequence of atomic file writes and may crash
 after any of them; a node's life is any sequence of boots, with etcd starting after a boot that
 returned and an operator possibly supplying fresh tokens. Nobody deletes files.
 */
module ClusterJoin {
  import opened Options
  import opened Dedup
  import opened Text
  import opened InitialCluster

  datatype Config = Config(name: string, peer: string, initialCluster: string, tokenPath: bool, inlineToken: bool,
                           pinned: bool)

  /** What is on disk: the etcd member dir, the CA certificate and key, the initial-cluster sidecar and
      the token file. The CA is the one the operator pinned by fingerprint, so presence is all that varies. */
  datatype Files = Files(member: bool, cert: bool, key: bool, sidecar: Option<string>, tokenFile: bool)

  /** What the outside does to one boot: the membership returned with the CA (None: the fetch fails),
      whether the best-effort operations work, and the number of file operations after which it crashes. */
  datatype Env = Env(fetch: Option<seq<Member>>, sidecarOk: bool, removeOk: bool, crashAfter: nat)

  datatype Outcome = Started(ic: string) | Refused | Crashed

  /** What a boot redeemed its token for: the membership, and the name and peer URL it joined under. */
  datatype Join = Join(members: seq<Member>, name: string, peer: string)

  /** The initial-cluster of a join. */
  function Cluster(lib: UrlLib, j: Join): string { InitialClusterFor(lib, j.members, j.name, j.peer) }

  /** `contacted`: the boot reached the network. `redeemed`: its join, if it completed the CA pair. */
  datatype Boot = Boot(files: Files, outcome: Outcome, contacted: bool, redeemed: Option<Join>)

  predicate HasCa(f: Files) { f.cert && f.key }

  predicate TokenResolves(cfg: Config, f: Files)
  {
    if cfg.tokenPath then !cfg.inlineToken && f.tokenFile else cfg.inlineToken
  }

  function ReadSidecar(f: Files): string { if f.sidecar.Some? then Trim(f.sidecar.value) else "" }

  /** Boot as a function of the files and the environment. */
  function BootSpec(lib: UrlLib, cfg: Config, f: Files, env: Env): Boot
  {
    if f.member then Boot(f, Started(cfg.initialCluster), false, None)
    else if HasCa(f) then
      Boot(f, if ReadSidecar(f) != "" then Started(ReadSidecar(f)) else Refused, false, None)
    else if !TokenResolves(cfg, f) || !cfg.pinned then Boot(f, Refused, false, None)
    else match env.fetch
      case None => Boot(f, Refused, true, None)
      case Some(members) =>
        if Collides(lib, members, cfg.name, cfg.peer) then Boot(f, Refused, true, None)
        else Persist(lib, cfg, f, Join(members, cfg.name, cfg.peer), env)
  }

  /** The writes that follow a successful fetch, cut short by a crash. */
  function Persist(lib: UrlLib, cfg: Config, f: Files, j: Join, env: Env): Boot
  {
    var ic := Cluster(lib, j);
    var f1 := f.(cert := true);
    var f2 := f1.(key := true);
    var f3 := if env.sidecarOk then f2.(sidecar := Some(ic)) else f2;
    var f4 := if cfg.tokenPath && env.removeOk then f3.(tokenFile := false) else f3;
    match env.crashAfter
    case 0 => Boot(f, Crashed, true, None)
    case 1 => Boot(f1, Crashed, true, None)
    case 2 => Boot(f2, Crashed, true, Some(j))
    case 3 => Boot(f3, Crashed, true, Some(j))
    case 4 => Boot(f4, Crashed, true, Some(j))
    case _ => Boot(f4, Started(ic), true, Some(j))
  }

  class Disk {
    var member: bool
    var cert: bool
    var key: bool
    var sidecar: Option<string>
    var tokenFile: bool

    function Snapshot(): Files
      reads this
    {
      Files(member, cert, key, sidecar, tokenFile)
    }

    constructor (tokenFile: bool)
      ensures Snapshot() == Files(false, false, false, None, tokenFile)
    {
      member, cert, key, sidecar, this.tokenFile := false, false, false, None, tokenFile;
    }

    method EnsureClusterCAForJoin(lib: UrlLib, cfg: Config, env: Env)
      returns (outcome: Outcome, contacted: bool, redeemed: Option<Join>)
      modifies this
      ensures Boot(Snapshot(), outcome, contacted, redeemed) == BootSpec(lib, cfg, old(Snapshot()), env)
    {
      contacted, redeemed := false, None;
      if member {
        outcome := Started(cfg.initialCluster);
        return;
      }
      if cert && key {
        var saved := ReadSidecar(Snapshot());
        outcome := if saved != "" then Started(saved) else Refused;
        return;
      }
      outcome := Refused;
      if cfg.tokenPath && cfg.inlineToken { return; }
      if cfg.tokenPath {
        if !tokenFile { return; }
      } else if !cfg.inlineToken {
        return;
      }
      if !cfg.pinned { return; }
      contacted := true;
      if env.fetch.None? { return; }
      var members := env.fetch.value;
      var collision := NameCollision(lib, members, cfg.name, cfg.peer);
      if collision.Some? { return; }
      outcome := Crashed;
      if env.crashAfter == 0 { return; }
      cert := true;
      if env.crashAfter == 1 { return; }
      key := true;
      var ic := BuildInitialCluster(lib, members, cfg.name, cfg.peer);
      redeemed := Some(Join(members, cfg.name, cfg.peer));
      if env.crashAfter == 2 { return; }
      if env.sidecarOk { sidecar := Some(ic); }
      if env.crashAfter == 3 { return; }
      if cfg.tokenPath && env.removeOk { tokenFile := false; }
      if env.crashAfter == 4 { return; }
      outcome := Started(ic);
    }
  }

  // ------------------------------------------------------------------ a node's life

  /** A boot may use another configuration than the one before: a new name after a collision, say. */
  datatype Event = Booting(cfg: Config, env: Env) | EtcdStarts | FreshToken

  /** A start of etcd: from which initial-cluster, and whether by a boot that resumed an earlier join. */
  datatype Start = Start(ic: string, resumed: bool)

  /** `started`: how etcd will start, once a boot has returned and while its process is alive. `redeemed`: the
      join of the boot that completed the CA pair. `first`: how etcd first started. */
  datatype Life = Life(files: Files, started: Option<Start>, redeemed: Option<Join>, first: Option<Start>)

  function Step(lib: UrlLib, s: Life, e: Event): Life
  {
    match e
    case Booting(cfg, env) =>
      var b := BootSpec(lib, cfg, s.files, env);
      var started := if b.outcome.Started? then Some(Start(b.outcome.ic, b.redeemed.None?)) else None;
      Life(b.files, started, if b.redeemed.Some? then b.redeemed else s.redeemed, s.first)
    case EtcdStarts =>
      if s.started.None? then s
      else s.(files := s.files.(member := true), first := if s.files.member then s.first else s.started)
    case FreshToken => s.(files := s.files.(tokenFile := true), started := None)
  }

  function Live(lib: UrlLib, s: Life, events: seq<Event>): Life
  {
    if events == [] then s else Step(lib, Live(lib, s, events[..|events| - 1]), events[|events| - 1])
  }

  /** A node that has never booted, with the operator's token in place. */
  const BORN: Life := Life(Files(false, false, false, None, true), None, None, None)

  /** A start from a join's initial-cluster, trimmed if the boot resumed. */
  predicate From(lib: UrlLib, start: Start, j: Join)
  {
    start.ic == if start.resumed then Trim(Cluster(lib, j)) else Cluster(lib, j)
  }

  predicate Inv(lib: UrlLib, s: Life)
  {
    var f := s.files;
    && (f.key ==> f.cert) && (f.member || s.started.Some? ==> HasCa(f)) && (!f.tokenFile ==> HasCa(f))
    && (f.member <==> s.first.Some?)
    && (!f.member && s.started.Some? ==> s.redeemed.Some? && From(lib, s.started.value, s.redeemed.value))
    && (s.first.Some? ==> s.redeemed.Some? && From(lib, s.first.value, s.redeemed.value))
    && (s.redeemed.Some? <==> HasCa(f))
    && (f.sidecar.Some? ==> s.redeemed.Some? && f.sidecar.value == Cluster(lib, s.redeemed.value))
  }

  lemma BootKeeps(lib: UrlLib, cfg: Config, f: Files, env: Env)
    requires (f.key ==> f.cert) && (f.member ==> HasCa(f)) && (f.sidecar.Some? ==> HasCa(f))
    ensures var b := BootSpec(lib, cfg, f, env);
            && (HasCa(f) || f.member ==> b.files == f && !b.contacted && b.redeemed.None?)
            && (b.files.key ==> b.files.cert) && (b.outcome.Started? ==> HasCa(b.files)) && b.files.member == f.member
            && (!HasCa(f) ==> (b.redeemed.Some? <==> HasCa(b.files)))
            && (!HasCa(f) && b.files.sidecar.Some? ==>
                  b.redeemed.Some? && b.files.sidecar.value == Cluster(lib, b.redeemed.value))
            && (!b.files.tokenFile ==> !f.tokenFile || HasCa(b.files))
  {
  }

  /** A boot without a member dir starts etcd, if it gets that far, from the initial-cluster of the join it
      redeemed, or of the one whose sidecar it found, trimmed. */
  lemma BootStartsFrom(lib: UrlLib, cfg: Config, f: Files, env: Env, j: Join)
    requires !f.member && (f.sidecar.Some? ==> HasCa(f) && f.sidecar.value == Cluster(lib, j))
    requires BootSpec(lib, cfg, f, env).outcome.Started?
    ensures var b := BootSpec(lib, cfg, f, env);
            From(lib, Start(b.outcome.ic, b.redeemed.None?), if b.redeemed.Some? then b.redeemed.value else j)
  {
  }

  lemma StepKeeps(lib: UrlLib, s: Life, e: Event)
    requires Inv(lib, s)
    ensures var t := Step(lib, s, e);
            && Inv(lib, t) && (HasCa(s.files) ==> HasCa(t.files) && t.redeemed == s.redeemed)
            && (s.files.member ==> t.files.member)
  {
    if e.Booting? {
      BootKeeps(lib, e.cfg, s.files, e.env);
      var b := BootSpec(lib, e.cfg, s.files, e.env);
      var j := if s.redeemed.Some? then s.redeemed.value else Join([], "", "");
      if !s.files.member && b.outcome.Started? { BootStartsFrom(lib, e.cfg, s.files, e.env, j); }
    }
  }

  lemma {:induction false} LifeKeeps(lib: UrlLib, s: Life, events: seq<Event>)
    requires Inv(lib, s)
    ensures Inv(lib, Live(lib, s, events))
    ensures HasCa(s.files) ==> HasCa(Live(lib, s, events).files) && Live(lib, s, events).redeemed == s.redeemed
    ensures s.files.member ==> Live(lib, s, events).files.member
  {
    if events != [] {
      LifeKeeps(lib, s, events[..|events| - 1]);
      StepKeeps(lib, Live(lib, s, events[..|events| - 1]), events[|events| - 1]);
    }
  }

  /** Over any life: the sidecar exists only alongside a complete CA pair and holds the initial-cluster of
      the redeeming boot's join, and the token file is gone only once the pair is persisted. */
  lemma {:induction false} DiskIsNeverMisleading(lib: UrlLib, events: seq<Event>)
    ensures var s := Live(lib, BORN, events);
            && (s.files.sidecar.Some? ==>
                  HasCa(s.files) && s.redeemed.Some? && s.files.sidecar.value == Cluster(lib, s.redeemed.value))
            && (!s.files.tokenFile ==> HasCa(s.files))
            && (s.files.member ==> HasCa(s.files))
  {
    LifeKeeps(lib, BORN, events);
  }

  /** In any life, etcd has started exactly when its member dir exists, and it first started from the
      initial-cluster of the join that redeemed the token, trimmed if the boot was a resumed one. */
  lemma {:induction false} FirstStartIsFromRedeemedJoin(lib: UrlLib, events: seq<Event>)
    ensures var s := Live(lib, BORN, events);
            && (s.files.member <==> s.first.Some?)
            && (s.first.Some? ==> s.redeemed.Some? && From(lib, s.first.value, s.redeemed.value))
  {
    LifeKeeps(lib, BORN, events);
  }

  /** Once the CA pair or the member dir is on disk, no later boot contacts the network. */
  lemma {:induction false} NeverRedeemsAgain(lib: UrlLib, before: seq<Event>, after: seq<Event>, cfg: Config, env: Env)
    requires var s := Live(lib, BORN, before); HasCa(s.files) || s.files.member
    ensures var s := Live(lib, Live(lib, BORN, before), after);
            !BootSpec(lib, cfg, s.files, env).contacted && s.redeemed == Live(lib, BORN, before).redeemed
  {
    LifeKeeps(lib, BORN, before);
    LifeKeeps(lib, Live(lib, BORN, before), after);
  }

  /** White space at neither end. */
  predicate Trimmed(s: string) { s != "" && !IsSpace(s[0]) && !IsSpace(s[|s| - 1]) }

  /** A boot that finds the CA but no member dir, under whatever configuration, resumes with exactly the
      initial-cluster of the redeeming boot's join if and only if the sidecar was written and that string
      has no white space at either end; otherwise it resumes with the string trimmed, or refuses when
      nothing is left or the sidecar is missing. */
  lemma {:induction false} ResumesWithRedeemedCluster(lib: UrlLib, events: seq<Event>, cfg: Config, env: Env)
    requires var s := Live(lib, BORN, events); HasCa(s.files) && !s.files.member
    ensures var s := Live(lib, BORN, events); var b := BootSpec(lib, cfg, s.files, env);
            && s.redeemed.Some? && b.files == s.files
            && var ic := Cluster(lib, s.redeemed.value);
               && (b.outcome == Started(ic) <==> s.files.sidecar.Some? && Trimmed(ic))
               && b.outcome == if s.files.sidecar.None? || Trim(ic) == "" then Refused else Started(Trim(ic))
  {
    LifeKeeps(lib, BORN, events);
    TrimIsIdleIff(Cluster(lib, Live(lib, BORN, events).redeemed.value));
  }

  /** A first boot that redeems its token for this join and then crashes after `crash` file operations. */
  function RedeemThenCrash(j: Join, crash: nat): seq<Event>
  {
    [Booting(Config(j.name, j.peer, "", false, true, true), Env(Some(j.members), true, true, crash))]
  }

  lemma OneBoot(lib: UrlLib, j: Join, crash: nat)
    requires !Collides(lib, j.members, j.name, j.peer) && 2 <= crash <= 3
    ensures Live(lib, BORN, RedeemThenCrash(j, crash)) ==
            Life(Files(false, true, true, if crash == 2 then None else Some(Cluster(lib, j)), true), None, Some(j),
                 None)
  {
    var events := RedeemThenCrash(j, crash);
    assert events[..0] == [] && Live(lib, BORN, []) == BORN;
    assert Live(lib, BORN, events) == Step(lib, BORN, events[0]);
  }

  /** A life that cannot resume: the redeeming boot crashes between the key and the sidecar, and every later
      boot, however configured, refuses. */
  lemma CrashBeforeSidecarIsRefused(lib: UrlLib, j: Join, cfg: Config, env: Env)
    requires !Collides(lib, j.members, j.name, j.peer)
    ensures var s := Live(lib, BORN, RedeemThenCrash(j, 2));
            HasCa(s.files) && !s.files.member && s.redeemed == Some(j) &&
                BootSpec(lib, cfg, s.files, env).outcome == Refused
  {
    OneBoot(lib, j, 2);
  }

  /** A life that resumes with another string: the name begins with a space, which the sidecar's reader trims. */
  lemma SpacedNameIsTrimmed(lib: UrlLib, peer: string, cfg: Config, env: Env)
    requires peer != ""
    ensures var j := Join([], " a", peer); var s := Live(lib, BORN, RedeemThenCrash(j, 3));
            && s.redeemed == Some(j)
            && BootSpec(lib, cfg, s.files, env).outcome == Started(Trim(Cluster(lib, j)))
            && Trim(Cluster(lib, j)) != Cluster(lib, j)
  {
    var j := Join([], " a", peer);
    OneBoot(lib, j, 3);
    SpacedCluster(lib, peer);
    TrimIsIdleIff(Cluster(lib, j));
  }

  /** The initial-cluster of a node that joins alone. */
  lemma LoneCluster(lib: UrlLib, name: string, peer: string)
    requires peer != ""
    ensures Cluster(lib, Join([], name, peer)) == name + "=" + CanonPeerURL(lib, peer)
  {
    var self, p := Member(name, peer), Peer(CanonPeerURL(lib, peer), name);
    var all := [] + [self];
    assert all[..0] == [] && Keyed(lib, all[..0]) == [] && Keyed(lib, all) == [p];
    assert [p][..0] == [] && Firsts([p][..0], UrlOf()) == [] && Firsts([p], UrlOf()) == [p];
    assert LastName([p], p.url) == name && Entries([p]) == [p];
  }

  lemma SpacedCluster(lib: UrlLib, peer: string)
    requires peer != ""
    ensures var ic := Cluster(lib, Join([], " a", peer)); ic != "" && ic[0] == ' ' && Trim(ic) != ""
  {
    LoneCluster(lib, " a", peer);
    TrimKeeps(" a" + "=" + CanonPeerURL(lib, peer), 1);
  }

  lemma {:induction false} TrimKeeps(s: string, k: nat)
    requires k < |s| && !IsSpace(s[k])
    ensures Trim(s) != ""
  {
    LeftKeeps(s, k);
    RightKeeps(TrimLeft(s));
  }

  lemma {:induction false} LeftKeeps(s: string, k: nat)
    requires k < |s| && !IsSpace(s[k])
    ensures TrimLeft(s) != "" && !IsSpace(TrimLeft(s)[0])
  {
    if IsSpace(s[0]) { LeftKeeps(s[1..], k - 1); }
  }

  lemma {:induction false} RightKeeps(s: string)
    requires s != "" && !IsSpace(s[0])
    ensures TrimRight(s) != ""
  {
    if IsSpace(s[|s| - 1]) { RightKeeps(s[..|s| - 1]); }
  }

  // ------------------------------------------------------------------ when the string is trimmed

  predicate Unspaced(s: string) { forall i :: 0 <= i < |s| ==> !IsSpace(s[i]) }

  /** Names and canonical peer URLs are free of white space, and the joining node has a peer URL. */
  predicate Plain(lib: UrlLib, j: Join)
  {
    && j.peer != "" && Unspaced(j.name) && Unspaced(CanonPeerURL(lib, j.peer))
    && forall i :: 0 <= i < |j.members| ==>
         Unspaced(j.members[i].name) && Unspaced(CanonPeerURL(lib, j.members[i].peer))
  }

  lemma {:induction false} UnspacedJoin(parts: seq<string>, sep: char)
    requires !IsSpace(sep) && forall i :: 0 <= i < |parts| ==> Unspaced(parts[i])
    ensures Unspaced(Text.Join(parts, sep))
  {
    if |parts| > 1 { UnspacedJoin(parts[1..], sep); }
  }

  lemma EntryIsUnspaced(lib: UrlLib, j: Join, i: nat)
    requires Plain(lib, j) && i < |Entries(Keyed(lib, j.members + [Member(j.name, j.peer)]))|
    ensures var e := Entries(Keyed(lib, j.members + [Member(j.name, j.peer)]))[i]; Unspaced(e.name) && Unspaced(e.url)
  {
    var all := j.members + [Member(j.name, j.peer)];
    var peers := Keyed(lib, all);
    var e := Entries(peers)[i];
    assert HasKey(peers, UrlOf(), e.url) by {
      var at := ListsEachPeerOnce(peers);
      assert UrlOf()(Entries(peers)[i]) == e.url;
    }
    var k := LastNameIsSomeones(peers, e.url);
    var m := KeyedComesFromMember(lib, all, k);
    assert m < |j.members| ==> all[m] == j.members[m];
  }

  /** So a join under plain names and URLs is resumed with exactly its initial-cluster. */
  lemma PlainJoinSurvivesSidecar(lib: UrlLib, j: Join)
    requires Plain(lib, j)
    ensures Trimmed(Cluster(lib, j))
  {
    var entries := Entries(Keyed(lib, j.members + [Member(j.name, j.peer)]));
    var self := SelfIsListedOnce(lib, j.members, j.name, j.peer);
    forall i | 0 <= i < |entries| ensures Unspaced(Pieces(entries)[i]) { EntryIsUnspaced(lib, j, i); }
    UnspacedJoin(Pieces(entries), ',');
    assert Pieces(entries)[0] != "";
  }
}
