/**
 The cluster CA from disk to etcd: each replica loads the CA pair from its disk, or obtains one (generating
 it, or fetching it in join mode), then mirrors it into the single active row, racing its siblings for the
 insert. A CA is identified by its fingerprint; a key pairs with a certificate when both belong to the
 same CA.
 */
module CaBootstrap {
  import opened Options

  type Ca = nat

  // ------------------------------------------------------------------ the critical effects

  /** The certificate and the key on disk. */
  datatype Pair = Pair(cert: Option<Ca>, key: Option<Ca>)

  datatype Loaded = Held(ca: Ca) | Absent | Partial | Mismatch

  function Load(p: Pair): Loaded
  {
    if p.cert.Some? && p.key.Some? then (if p.cert == p.key then Held(p.cert.value) else Mismatch)
    else if p.cert.None? && p.key.None? then Absent
    else Partial
  }

  function WroteCert(p: Pair, ca: Ca): Pair { p.(cert := Some(ca)) }

  function WroteKey(p: Pair, ca: Ca): Pair { p.(key := Some(ca)) }

  /** Certificate first, then key, as far as `writes` of the two. */
  function Written(p: Pair, ca: Ca, writes: nat): Pair
  {
    if writes == 0 then p else if writes == 1 then WroteCert(p, ca) else WroteKey(WroteCert(p, ca), ca)
  }

  /** Whether a boot obtains a CA: from nothing, and in join mode also over half a pair. */
  predicate Obtains(joins: bool, found: Loaded) { found == Absent || (joins && found == Partial) }

  datatype Seen = Missing | Same | Other

  function Look(active: Option<Ca>, ca: Ca): Seen
  {
    if active.None? then Missing else if active.value == ca then Same else Other
  }

  function Created(active: Option<Ca>, ca: Ca): Option<Ca> { if active.None? then Some(ca) else active }

  // ------------------------------------------------------------------ one boot

  datatype Boot = Boot(found: Loaded, generated: bool) | CrashedAfter(writes: nat)

  class CaDisk {
    var pair: Pair

    constructor ()
      ensures pair == Pair(None, None)
    {
      pair := Pair(None, None);
    }

    /** The atomic writes of a pair, crashing (or failing) after `crashAfter` of them. */
    method WritePair(ca: Ca, crashAfter: nat)
      modifies this
      ensures pair == Written(old(pair), ca, crashAfter)
    {
      if crashAfter == 0 { return; }
      pair := WroteCert(pair, ca);
      if crashAfter == 1 { return; }
      pair := WroteKey(pair, ca);
    }

    /** Loads the pair, or generates `gen` and writes it. A boot that returns a CA leaves exactly that pair
        on disk; a pair on disk is never replaced, and half a pair is never completed. */
    method LoadOrGenerate(allowGenerate: bool, gen: Ca, crashAfter: nat) returns (r: Boot)
      modifies this
      ensures pair == if allowGenerate && Obtains(false, Load(old(pair))) then Written(old(pair), gen, crashAfter)
              else old(pair)
      ensures r == if allowGenerate && Obtains(false, Load(old(pair)))
                   then (if crashAfter < 2 then CrashedAfter(crashAfter) else Boot(Held(gen), true))
                   else Boot(Load(old(pair)), false)
      ensures r.Boot? && r.found.Held? ==> Load(pair) == r.found
      ensures Load(old(pair)) != Absent ==> pair == old(pair)
    {
      if pair.cert.Some? && pair.key.Some? {
        return Boot(if pair.cert.value == pair.key.value then Held(pair.cert.value) else Mismatch, false);
      }
      if pair.cert.Some? != pair.key.Some? { return Boot(Partial, false); }
      if !allowGenerate { return Boot(Absent, false); }
      WritePair(gen, crashAfter);
      return if crashAfter < 2 then CrashedAfter(crashAfter) else Boot(Held(gen), true);
    }
  }

  /** `Unknown` is any error other than a divergence. */
  datatype Synced = Synced | Diverged | Unknown

  /** Errors of the store: of the lookup, of the insert (after it did, or did not, take effect), of the refetch. */
  datatype Faults = Faults(lookup: bool, insert: Option<bool>, refetch: bool)

  class CaStore {
    var active: Option<Ca>

    constructor ()
      ensures active == None
    {
      active := None;
    }

    /** Inserts the active row unless there is one. */
    method CreateCACert(ca: Ca) returns (ok: bool)
      modifies this
      ensures ok == (Look(old(active), ca) == Missing) && active == Created(old(active), ca)
    {
      ok := active.None?;
      if ok { active := Some(ca); }
    }

    /** `sibling` inserts between the lookup and the insert, if at all; `faults` are the store errors the call
        meets. Unless it met one, the call reports what the one active row says at the end; whatever it met, a
        row is never replaced, and it inserts at most this CA. */
    method BootstrapClusterCA(ca: Ca, sibling: Option<Ca>, faults: Faults) returns (r: Synced)
      modifies this
      ensures r == if faults.lookup then Unknown
                   else if old(active).Some? then (if old(active).value == ca then Synced else Diverged)
                   else if faults.insert.Some? || (faults.refetch && sibling.Some?) then Unknown
                   else if Look(active, ca) == Same then Synced else Diverged
      ensures old(active).Some? || faults.lookup ==> active == old(active)
      ensures old(active).None? && !faults.lookup ==>
                active == if sibling.Some? then sibling
                          else if faults.insert.Some? && !faults.insert.value then None else Some(ca)
      ensures r == Synced ==> Look(active, ca) == Same
      ensures r == Diverged ==> Look(active, ca) == Other
    {
      if faults.lookup { return Unknown; }
      if active.Some? {
        return if active.value == ca then Synced else Diverged;
      }
      if sibling.Some? { var _ := CreateCACert(sibling.value); }
      if faults.insert.Some? && !faults.insert.value { return Unknown; }
      var ok := CreateCACert(ca);
      if faults.insert.Some? { return Unknown; }
      if ok { return Synced; }
      if faults.refetch { return Unknown; }
      return if active.value == ca then Synced else Diverged;
    }
  }

  // ------------------------------------------------------------------ all replicas, any interleaving

  /** Where a replica's boot is: `Minted` holds an obtained CA not yet on disk, `HalfWritten` has written the
      certificate, `Has` holds a loaded CA, and `Up` has bootstrapped it. */
  datatype Pc =
    | Down | Minted(ca: Ca) | HalfWritten(ca: Ca) | Has(ca: Ca) | Inserting(ca: Ca) | Refetching(ca: Ca) | Up(ca: Ca)

  /** A replica, in join mode or not. */
  datatype Node = Node(joins: bool, pair: Pair, pc: Pc)

  datatype State = State(active: Option<Ca>, nodes: map<nat, Node>)

  datatype Step =
    | Boots(n: nat, gen: Option<Ca>) | WritesCert(n: nat) | WritesKey(n: nat)
    | LooksUp(n: nat) | Inserts(n: nat) | Refetches(n: nat) | Dies(n: nat)

  function Put(s: State, n: nat, node: Node): State { s.(nodes := s.nodes[n := node]) }

  function Goto(s: State, n: nat, pc: Pc): State
    requires n in s.nodes
  {
    Put(s, n, s.nodes[n].(pc := pc))
  }

  /** Reads the active row: proceed, done, or (diverged) give up. */
  function Sees(s: State, n: nat, ca: Ca, absent: Pc): State
    requires n in s.nodes
  {
    match Look(s.active, ca)
    case Missing => Goto(s, n, absent)
    case Same => Goto(s, n, Up(ca))
    case Other => Goto(s, n, Down)
  }

  /** `Boots` with `gen` models a boot that is able to obtain that CA (generation allowed, or a fetch that
      succeeds); without, one that is not. `Dies` is a crash or an error return anywhere, so an insert whose
      response is lost is `Inserts` and then `Dies`. */
  predicate Next(s: State, step: Step, t: State)
  {
    step.n in s.nodes &&
    var node := s.nodes[step.n];
    match step
    case Boots(n, gen) =>
      node.pc == Down &&
      t == (match Load(node.pair)
            case Held(ca) => Goto(s, n, Has(ca))
            case _ => if gen.Some? && Obtains(node.joins, Load(node.pair)) then Goto(s, n, Minted(gen.value)) else s)
    case WritesCert(n) =>
      node.pc.Minted? && t == Put(s, n, node.(pair := WroteCert(node.pair, node.pc.ca), pc := HalfWritten(node.pc.ca)))
    case WritesKey(n) =>
      node.pc.HalfWritten? && t == Put(s, n, node.(pair := WroteKey(node.pair, node.pc.ca), pc := Has(node.pc.ca)))
    case LooksUp(n) => node.pc.Has? && t == Sees(s, n, node.pc.ca, Inserting(node.pc.ca))
    case Inserts(n) =>
      node.pc.Inserting? &&
      var pc := if Look(s.active, node.pc.ca) == Missing then Up(node.pc.ca) else Refetching(node.pc.ca);
      t == Goto(s.(active := Created(s.active, node.pc.ca)), n, pc)
    case Refetches(n) => node.pc.Refetching? && t == Sees(s, n, node.pc.ca, Down)
    case Dies(n) => t == Goto(s, n, Down)
  }

  predicate NodeOk(s: State, n: nat)
    requires n in s.nodes
  {
    var node := s.nodes[n];
    && (node.pair.key.Some? ==> node.pair.cert == node.pair.key)
    && match node.pc
       case Down => true
       case Minted(_) => node.pair.key.None?
       case HalfWritten(ca) => node.pair == Pair(Some(ca), None)
       case Up(ca) => Load(node.pair) == Held(ca) && s.active == Some(ca)
       case Has(ca) => Load(node.pair) == Held(ca)
       case Inserting(ca) => Load(node.pair) == Held(ca)
       case Refetching(ca) => Load(node.pair) == Held(ca) && s.active.Some?
  }

  ghost predicate Inv(s: State) { forall n {:trigger NodeOk(s, n)} :: n in s.nodes ==> NodeOk(s, n) }

  /** A node's complete pair never changes, nor half a pair except in join mode, nor its mode. */
  predicate Kept(s: State, t: State, n: nat)
    requires n in s.nodes && n in t.nodes
  {
    var before, after := s.nodes[n], t.nodes[n];
    && after.joins == before.joins
    && (before.pair.key.Some? ==> after.pair == before.pair)
    && (before.pair.cert.Some? ==> after.pair.cert.Some? && (!before.joins ==> after.pair.cert == before.pair.cert))
  }

  /** The active row, once written, never changes, and every node keeps what it must. */
  ghost predicate Settled(s: State, t: State)
  {
    && t.nodes.Keys == s.nodes.Keys && (s.active.Some? ==> t.active == s.active)
    && forall n {:trigger Kept(s, t, n)} :: n in s.nodes ==> Kept(s, t, n)
  }

  lemma OthersKeep(s: State, step: Step, t: State, n: nat)
    requires Next(s, step, t) && n in s.nodes && n != step.n && NodeOk(s, n)
    ensures t.nodes.Keys == s.nodes.Keys && NodeOk(t, n) && Kept(s, t, n) && (s.active.Some? ==> t.active == s.active)
  {
  }

  /** A non-joining node mints only on an empty disk, so writing its certificate replaces none. */
  predicate MintsFresh(s: State, n: nat)
    requires n in s.nodes
  {
    s.nodes[n].pc.Minted? && !s.nodes[n].joins ==> s.nodes[n].pair == Pair(None, None)
  }

  lemma MoverKeeps(s: State, step: Step, t: State)
    requires Next(s, step, t) && NodeOk(s, step.n) && MintsFresh(s, step.n)
    ensures t.nodes.Keys == s.nodes.Keys && NodeOk(t, step.n) && MintsFresh(t, step.n) && Kept(s, t, step.n)
    ensures s.active.Some? ==> t.active == s.active
  {
  }

  ghost predicate AllMintFresh(s: State) { forall n {:trigger MintsFresh(s, n)} :: n in s.nodes ==> MintsFresh(s, n) }

  lemma StepKeeps(s: State, step: Step, t: State)
    requires Inv(s) && AllMintFresh(s) && Next(s, step, t)
    ensures Inv(t) && AllMintFresh(t) && Settled(s, t)
  {
    assert NodeOk(s, step.n) && MintsFresh(s, step.n);
    MoverKeeps(s, step, t);
    forall n | n in s.nodes ensures NodeOk(t, n) && MintsFresh(t, n) && Kept(s, t, n) {
      assert NodeOk(s, n) && MintsFresh(s, n);
      if n != step.n { OthersKeep(s, step, t, n); }
    }
  }

  ghost predicate StepAt(run: seq<State>, steps: seq<Step>, i: nat)
    requires |run| == |steps| + 1 && i < |steps|
  {
    Next(run[i], steps[i], run[i + 1])
  }

  ghost predicate IsPath(run: seq<State>, steps: seq<Step>)
  {
    |run| == |steps| + 1 && forall i: nat {:trigger StepAt(run, steps, i)} :: i < |steps| ==> StepAt(run, steps, i)
  }

  /** Any set of replicas, joining or not, with empty disks, and no active row. */
  predicate Starts(s: State)
  {
    s.active.None? && forall n :: n in s.nodes ==> s.nodes[n].pair == Pair(None, None) && s.nodes[n].pc == Down
  }

  ghost predicate IsRun(run: seq<State>, steps: seq<Step>) { IsPath(run, steps) && Starts(run[0]) }

  lemma KeptComposes(s: State, t: State, u: State)
    requires Settled(s, t) && Settled(t, u)
    ensures Settled(s, u)
  {
    forall n | n in s.nodes ensures Kept(s, u, n) {
      assert Kept(s, t, n) && Kept(t, u, n);
    }
  }

  lemma {:induction false} RunKeeps(run: seq<State>, steps: seq<Step>, m: nat, n: nat)
    requires IsRun(run, steps) && m <= n < |run|
    ensures Inv(run[m]) && Inv(run[n]) && AllMintFresh(run[n]) && Settled(run[m], run[n])
    decreases n
  {
    if n > 0 {
      RunKeeps(run, steps, if m < n then m else n - 1, n - 1);
      assert StepAt(run, steps, n - 1);
      StepKeeps(run[n - 1], steps[n - 1], run[n]);
      if m < n { KeptComposes(run[m], run[n - 1], run[n]); }
    }
  }

  /** Every replica that ever completes its bootstrap, in whatever interleaving and across restarts,
      holds the fingerprint of the single active row: any two agree. */
  lemma ReplicasAgree(run: seq<State>, steps: seq<Step>, i: nat, j: nat, n: nat, m: nat)
    requires IsRun(run, steps) && i <= j < |run| && n in run[i].nodes && m in run[j].nodes
    requires run[i].nodes[n].pc.Up? && run[j].nodes[m].pc.Up?
    ensures run[i].nodes[n].pc.ca == run[j].nodes[m].pc.ca && run[j].active == Some(run[i].nodes[n].pc.ca)
  {
    RunKeeps(run, steps, i, j);
    assert NodeOk(run[i], n) && NodeOk(run[j], m);
  }

  /** A node that once held a CA from its disk holds the same one whenever it holds any: across
      restarts it reloads it or fails, and never obtains a second, joining or not. */
  lemma NodeKeepsItsCa(run: seq<State>, steps: seq<Step>, i: nat, j: nat, n: nat)
    requires IsRun(run, steps) && i <= j < |run| && n in run[i].nodes && run[i].nodes[n].pc.Has?
    ensures n in run[j].nodes && Load(run[j].nodes[n].pair) == Held(run[i].nodes[n].pc.ca)
    ensures var pc := run[j].nodes[n].pc;
            pc.Down? || (!pc.Minted? && !pc.HalfWritten? && pc.ca == run[i].nodes[n].pc.ca)
  {
    RunKeeps(run, steps, i, j);
    assert NodeOk(run[i], n) && NodeOk(run[j], n) && Kept(run[i], run[j], n);
  }

  // ------------------------------------------------------------------ half a pair

  ghost predicate Leads(s: State, t: State)
  {
    exists run, steps :: IsPath(run, steps) && run[0] == s && run[|steps|] == t
  }

  lemma LeadsSelf(s: State)
    ensures Leads(s, s)
  {
    assert IsPath([s], []);
  }

  lemma LeadsOn(s: State, t: State, step: Step, u: State)
    requires Leads(s, t) && Next(t, step, u)
    ensures Leads(s, u)
  {
    var run, steps :| IsPath(run, steps) && run[0] == s && run[|steps|] == t;
    var run', steps' := run + [u], steps + [step];
    forall i: nat | i < |steps'| ensures StepAt(run', steps', i) {
      if i < |steps| { assert StepAt(run, steps, i); }
    }
    assert IsPath(run', steps');
  }

  lemma {:induction false} HalfAPairIsStuck(run: seq<State>, steps: seq<Step>, j: nat, n: nat)
    requires IsPath(run, steps) && j < |run| && n in run[0].nodes && !run[0].nodes[n].joins
    requires Load(run[0].nodes[n].pair) == Partial && run[0].nodes[n].pc == Down
    ensures n in run[j].nodes && run[j].nodes[n] == run[0].nodes[n]
  {
    if j > 0 {
      HalfAPairIsStuck(run, steps, j - 1, n);
      assert StepAt(run, steps, j - 1);
    }
  }

  /** A joining node fetches again and overwrites its half pair. */
  lemma JoinerCompletes(s: State, n: nat, ca: Ca)
    requires n in s.nodes && s.nodes[n].joins && Load(s.nodes[n].pair) == Partial && s.nodes[n].pc == Down
    ensures exists t :: Leads(s, t) && n in t.nodes && t.nodes[n] == Node(true, Pair(Some(ca), Some(ca)), Has(ca))
  {
    var node := s.nodes[n];
    var s1 := Goto(s, n, Minted(ca));
    var s2 := Put(s1, n, node.(pair := WroteCert(node.pair, ca), pc := HalfWritten(ca)));
    var s3 := Put(s2, n, Node(true, Pair(Some(ca), Some(ca)), Has(ca)));
    LeadsSelf(s);
    LeadsOn(s, s, Boots(n, Some(ca)), s1);
    LeadsOn(s, s1, WritesCert(n), s2);
    LeadsOn(s, s2, WritesKey(n), s3);
  }

  /** Replica 0 is down with a certificate and no key. */
  predicate HasHalf(t: State, joins: bool, ca: Ca)
  {
    0 in t.nodes && t.nodes[0] == Node(joins, Pair(Some(ca), None), Down)
  }

  /** Half a pair does come about: any replica, joining or not, that obtains a CA may die between the writes. */
  lemma HalfAPairHappens(joins: bool, ca: Ca)
    ensures exists s, t :: Starts(s) && Leads(s, t) && HasHalf(t, joins, ca)
  {
    var node := Node(joins, Pair(None, None), Down);
    var s := State(None, map[0 := node]);
    var s1 := Goto(s, 0, Minted(ca));
    var s2 := Put(s1, 0, node.(pair := Pair(Some(ca), None), pc := HalfWritten(ca)));
    var s3 := Goto(s2, 0, Down);
    LeadsSelf(s);
    LeadsOn(s, s, Boots(0, Some(ca)), s1);
    LeadsOn(s, s1, WritesCert(0), s2);
    LeadsOn(s, s2, Dies(0), s3);
    assert Starts(s) && HasHalf(s3, joins, ca);
  }

  /** A node that crashed between the two writes can ever hold a CA again exactly when it is in join mode. */
  lemma HalfAPairRecoversIff(s: State, n: nat)
    requires n in s.nodes && Load(s.nodes[n].pair) == Partial && s.nodes[n].pc == Down
    ensures (exists t :: Leads(s, t) && n in t.nodes && t.nodes[n].pc.Has?) <==> s.nodes[n].joins
  {
    if s.nodes[n].joins {
      JoinerCompletes(s, n, 0);
    } else {
      forall t | Leads(s, t) && n in t.nodes ensures t.nodes[n] == s.nodes[n] {
        var run, steps :| IsPath(run, steps) && run[0] == s && run[|steps|] == t;
        HalfAPairIsStuck(run, steps, |steps|, n);
      }
    }
  }
}
