/** Every interleaving of Serve, TTL expiry, StopByToken and Close. */
module BlobServeRuns {
  import opened Options
  import opened BlobServe

  /** How far one Serve call got. `Undoing` and `Dropping` are the two steps of the branch that lost
      the race against Close; a `Registered` serve belongs to `active` or to a claimant. */
  datatype Stage = Entered | Reserved | Listening | Primed | Registered | Undoing | Dropping | Over

  /** `Fired`: the callback has been launched and has not taken the mutex yet. */
  datatype Timer = Unset | Armed | Fired | Off

  /** One Serve call and what happened to its listener. `releasing` and `dropping` count the teardowns
      of it that are between the claim and the port release, and between the port release and the
      token drop; `released` counts the port releases done on its behalf. */
  datatype Serve = Serve(port: int, token: string, digest: string, stage: Stage, timer: Timer,
                         releasing: nat, dropping: nat, released: nat)

  datatype State = State(used: set<int>, active: map<int, Entry>, closed: bool, tokens: map<string, string>,
                         serves: map<nat, Serve>)

  const START := State({}, map[], false, map[], map[])

  datatype Step =
    | Enter(id: nat, token: string, digest: string)
    | Reserve(id: nat, r: Option<int>)
    | Listen(id: nat, ok: bool)
    | Prime(id: nat)
    | Register(id: nat)
    | UndoRelease(id: nat)
    | UndoDrop(id: nat)
    | Fire(id: nat)
    | Expire(id: nat)
    | Stop(port: int, token: string)
    | Close
    | Release(id: nat)
    | Drop(id: nat)

  function Put(s: State, id: nat, v: Serve): State { s.(serves := s.serves[id := v]) }

  function Stopped(t: Timer): Timer { if t == Armed then Off else t }

  /** A claimed serve, waiting for its claimant to tear it down. */
  function Claimed(v: Serve): Serve { v.(releasing := v.releasing + 1) }

  function Freed(v: Serve): Serve { v.(released := v.released + 1) }

  predicate Listed(s: State, id: nat)
  {
    id in s.serves && s.serves[id].port in s.active && s.active[s.serves[id].port].id == id
  }

  /** Whether a serve still owns the port it reserved. */
  predicate Holding(v: Serve, listed: bool)
  {
    match v.stage
    case Registered => listed || v.releasing > 0
    case Reserved => true
    case Listening => true
    case Primed => true
    case Undoing => true
    case _ => false
  }

  /** Whether a serve's token is primed and not dropped yet. */
  predicate Carrying(v: Serve, listed: bool)
  {
    match v.stage
    case Registered => listed || v.releasing > 0 || v.dropping > 0
    case Primed => true
    case Undoing => true
    case Dropping => true
    case _ => false
  }

  predicate Holds(s: State, id: nat) { id in s.serves && Holding(s.serves[id], Listed(s, id)) }

  predicate Carries(s: State, id: nat) { id in s.serves && Carrying(s.serves[id], Listed(s, id)) }

  function TakeAll(s: State): map<nat, Serve>
  {
    map i | i in s.serves :: if Listed(s, i) then Claimed(s.serves[i]) else s.serves[i]
  }

  ghost predicate Next(start: int, end: int, s: State, step: Step, t: State)
  {
    match step
    case Enter(id, token, digest) =>
      id !in s.serves && !s.closed && t == Put(s, id, Serve(0, token, digest, Entered, Unset, 0, 0, 0))
    case Stop(port, token) =>
      port in s.active && s.active[port].token == token && s.active[port].id in s.serves &&
      t == Put(s, s.active[port].id, Claimed(s.serves[s.active[port].id])).(active := Unlisting(s.active, port))
    case Close => !s.closed && t == s.(closed := true, active := map[], serves := TakeAll(s))
    case _ =>
      step.id in s.serves && Acts(start, end, s, step, s.serves[step.id], t)
  }

  /** The steps of one serve: its Serve call, its timer and the teardowns of it. */
  ghost predicate Acts(start: int, end: int, s: State, step: Step, v: Serve, t: State)
    requires !step.Enter? && !step.Stop? && !step.Close?
  {
    var id := step.id;
    match step
    case Reserve(_, r) =>
      v.stage == Entered && FirstFree(start, end, s.used, r) &&
      t == (match r
            case Some(p) => Put(s, id, v.(port := p, stage := Reserved)).(used := Taking(s.used, r))
            case None => Put(s, id, v.(stage := Over)))
    case Listen(_, ok) =>
      v.stage == Reserved &&
      t == if ok then Put(s, id, v.(stage := Listening))
           else Put(s, id, Freed(v).(stage := Over)).(used := Freeing(s.used, v.port))
    case Prime(_) =>
      // per-op tokens are minted once: no live serve carries this one
      v.stage == Listening && (forall i :: i in Grants(s) ==> Grants(s)[i].0 != v.token) &&
      t == Put(s, id, v.(stage := Primed, timer := Armed)).(tokens := Granting(s.tokens, v.token, v.digest))
    case Register(_) =>
      v.stage == Primed &&
      t == if s.closed then Put(s, id, v.(stage := Undoing, timer := Stopped(v.timer)))
           else Put(s, id, v.(stage := Registered))
               .(active := Publishing(s.active, s.closed, Entry(id, v.port, v.token)))
    case UndoRelease(_) =>
      v.stage == Undoing && t == Put(s, id, Freed(v).(stage := Dropping)).(used := Freeing(s.used, v.port))
    case UndoDrop(_) =>
      v.stage == Dropping && t == Put(s, id, v.(stage := Over)).(tokens := Revoking(s.tokens, v.token))
    case Fire(_) => v.timer == Armed && t == Put(s, id, v.(timer := Fired))
    case Expire(_) =>
      // the callback claims by port and then tears down the serve it captured
      v.timer == Fired &&
      t == if EntryAt(s.active, v.port).Some?
           then Put(s, id, Claimed(v).(timer := Off)).(active := Unlisting(s.active, v.port))
           else Put(s, id, v.(timer := Off))
    case Release(_) =>
      v.releasing > 0 &&
      var freed := Freed(v).(timer := Stopped(v.timer), releasing := v.releasing - 1, dropping := v.dropping + 1);
      t == Put(s, id, freed).(used := Freeing(s.used, v.port))
    case Drop(_) =>
      v.dropping > 0 && t == Put(s, id, v.(dropping := v.dropping - 1)).(tokens := Revoking(s.tokens, v.token))
  }

  /** At the moment it claims, a TTL callback finds its own serve under its port, or nothing. */
  predicate OwnClaim(s: State, step: Step)
  {
    step.Expire? && step.id in s.serves && s.serves[step.id].port in s.active ==> Listed(s, step.id)
  }

  // ------------------------------------------------------------------ the invariant

  /** A serve's stage, claim and teardown counts agree: it is released at most once, by the one path
      that owns it. */
  predicate Sound(v: Serve, listed: bool)
  {
    var a, b, n := v.releasing, v.dropping, v.released;
    match v.stage
    case Registered => if listed then a == b == n == 0 else (a == 1 && b == n == 0) || (a == 0 && b <= n == 1)
    case Dropping => !listed && a == b == 0 && n == 1
    case Over => !listed && a == b == 0 && n <= 1
    case _ => !listed && a == b == n == 0
  }

  /** The port each holder owns. */
  function Ports(s: State): map<nat, int> { map i | i in s.serves && Holds(s, i) :: s.serves[i].port }

  /** The token each carrier primed, with its digest. */
  function Grants(s: State): map<nat, (string, string)>
  {
    map i | i in s.serves && Carries(s, i) :: (s.serves[i].token, s.serves[i].digest)
  }

  /** `used` is the disjoint union of the ports held. */
  ghost predicate Partitions(ports: map<nat, int>, used: set<int>)
  {
    && (forall i :: i in ports ==> ports[i] in used)
    && (forall p :: p in used ==> exists i :: i in ports && ports[i] == p)
    && (forall i, j :: i in ports && j in ports && i != j ==> ports[i] != ports[j])
  }

  /** `tokens` holds the grants and nothing else, no two under one token. */
  ghost predicate Mirrors(grants: map<nat, (string, string)>, tokens: map<string, string>)
  {
    && (forall i :: i in grants ==> grants[i].0 in tokens && tokens[grants[i].0] == grants[i].1)
    && (forall k :: k in tokens ==> exists i :: i in grants && grants[i].0 == k)
    && (forall i, j :: i in grants && j in grants && i != j ==> grants[i].0 != grants[j].0)
  }

  predicate EntryOk(s: State, p: int)
    requires p in s.active
  {
    var e := s.active[p];
    e.port == p && e.id in s.serves && s.serves[e.id].port == p && s.serves[e.id].token == e.token &&
        s.serves[e.id].stage == Registered
  }

  ghost predicate ActiveOk(s: State)
  {
    && (s.closed ==> s.active == map[])
    && (forall p {:trigger EntryOk(s, p)} :: p in s.active ==> EntryOk(s, p))
  }

  predicate ServeOk(s: State, id: nat)
    requires id in s.serves
  {
    Sound(s.serves[id], Listed(s, id))
  }

  ghost predicate ServesOk(s: State)
  {
    forall id {:trigger ServeOk(s, id)} :: id in s.serves ==> ServeOk(s, id)
  }

  ghost predicate Inv(s: State)
  {
    ActiveOk(s) && ServesOk(s) && Partitions(Ports(s), s.used) && Mirrors(Grants(s), s.tokens)
  }

  // ------------------------------------------------------------------ gaining and losing a port or a grant

  lemma PortGained(ports: map<nat, int>, used: set<int>, id: nat, p: int)
    requires Partitions(ports, used) && id !in ports && p !in used
    ensures Partitions(ports[id := p], used + {p})
  {
    var more := ports[id := p];
    forall q | q in used || q == p ensures exists i :: i in more && more[i] == q {
      if q == p { assert id in more; } else {
        var i :| i in ports && ports[i] == q;
        assert i in more;
      }
    }
  }

  lemma PortLost(ports: map<nat, int>, used: set<int>, id: nat)
    requires Partitions(ports, used) && id in ports
    ensures Partitions(ports - {id}, used - {ports[id]})
  {
    var rest := ports - {id};
    forall q | q in used && q != ports[id] ensures exists i :: i in rest && rest[i] == q {
      var i :| i in ports && ports[i] == q;
      assert i in rest;
    }
  }

  /** `grants` are mirrored in `tokens`, each under a token of its own. */
  ghost predicate GrantsShown(grants: map<nat, (string, string)>, tokens: map<string, string>)
  {
    && (forall i :: i in grants ==> grants[i].0 in tokens && tokens[grants[i].0] == grants[i].1)
    && (forall i, j :: i in grants && j in grants && i != j ==> grants[i].0 != grants[j].0)
  }

  lemma GrantShown(grants: map<nat, (string, string)>, tokens: map<string, string>, id: nat, g: (string, string))
    requires GrantsShown(grants, tokens) && id !in grants && forall i :: i in grants ==> grants[i].0 != g.0
    ensures GrantsShown(grants[id := g], tokens[g.0 := g.1])
  {
    var more, all := grants[id := g], tokens[g.0 := g.1];
    forall i | i in more ensures more[i].0 in all && all[more[i].0] == more[i].1 {
      if i != id { assert more[i] == grants[i] && grants[i].0 != g.0; }
    }
    forall i, j | i in more && j in more && i != j ensures more[i].0 != more[j].0 {
      if i != id { assert more[i] == grants[i]; }
      if j != id { assert more[j] == grants[j]; }
    }
  }

  lemma GrantGained(grants: map<nat, (string, string)>, tokens: map<string, string>, id: nat, g: (string, string))
    requires Mirrors(grants, tokens) && id !in grants && forall i :: i in grants ==> grants[i].0 != g.0
    ensures Mirrors(grants[id := g], tokens[g.0 := g.1])
  {
    GrantShown(grants, tokens, id, g);
    var more, all := grants[id := g], tokens[g.0 := g.1];
    forall k | k in all ensures exists i :: i in more && more[i].0 == k {
      if k == g.0 { assert id in more; } else {
        var i :| i in grants && grants[i].0 == k;
        assert i in more;
      }
    }
    assert GrantsShown(more, all);
  }

  lemma GrantLost(grants: map<nat, (string, string)>, tokens: map<string, string>, id: nat)
    requires Mirrors(grants, tokens) && id in grants
    ensures Mirrors(grants - {id}, tokens - {grants[id].0})
  {
    var rest := grants - {id};
    forall k | k in tokens && k != grants[id].0 ensures exists i :: i in rest && rest[i].0 == k {
      var i :| i in grants && grants[i].0 == k;
      assert i in rest;
    }
  }

  // ------------------------------------------------------------------ each step

  /** Only serve `id` changed. */
  ghost predicate Others(s: State, t: State, id: nat)
  {
    forall i {:trigger Listed(t, i)} {:trigger Listed(s, i)} {:trigger i in t.serves} :: i != id ==>
      (i in t.serves <==> i in s.serves) && (i in s.serves ==> t.serves[i] == s.serves[i]) &&
          (Listed(t, i) <==> Listed(s, i))
  }

  /** What the change of one serve means for the ports, and for the grants. */
  lemma PortChange(s: State, t: State, id: nat)
    requires Others(s, t, id)
    ensures Ports(t) == if Holds(t, id) then Ports(s)[id := t.serves[id].port] else Ports(s) - {id}
  {
    forall i | i != id ensures Holds(t, i) <==> Holds(s, i) { assert Listed(t, i) <==> Listed(s, i); }
  }

  lemma GrantChange(s: State, t: State, id: nat)
    requires Others(s, t, id)
    ensures Grants(t) == if Carries(t, id) then Grants(s)[id := (t.serves[id].token, t.serves[id].digest)]
            else Grants(s) - {id}
  {
    forall i | i != id ensures Carries(t, i) <==> Carries(s, i) { assert Listed(t, i) <==> Listed(s, i); }
  }

  /** A step of one serve that keeps its entry (or absence of one) consistent keeps every other's. */
  lemma OneSound(s: State, t: State, id: nat)
    requires ServesOk(s) && Others(s, t, id) && (id in t.serves ==> ServeOk(t, id))
    ensures ServesOk(t)
  {
    forall i | i in t.serves ensures ServeOk(t, i) {
      if i != id { assert ServeOk(s, i); }
    }
  }

  /** The port of a serve that is about to register has no entry. */
  lemma PortUnlisted(s: State, id: nat)
    requires ActiveOk(s) && Partitions(Ports(s), s.used) && id in s.serves && s.serves[id].stage == Primed
    ensures s.serves[id].port !in s.active
  {
    forall p | p in s.active ensures p != s.serves[id].port {
      assert EntryOk(s, p);
      assert Listed(s, s.active[p].id);
      assert Ports(s)[s.active[p].id] == p;
      assert Ports(s)[id] == s.serves[id].port;
    }
  }

  /** A step that touches serve `id` and, of the entries, at most the one at a port no other listed serve has. */
  lemma TouchesOne(s: State, t: State, id: nat, port: int)
    requires t.serves.Keys == s.serves.Keys && id in s.serves
    requires forall i :: i in s.serves && i != id ==> t.serves[i] == s.serves[i]
    requires forall p :: p != port ==> EntryAt(t.active, p) == EntryAt(s.active, p)
    requires port in s.active ==> s.active[port].id == id
    requires port in t.active ==> t.active[port].id == id
    ensures Others(s, t, id)
  {
    forall i | i != id ensures Listed(t, i) <==> Listed(s, i) {
      if i in s.serves {
        assert EntryAt(t.active, s.serves[i].port) == EntryAt(s.active, s.serves[i].port) || s.serves[i].port == port;
      }
    }
  }

  /** One step of one serve leaves every other serve, and its listing, alone. */
  lemma StepOthers(start: int, end: int, s: State, step: Step, t: State)
    requires ActiveOk(s) && Partitions(Ports(s), s.used) && Next(start, end, s, step, t) && OwnClaim(s, step)
    requires !step.Enter? && !step.Stop? && !step.Close?
    ensures Others(s, t, step.id)
  {
    if step.Register? {
      PortUnlisted(s, step.id);
      TouchesOne(s, t, step.id, s.serves[step.id].port);
    } else if step.Expire? && s.serves[step.id].port in s.active {
      TouchesOne(s, t, step.id, s.serves[step.id].port);
    } else {
      assert t.active == s.active;
    }
  }

  lemma StepActive(start: int, end: int, s: State, step: Step, t: State)
    requires ActiveOk(s) && ServesOk(s) && Next(start, end, s, step, t)
    requires !step.Stop? && !step.Close?
    ensures ActiveOk(t)
  {
    if !step.Enter? { assert ServeOk(s, step.id); }
    forall p | p in t.active ensures EntryOk(t, p) {
      if p in s.active { assert EntryOk(s, p); }
    }
  }

  /** Serve `id` acquires a free port, gives its port back, or neither. */
  ghost predicate PortMove(s: State, t: State, id: nat)
  {
    if !Holds(s, id) && Holds(t, id) then t.serves[id].port !in s.used && t.used == s.used + {t.serves[id].port}
    else if Holds(s, id) && !Holds(t, id) then t.used == s.used - {s.serves[id].port}
    else t.used == s.used && (Holds(s, id) ==> t.serves[id].port == s.serves[id].port)
  }

  /** Serve `id` primes a token nobody carries, has its token dropped, or neither. */
  ghost predicate GrantMove(s: State, t: State, id: nat)
  {
    if !Carries(s, id) && Carries(t, id) then
      (forall i :: i in Grants(s) ==> Grants(s)[i].0 != t.serves[id].token) &&
          t.tokens == s.tokens[t.serves[id].token := t.serves[id].digest]
    else if Carries(s, id) && !Carries(t, id) then t.tokens == s.tokens - {s.serves[id].token}
    else t.tokens == s.tokens && (Carries(s, id) ==>
                                    t.serves[id].token == s.serves[id].token &&
                                        t.serves[id].digest == s.serves[id].digest)
  }

  lemma MovePorts(s: State, t: State, id: nat)
    requires Partitions(Ports(s), s.used) && Others(s, t, id) && PortMove(s, t, id)
    ensures Partitions(Ports(t), t.used)
  {
    PortChange(s, t, id);
    if !Holds(s, id) && Holds(t, id) {
      PortGained(Ports(s), s.used, id, t.serves[id].port);
    } else if Holds(s, id) && !Holds(t, id) {
      PortLost(Ports(s), s.used, id);
    } else {
      assert Ports(t) == Ports(s);
    }
  }

  lemma MoveGrants(s: State, t: State, id: nat)
    requires Mirrors(Grants(s), s.tokens) && Others(s, t, id) && GrantMove(s, t, id)
    ensures Mirrors(Grants(t), t.tokens)
  {
    GrantChange(s, t, id);
    if !Carries(s, id) && Carries(t, id) {
      GrantGained(Grants(s), s.tokens, id, (t.serves[id].token, t.serves[id].digest));
    } else if Carries(s, id) && !Carries(t, id) {
      GrantLost(Grants(s), s.tokens, id);
    } else {
      assert Grants(t) == Grants(s);
    }
  }

  /** A registered serve holds its port, so no free port is listed. */
  lemma ListedUsed(s: State, p: int)
    requires ActiveOk(s) && Partitions(Ports(s), s.used) && p in s.active
    ensures p in s.used
  {
    assert EntryOk(s, p);
    assert Listed(s, s.active[p].id);
    assert Ports(s)[s.active[p].id] == p;
  }

  /** What the steps of a Serve call do to its serve: acquiring, then registering or undoing. */
  lemma AcquireLocal(start: int, end: int, s: State, step: Step, t: State)
    requires Next(start, end, s, step, t) && (step.Reserve? || step.Listen? || step.Prime?) && ServeOk(s, step.id)
    requires step.Reserve? && step.r.Some? ==> step.r.value !in s.active
    ensures PortMove(s, t, step.id) && GrantMove(s, t, step.id) && ServeOk(t, step.id)
  {
  }

  lemma SettleLocal(start: int, end: int, s: State, step: Step, t: State)
    requires Next(start, end, s, step, t) && (step.Register? || step.UndoRelease? || step.UndoDrop?) &&
             ServeOk(s, step.id)
    requires step.Register? ==> s.serves[step.id].port !in s.active
    ensures PortMove(s, t, step.id) && GrantMove(s, t, step.id) && ServeOk(t, step.id)
  {
  }

  /** What the timer and the teardowns do to their serve. */
  lemma TeardownLocal(start: int, end: int, s: State, step: Step, t: State)
    requires Next(start, end, s, step, t) && (step.Fire? || step.Expire? || step.Release? || step.Drop?) &&
             OwnClaim(s, step)
    requires ServeOk(s, step.id)
    ensures PortMove(s, t, step.id) && GrantMove(s, t, step.id) && ServeOk(t, step.id)
  {
  }

  lemma OneServeKeeps(start: int, end: int, s: State, step: Step, t: State)
    requires Inv(s) && Next(start, end, s, step, t) && OwnClaim(s, step) && !step.Enter? && !step.Stop? && !step.Close?
    ensures Inv(t)
  {
    var id := step.id;
    assert ServeOk(s, id);
    StepOthers(start, end, s, step, t);
    StepActive(start, end, s, step, t);
    if step.Register? { PortUnlisted(s, id); }
    if step.Reserve? && step.r.Some? && step.r.value in s.active { ListedUsed(s, step.r.value); }
    if step.Fire? || step.Expire? || step.Release? || step.Drop? {
      TeardownLocal(start, end, s, step, t);
    } else if step.Reserve? || step.Listen? || step.Prime? {
      AcquireLocal(start, end, s, step, t);
    } else {
      SettleLocal(start, end, s, step, t);
    }
    OneSound(s, t, id);
    MovePorts(s, t, id);
    MoveGrants(s, t, id);
  }

  lemma EnterKeeps(start: int, end: int, s: State, step: Step, t: State)
    requires Inv(s) && Next(start, end, s, step, t) && step.Enter?
    ensures Inv(t)
  {
    StepActive(start, end, s, step, t);
    assert !Listed(t, step.id) by {
      if t.serves[step.id].port in s.active { assert EntryOk(s, t.serves[step.id].port); }
    }
    OneSound(s, t, step.id);
    MovePorts(s, t, step.id);
    MoveGrants(s, t, step.id);
  }

  lemma StopKeeps(start: int, end: int, s: State, step: Step, t: State)
    requires Inv(s) && Next(start, end, s, step, t) && step.Stop?
    ensures Inv(t)
  {
    var id := s.active[step.port].id;
    assert EntryOk(s, step.port);
    assert Listed(s, id) && ServeOk(s, id);
    forall p | p in t.active ensures EntryOk(t, p) { assert EntryOk(s, p); }
    assert Others(s, t, id);
    OneSound(s, t, id);
    MovePorts(s, t, id);
    MoveGrants(s, t, id);
  }

  lemma CloseKeeps(start: int, end: int, s: State, step: Step, t: State)
    requires Inv(s) && Next(start, end, s, step, t) && step.Close?
    ensures Inv(t)
  {
    forall i | i in t.serves ensures ServeOk(t, i) { assert ServeOk(s, i); }
    assert Ports(t) == Ports(s) by { CloseMoves(start, end, s, step, t); }
    assert Grants(t) == Grants(s) by { CloseMoves(start, end, s, step, t); }
  }

  lemma CloseMoves(start: int, end: int, s: State, step: Step, t: State)
    requires ServesOk(s) && Next(start, end, s, step, t) && step.Close?
    ensures Ports(t) == Ports(s) && Grants(t) == Grants(s)
  {
    forall i | i in s.serves ensures (Holds(t, i) <==> Holds(s, i)) && (Carries(t, i) <==> Carries(s, i)) {
      assert ServeOk(s, i);
    }
  }

  lemma StepKeeps(start: int, end: int, s: State, step: Step, t: State)
    requires Inv(s) && Next(start, end, s, step, t) && OwnClaim(s, step)
    ensures Inv(t)
  {
    match step
    case Enter(_, _, _) => EnterKeeps(start, end, s, step, t);
    case Stop(_, _) => StopKeeps(start, end, s, step, t);
    case Close => CloseKeeps(start, end, s, step, t);
    case _ => OneServeKeeps(start, end, s, step, t);
  }

  /** A TTL callback that claims another serve's entry breaks the invariant: that serve is left with
      nobody to tear it down. */
  lemma ForeignClaimBreaks(start: int, end: int, s: State, step: Step, t: State)
    requires Inv(s) && Next(start, end, s, step, t) && !OwnClaim(s, step)
    ensures !Inv(t)
  {
    var p := s.serves[step.id].port;
    var other := s.active[p].id;
    assert EntryOk(s, p);
    assert Listed(s, other) && ServeOk(s, other);
    assert !ServeOk(t, other);
  }
}
