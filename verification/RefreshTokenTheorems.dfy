/** The results about whole runs of the refresh-token protocol. */
module RefreshTokenTheorems {
  import opened Options
  import opened RefreshTokens
  import opened RefreshTokenProofs

  /** The child token a call has won by a committed rotation. */
  function Won(call: Call): Option<Token>
  {
    match call
    case ReadTouch(_, _, pair) => Some(pair)
    case CommitTouch(_, _, _, pair) => Some(pair)
    case Returned(Rotated(pair)) => Some(pair)
    case _ => None
  }

  ghost predicate Inv(cfg: Config, s: State)
  {
    && Good(cfg, s.world)
    && (forall c :: c in s.calls ==> CallOk(cfg, s.world, s.calls[c]))
    && (forall c, d :: c in s.calls && d in s.calls && c != d && Won(s.calls[c]).Some? && Won(s.calls[d]).Some? ==>
          Won(s.calls[c]).value.id != Won(s.calls[d]).value.id)
  }

  lemma WonIsMinted(cfg: Config, s: State, c: nat)
    requires Inv(cfg, s) && c in s.calls && Won(s.calls[c]).Some?
    ensures Minted(s.world.log, Won(s.calls[c]).value)
  {
  }

  lemma MoveWins(cfg: Config, w: World, call: Call, pick: nat, gen: Token)
    requires Act(cfg, w, call, pick, gen).Effect?
    ensures var e := Act(cfg, w, call, pick, gen);
            Won(e.call).Some? && Won(e.call) != Won(call) ==> Won(e.call).value.id !in w.log.created
  {
  }

  lemma StepKeeps(cfg: Config, s: State, step: Step, t: State)
    requires cfg.ttl > 0 && Inv(cfg, s) && Next(cfg, s, step, t)
    ensures Inv(cfg, t) && Evolves(cfg, s.world, t.world)
  {
    assert Good(cfg, t.world) && Evolves(cfg, s.world, t.world) by { StepWorld(cfg, s, step, t); }
    forall c | c in t.calls ensures CallOk(cfg, t.world, t.calls[c]) { StepCalls(cfg, s, step, t, c); }
    forall c, d | c in t.calls && d in t.calls && c != d && Won(t.calls[c]).Some? && Won(t.calls[d]).Some?
      ensures Won(t.calls[c]).value.id != Won(t.calls[d]).value.id
    {
      StepWins(cfg, s, step, t, c, d);
    }
  }

  lemma StepWorld(cfg: Config, s: State, step: Step, t: State)
    requires cfg.ttl > 0 && Inv(cfg, s) && Next(cfg, s, step, t)
    ensures Good(cfg, t.world) && Evolves(cfg, s.world, t.world)
  {
    match step
    case Tick(to) => FadeKeeps(cfg, s.world, t.world);
    case Login(row) => LoginKeeps(cfg, s.world, row, t.world);
    case Move(c, pick, gen) => MoveKeeps(cfg, s.world, s.calls[c], pick, gen);
    case _ =>
  }

  lemma StepCalls(cfg: Config, s: State, step: Step, t: State, c: nat)
    requires cfg.ttl > 0 && Inv(cfg, s) && Next(cfg, s, step, t) && Evolves(cfg, s.world, t.world) && c in t.calls
    ensures CallOk(cfg, t.world, t.calls[c])
  {
    if step.Move? && step.c == c {
      MoveKeeps(cfg, s.world, s.calls[c], step.pick, step.gen);
    } else if c in s.calls && t.calls[c] == s.calls[c] {
      CallStays(cfg, s.world, t.world, s.calls[c]);
    }
  }

  lemma StepWins(cfg: Config, s: State, step: Step, t: State, c: nat, d: nat)
    requires Inv(cfg, s) && Next(cfg, s, step, t)
    requires c in t.calls && d in t.calls && c != d && Won(t.calls[c]).Some? && Won(t.calls[d]).Some?
    ensures Won(t.calls[c]).value.id != Won(t.calls[d]).value.id
  {
    if step.Move? {
      MoveWins(cfg, s.world, s.calls[step.c], step.pick, step.gen);
      if step.c != c { WonIsMinted(cfg, s, c); }
      if step.c != d { WonIsMinted(cfg, s, d); }
    }
  }

  lemma {:induction false} RunKeeps(cfg: Config, run: seq<State>, steps: seq<Step>, n: nat)
    requires cfg.ttl > 0 && IsRun(cfg, run, steps) && run[0] == START && n < |run|
    ensures Inv(cfg, run[n])
  {
    if n > 0 {
      RunKeeps(cfg, run, steps, n - 1);
      assert StepAt(cfg, run, steps, n - 1);
      StepKeeps(cfg, run[n - 1], steps[n - 1], run[n]);
    }
  }

  lemma EvolvesTransitive(cfg: Config, s: World, t: World, u: World)
    requires Evolves(cfg, s, t) && Evolves(cfg, t, u)
    ensures Evolves(cfg, s, u)
  {
  }

  lemma RunStep(cfg: Config, run: seq<State>, steps: seq<Step>, n: nat)
    requires cfg.ttl > 0 && IsRun(cfg, run, steps) && run[0] == START && n < |steps|
    ensures Evolves(cfg, run[n].world, run[n + 1].world)
  {
    RunKeeps(cfg, run, steps, n);
    assert StepAt(cfg, run, steps, n);
    StepKeeps(cfg, run[n], steps[n], run[n + 1]);
  }

  lemma {:induction false} RunEvolves(cfg: Config, run: seq<State>, steps: seq<Step>, m: nat, n: nat)
    requires cfg.ttl > 0 && IsRun(cfg, run, steps) && run[0] == START && m <= n < |run|
    ensures Evolves(cfg, run[m].world, run[n].world)
  {
    if m < n {
      RunEvolves(cfg, run, steps, m, n - 1);
      RunStep(cfg, run, steps, n - 1);
      EvolvesTransitive(cfg, run[m].world, run[n - 1].world, run[n].world);
    }
  }

  // ------------------------------------------------------------------ the theorems

  /** In every reachable state a family has at most one unrevoked token. */
  lemma AtMostOneActive(cfg: Config, run: seq<State>, steps: seq<Step>, n: nat, i: Id, j: Id)
    requires cfg.ttl > 0 && IsRun(cfg, run, steps) && run[0] == START && n < |run|
    requires Active(run[n].world.kv, i) && Active(run[n].world.kv, j)
    requires run[n].world.kv.rows[i].row.family == run[n].world.kv.rows[j].row.family
    ensures i == j
  {
    RunKeeps(cfg, run, steps, n);
    var w := run[n].world;
    ParentIsLast(cfg, w, w.kv.rows[i].row);
    ParentIsLast(cfg, w, w.kv.rows[j].row);
  }

  /** All tokens ever created in a family form one parent chain of one user, in commit order: the
      first has no parent, each later one's parent is the one before it, and no token repeats. */
  lemma FamilyIsOneChain(cfg: Config, run: seq<State>, steps: seq<Step>, n: nat, f: Family)
    requires cfg.ttl > 0 && IsRun(cfg, run, steps) && run[0] == START && n < |run| && f in run[n].world.log.chains
    ensures var log := run[n].world.log; var ch := log.chains[f];
            && ch != [] && (forall k :: 0 <= k < |ch| ==> ch[k] in log.created)
            && (forall i :: i in log.created ==> (log.created[i].family == f <==> i in ch))
            && (forall k :: 0 <= k < |ch| ==> log.created[ch[k]].user == log.created[ch[0]].user)
            && (forall k :: 0 <= k < |ch| ==> log.created[ch[k]].parent == if k == 0 then None else Some(ch[k - 1]))
            && (forall j, k :: 0 <= j < k < |ch| ==> ch[j] != ch[k])
  {
    RunKeeps(cfg, run, steps, n);
    var w := run[n].world;
    assert ChainOk(w.kv, w.log, f);
    forall i | i in w.log.created ensures w.log.created[i].family == f <==> i in w.log.chains[f] {
      assert TokenOk(cfg, w, i);
    }
  }

  /** No presented token yields two successful rotations: distinct successful Refresh calls hand out
      distinct children of distinct parents. */
  lemma RotatesAtMostOnce(cfg: Config, run: seq<State>, steps: seq<Step>, n: nat, c: nat, d: nat)
    requires cfg.ttl > 0 && IsRun(cfg, run, steps) && run[0] == START && n < |run|
    requires c in run[n].calls && d in run[n].calls && c != d
    requires Won(run[n].calls[c]).Some? && Won(run[n].calls[d]).Some?
    ensures var x, y := Won(run[n].calls[c]).value, Won(run[n].calls[d]).value;
            x.parent.Some? && y.parent.Some? && x.parent != y.parent && x.id != y.id
  {
    RunKeeps(cfg, run, steps, n);
    var w := run[n].world;
    var x, y := Won(run[n].calls[c]).value, Won(run[n].calls[d]).value;
    assert Minted(w.log, x) && Minted(w.log, y);
    if x.parent == y.parent { SiblingsEqual(cfg, w, x.id, y.id); }
  }

  lemma ChildFollowsParent(cfg: Config, w: World, i: Id) returns (k: nat)
    requires HistoryOk(cfg, w) && i in w.log.created && w.log.created[i].parent.Some?
    ensures var c := w.log.created[i];
            c.family in w.log.chains && 0 < k < |w.log.chains[c.family]| && w.log.chains[c.family][k] == i
            && w.log.chains[c.family][k - 1] == c.parent.value && c.parent.value in w.log.created
            && w.log.created[c.parent.value].family == c.family
  {
    assert TokenOk(cfg, w, i);
    var f := w.log.created[i].family;
    assert ChainOk(w.kv, w.log, f);
    k :| 0 <= k < |w.log.chains[f]| && w.log.chains[f][k] == i;
    assert k != 0;
    assert w.log.created[w.log.chains[f][k]].parent == Some(w.log.chains[f][k - 1]);
  }

  lemma SiblingsEqual(cfg: Config, w: World, i: Id, j: Id)
    requires HistoryOk(cfg, w) && i in w.log.created && j in w.log.created
    requires w.log.created[i].parent.Some? && w.log.created[i].parent == w.log.created[j].parent
    ensures i == j
  {
    var k := ChildFollowsParent(cfg, w, i);
    var l := ChildFollowsParent(cfg, w, j);
    assert ChainOk(w.kv, w.log, w.log.created[i].family);
  }

  /** A token that is revoked (or reaped) is never active again, whatever stale writes land later. */
  lemma RevocationIsPermanent(cfg: Config, run: seq<State>, steps: seq<Step>, m: nat, n: nat, i: Id)
    requires cfg.ttl > 0 && IsRun(cfg, run, steps) && run[0] == START && m <= n < |run|
    requires i in run[m].world.log.created && !Active(run[m].world.kv, i)
    ensures i in run[n].world.log.created && !Active(run[n].world.kv, i)
  {
    RunEvolves(cfg, run, steps, m, n);
  }

  /** A burned family is extended by no rotation, even one that read its row before the burn. */
  lemma BarredFamilyIsFrozen(cfg: Config, run: seq<State>, steps: seq<Step>, m: nat, n: nat, f: Family)
    requires cfg.ttl > 0 && IsRun(cfg, run, steps) && run[0] == START && m <= n < |run|
    requires Timely(cfg) && f in run[m].world.log.barred
    ensures f in run[m].world.log.chains && f in run[n].world.log.chains
    ensures run[n].world.log.chains[f] == run[m].world.log.chains[f]
  {
    RunKeeps(cfg, run, steps, m);
    RunEvolves(cfg, run, steps, m, n);
  }

  /** Call `c` has completed a burn of the families `fams`. */
  predicate Burned(s: State, c: nat, fams: set<Family>)
  {
    c in s.calls && s.calls[c] == Returned(Swept(fams))
  }

  /** Once a burn returns, every token ever created in the family is dead, then and at any later point. */
  lemma BurnedFamilyIsDead(cfg: Config, run: seq<State>, steps: seq<Step>, m: nat, n: nat, c: nat, fams: set<Family>,
                           f: Family)
    requires cfg.ttl > 0 && Timely(cfg) && IsRun(cfg, run, steps) && run[0] == START && m <= n < |run|
    requires Burned(run[m], c, fams) && f in fams
    ensures Dead(run[n].world.kv, run[n].world.log, f)
  {
    RunKeeps(cfg, run, steps, m);
    RunEvolves(cfg, run, steps, m, n);
    assert CallOk(cfg, run[m].world, run[m].calls[c]);
    assert Dead(run[m].world.kv, run[m].world.log, f);
    assert ChainOk(run[m].world.kv, run[m].world.log, f);
  }

  /** Once a burn returns, no row of the family is active, then or at any later point. */
  lemma BurnIsFinal(cfg: Config, run: seq<State>, steps: seq<Step>, m: nat, n: nat, c: nat, fams: set<Family>, i: Id)
    requires cfg.ttl > 0 && Timely(cfg) && IsRun(cfg, run, steps) && run[0] == START && m <= n < |run|
    requires Burned(run[m], c, fams) && i in run[n].world.kv.rows && run[n].world.kv.rows[i].row.family in fams
    ensures !Active(run[n].world.kv, i)
  {
    BurnedFamilyIsDead(cfg, run, steps, m, n, c, fams, run[n].world.kv.rows[i].row.family);
    RunKeeps(cfg, run, steps, n);
    assert TokenOk(cfg, run[n].world, i);
  }

  // ------------------------------------------------------------------ building runs

  ghost predicate Reaches(cfg: Config, s: State, t: State)
  {
    exists run, steps :: IsRun(cfg, run, steps) && run[0] == s && run[|steps|] == t
  }

  lemma ReachesSelf(cfg: Config, s: State)
    ensures Reaches(cfg, s, s)
  {
    assert IsRun(cfg, [s], []);
  }

  lemma ReachesOn(cfg: Config, s: State, t: State, step: Step, u: State)
    requires Reaches(cfg, s, t) && Next(cfg, t, step, u)
    ensures Reaches(cfg, s, u)
  {
    var run, steps :| IsRun(cfg, run, steps) && run[0] == s && run[|steps|] == t;
    var run', steps' := run + [u], steps + [step];
    forall i: nat | i < |steps'| ensures StepAt(cfg, run', steps', i) {
      if i < |steps| { assert StepAt(cfg, run, steps, i); }
    }
    assert IsRun(cfg, run', steps');
  }

  /** One move from calls `calls` to `calls'`, the world changing from `w` to `w'`. */
  lemma Moves(cfg: Config, s: State, w: World, calls: map<nat, Call>, c: nat, pick: nat, gen: Token, w': World,
              call': Call, calls': map<nat, Call>)
    requires Reaches(cfg, s, State(w, calls)) && c in calls && calls' == calls[c := call'] && w'.now == w.now
    requires Act(cfg, w, calls[c], pick, gen) == Effect(w'.kv, w'.log, call')
    ensures Reaches(cfg, s, State(w', calls'))
  {
    ReachesOn(cfg, s, State(w, calls), Move(c, pick, gen), State(w', calls'));
  }

  lemma Starts(cfg: Config, s: State, w: World, calls: map<nat, Call>, c: nat, call: Call, calls': map<nat, Call>)
    requires Reaches(cfg, s, State(w, calls)) && c !in calls && Entry(call, w.now) && calls' == calls[c := call]
    ensures Reaches(cfg, s, State(w, calls'))
  {
    ReachesOn(cfg, s, State(w, calls), Start(c, call), State(w, calls'));
  }
}
