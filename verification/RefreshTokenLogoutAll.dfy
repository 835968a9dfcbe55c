/**
 LogoutAll: which families it reaches while rotations, cleanups and other calls run. It ranges the user's
 tokens, reads each for its family, and burns those families; a token reaped between the range and the
 read hides its family.
 */
module RefreshTokenLogoutAll {
  import opened Options
  import opened RefreshTokens
  import opened RefreshTokenProofs
  import opened RefreshTokenTheorems

  // ------------------------------------------------------------------ unexpired tokens are never reaped

  /** A token that has not expired is stored and indexed. */
  ghost predicate Kept(w: World, i: Id)
    requires i in w.log.created
  {
    var tok := w.log.created[i];
    tok.expires >= w.now ==> i in w.kv.rows && (tok.user, i) in w.kv.byUser
  }

  /** A cleanup deletes expired tokens only. */
  predicate ReapsExpired(now: Time, call: Call)
  {
    match call
    case RangeExpired(cutoff) => cutoff <= now
    case RangeBarriers(cutoff, tokens) => forall i :: i in tokens ==> tokens[i].expires < now
    case Delete(tokens, _) => forall i :: i in tokens ==> tokens[i].expires < now
    case _ => true
  }

  ghost predicate Unreaped(s: State)
  {
    && (forall i {:trigger Kept(s.world, i)} :: i in s.world.log.created ==> Kept(s.world, i))
    && (forall c {:trigger s.calls[c]} :: c in s.calls ==> ReapsExpired(s.world.now, s.calls[c]))
  }

  lemma MoveReapsExpired(cfg: Config, w: World, call: Call, pick: nat, gen: Token)
    requires Act(cfg, w, call, pick, gen).Effect? && ReapsExpired(w.now, call)
    ensures ReapsExpired(w.now, Act(cfg, w, call, pick, gen).call)
  {
  }

  /** Only cleanup removes rows or index entries. */
  lemma MoveOnlyAdds(cfg: Config, w: World, call: Call, pick: nat, gen: Token)
    requires Act(cfg, w, call, pick, gen).Effect? && !call.Delete?
    ensures var e := Act(cfg, w, call, pick, gen);
            w.kv.rows.Keys <= e.kv.rows.Keys && w.kv.byUser <= e.kv.byUser
  {
  }

  /** Cleanup leaves an unexpired token stored and indexed. */
  lemma DeleteKeepsToken(cfg: Config, w: World, call: Call, pick: nat, gen: Token, i: Id)
    requires call.Delete? && KnownAll(w.log, call.tokens) && ReapsExpired(w.now, call)
    requires Act(cfg, w, call, pick, gen).Effect? && i in w.log.created && Kept(w, i)
    ensures var e := Act(cfg, w, call, pick, gen); e.log == w.log && Kept(World(w.now, e.kv, e.log), i)
  {
  }

  /** A move leaves an unexpired token stored and indexed. */
  lemma MoveKeepsToken(cfg: Config, w: World, call: Call, pick: nat, gen: Token, i: Id)
    requires CallOk(cfg, w, call) && ReapsExpired(w.now, call) && Act(cfg, w, call, pick, gen).Effect?
    requires i in w.log.created && Kept(w, i)
    ensures var e := Act(cfg, w, call, pick, gen); var t := World(w.now, e.kv, e.log);
            i in e.log.created && e.log.created[i] == w.log.created[i] ==> Kept(t, i)
  {
    if call.Delete? { DeleteKeepsToken(cfg, w, call, pick, gen, i); } else { MoveOnlyAdds(cfg, w, call, pick, gen); }
  }

  /** A token a step creates is stored and indexed. */
  lemma CreatedIsKept(cfg: Config, s: State, step: Step, t: State, i: Id)
    requires Next(cfg, s, step, t) && i in t.world.log.created && i !in s.world.log.created
    ensures Kept(t.world, i)
  {
  }

  lemma StepUnreaped(cfg: Config, s: State, step: Step, t: State)
    requires Inv(cfg, s) && Unreaped(s) && Next(cfg, s, step, t) && Evolves(cfg, s.world, t.world)
    ensures Unreaped(t)
  {
    forall i | i in t.world.log.created ensures Kept(t.world, i) {
      if i in s.world.log.created {
        assert Kept(s.world, i) && TokenOk(cfg, s.world, i);
        if step.Move? { MoveKeepsToken(cfg, s.world, s.calls[step.c], step.pick, step.gen, i); }
      } else {
        CreatedIsKept(cfg, s, step, t, i);
      }
    }
    forall c | c in t.calls ensures ReapsExpired(t.world.now, t.calls[c]) {
      if step.Move? && step.c == c { MoveReapsExpired(cfg, s.world, s.calls[c], step.pick, step.gen); }
    }
  }

  lemma {:induction false} RunUnreaped(cfg: Config, run: seq<State>, steps: seq<Step>, n: nat)
    requires cfg.ttl > 0 && IsRun(cfg, run, steps) && run[0] == START && n < |run|
    ensures Unreaped(run[n])
  {
    if n > 0 {
      RunUnreaped(cfg, run, steps, n - 1);
      RunKeeps(cfg, run, steps, n - 1);
      RunStep(cfg, run, steps, n - 1);
      assert StepAt(cfg, run, steps, n - 1);
      StepUnreaped(cfg, run[n - 1], steps[n - 1], run[n]);
    }
  }

  // ------------------------------------------------------------------ reaching a family

  /** A LogoutAll at program counter `call` is still on its way to the family of `tok`. */
  predicate Aims(call: Call, tok: Token)
  {
    match call
    case RangeUser(u) => tok.user == u
    case ReadFamilies(toRead, fams) => tok.id in toRead || tok.family in fams
    case Bar(_, fams) => tok.family in fams
    case PutBarrier(_, _, _, fams) => tok.family in fams
    case RangeFamily(_, fams) => tok.family in fams
    case ReadRows(_, _, _, _, fams) => tok.family in fams
    case WriteRows(_, _, _, fams) => tok.family in fams
    case Returned(Swept(fams)) => tok.family in fams
    case Returned(Failed) => true
    case _ => false
  }

  /** The call is still finding out which families to burn. */
  predicate Gathers(call: Call) { call.RangeUser? || call.ReadFamilies? }

  /** Its aim survives a move of its own, if the token is stored and indexed while families are gathered. */
  lemma AimHolds(cfg: Config, w: World, call: Call, pick: nat, gen: Token, tok: Token)
    requires Aims(call, tok) && Act(cfg, w, call, pick, gen).Effect?
    requires Gathers(call) ==>
               tok.id in w.kv.rows && w.kv.rows[tok.id].row.family == tok.family && (tok.user, tok.id) in w.kv.byUser
    ensures Aims(Act(cfg, w, call, pick, gen).call, tok)
  {
  }

  predicate InTime(s: State, c: nat, end: Time) { c in s.calls && Gathers(s.calls[c]) ==> s.world.now <= end }

  /** From point m to point n, call `c` gathers families no later than `end`. */
  ghost predicate GathersBy(run: seq<State>, m: nat, n: nat, c: nat, end: Time)
    requires m <= n < |run|
  {
    forall k: nat {:trigger InTime(run[k], c, end)} :: m <= k <= n ==> InTime(run[k], c, end)
  }

  ghost predicate AimsAt(s: State, c: nat, i: Id)
  {
    c in s.calls && i in s.world.log.created && Aims(s.calls[c], s.world.log.created[i])
  }

  lemma AimStep(cfg: Config, s: State, step: Step, t: State, c: nat, i: Id)
    requires Inv(cfg, s) && Unreaped(s) && Evolves(cfg, s.world, t.world) && Next(cfg, s, step, t) && AimsAt(s, c, i)
    requires Gathers(s.calls[c]) ==> s.world.now <= s.world.log.created[i].expires
    ensures AimsAt(t, c, i)
  {
    if step.Move? && step.c == c {
      assert Kept(s.world, i) && TokenOk(cfg, s.world, i);
      AimHolds(cfg, s.world, s.calls[c], step.pick, step.gen, s.world.log.created[i]);
    }
  }

  lemma AimAt(cfg: Config, run: seq<State>, steps: seq<Step>, n: nat, c: nat, i: Id, end: Time)
    requires cfg.ttl > 0 && IsRun(cfg, run, steps) && run[0] == START && n < |steps| && AimsAt(run[n], c, i)
    requires InTime(run[n], c, end) && end == run[n].world.log.created[i].expires
    ensures AimsAt(run[n + 1], c, i)
  {
    RunKeeps(cfg, run, steps, n);
    RunUnreaped(cfg, run, steps, n);
    RunStep(cfg, run, steps, n);
    assert StepAt(cfg, run, steps, n);
    AimStep(cfg, run[n], steps[n], run[n + 1], c, i);
  }

  lemma {:induction false} AimRun(cfg: Config, run: seq<State>, steps: seq<Step>, m: nat, n: nat, c: nat, i: Id,
                                  end: Time)
    requires cfg.ttl > 0 && IsRun(cfg, run, steps) && run[0] == START && m <= n < |run| && AimsAt(run[m], c, i)
    requires GathersBy(run, m, n, c, end) && end == run[m].world.log.created[i].expires
    ensures AimsAt(run[n], c, i)
  {
    if m < n {
      assert GathersBy(run, m, n - 1, c, end);
      AimRun(cfg, run, steps, m, n - 1, c, i, end);
      RunEvolves(cfg, run, steps, m, n - 1);
      assert InTime(run[n - 1], c, end);
      AimAt(cfg, run, steps, n - 1, c, i, end);
    }
  }

  /** LogoutAll for `u` begins as call `c` at point m, where token `i` of the user is active and unexpired, and
      returns at point n having swept `fams`; it gathers families no later than `late` after that expiry. */
  ghost predicate LogsOut(cfg: Config, run: seq<State>, steps: seq<Step>, m: nat, n: nat, c: nat, u: User,
                          fams: set<Family>, i: Id, late: int)
  {
    && IsRun(cfg, run, steps) && run[0] == START && m <= n < |run|
    && c in run[m].calls && run[m].calls[c] == RangeUser(u) && Burned(run[n], c, fams)
    && Active(run[m].world.kv, i) && run[m].world.kv.rows[i].row.user == u
    && run[m].world.now <= run[m].world.kv.rows[i].row.expires
    && GathersBy(run, m, n, c, run[m].world.kv.rows[i].row.expires + late)
  }

  /** When LogoutAll returns, every family of the user that had an active token when it began is burned:
      each token ever created in it, children rotated in meanwhile included, is dead then and at any later
      point; provided the call read that token's family before the token expired. */
  lemma LogoutAllKillsFamilies(cfg: Config, run: seq<State>, steps: seq<Step>, m: nat, n: nat, c: nat, u: User,
                               fams: set<Family>, i: Id, later: nat)
    requires cfg.ttl > 0 && Timely(cfg) && LogsOut(cfg, run, steps, m, n, c, u, fams, i, 0) && n <= later < |run|
    ensures var f := run[m].world.kv.rows[i].row.family; f in fams && Dead(run[later].world.kv, run[later].world.log, f)
  {
    RunKeeps(cfg, run, steps, m);
    assert Known(run[m].world.log, run[m].world.kv.rows[i].row);
    AimRun(cfg, run, steps, m, n, c, i, run[m].world.log.created[i].expires);
    RunEvolves(cfg, run, steps, m, n);
    BurnedFamilyIsDead(cfg, run, steps, n, later, c, fams, run[m].world.kv.rows[i].row.family);
  }

  // ------------------------------------------------------------------ the tokens themselves

  /** Call `c` has killed token `i` or is still on its way to doing so. */
  ghost predicate Chases(s: State, c: nat, i: Id)
  {
    && c in s.calls && i in s.world.log.created
    && (Active(s.world.kv, i) ==> Aims(s.calls[c], s.world.log.created[i]))
  }

  lemma ChaseStep(cfg: Config, s: State, step: Step, t: State, c: nat, i: Id)
    requires RowsOk(s.world.kv, s.world.log) && Evolves(cfg, s.world, t.world) && Next(cfg, s, step, t) &&
             Chases(s, c, i)
    ensures Chases(t, c, i)
  {
    if Active(t.world.kv, i) && step.Move? && step.c == c {
      assert Active(s.world.kv, i) && Known(s.world.log, s.world.kv.rows[i].row);
      AimHolds(cfg, s.world, s.calls[c], step.pick, step.gen, s.world.log.created[i]);
    }
  }

  lemma ChaseAt(cfg: Config, run: seq<State>, steps: seq<Step>, n: nat, c: nat, i: Id)
    requires cfg.ttl > 0 && IsRun(cfg, run, steps) && run[0] == START && n < |steps| && Chases(run[n], c, i)
    ensures Chases(run[n + 1], c, i)
  {
    RunKeeps(cfg, run, steps, n);
    RunStep(cfg, run, steps, n);
    assert StepAt(cfg, run, steps, n);
    ChaseStep(cfg, run[n], steps[n], run[n + 1], c, i);
  }

  lemma {:induction false} ChaseRun(cfg: Config, run: seq<State>, steps: seq<Step>, m: nat, n: nat, c: nat, i: Id)
    requires cfg.ttl > 0 && IsRun(cfg, run, steps) && run[0] == START && m <= n < |run| && Chases(run[m], c, i)
    ensures Chases(run[n], c, i)
  {
    if m < n {
      ChaseRun(cfg, run, steps, m, n - 1, c, i);
      ChaseAt(cfg, run, steps, n - 1, c, i);
    }
  }

  /** When LogoutAll returns, every token of the user that was active when it began is dead, whatever
      rotations, cleanups and other calls ran meanwhile. */
  lemma LogoutAllKillsActiveTokens(cfg: Config, run: seq<State>, steps: seq<Step>, m: nat, n: nat, c: nat, u: User,
                                   fams: set<Family>, i: Id)
    requires cfg.ttl > 0 && Timely(cfg) && IsRun(cfg, run, steps) && run[0] == START && m <= n < |run|
    requires c in run[m].calls && run[m].calls[c] == RangeUser(u) && Burned(run[n], c, fams)
    requires Active(run[m].world.kv, i) && run[m].world.kv.rows[i].row.user == u
    ensures !Active(run[n].world.kv, i)
  {
    RunKeeps(cfg, run, steps, m);
    assert Known(run[m].world.log, run[m].world.kv.rows[i].row);
    ChaseRun(cfg, run, steps, m, n, c, i);
    RunKeeps(cfg, run, steps, n);
    if i in run[n].world.kv.rows && run[n].world.kv.rows[i].row.family in fams {
      BurnIsFinal(cfg, run, steps, n, n, c, fams, i);
    }
  }
}
