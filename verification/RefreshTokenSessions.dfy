/** What presenting one token does, whatever runs meanwhile: a replayed token burns its family, and a logged-out
    one is dead. */
module RefreshTokenSessions {
  import opened Options
  import opened RefreshTokens
  import opened RefreshTokenProofs
  import opened RefreshTokenTheorems

  // ------------------------------------------------------------------ the hash index

  ghost predicate EntryOk(w: World, h: Hash)
    requires h in w.kv.byHash
  {
    w.kv.byHash[h] in w.log.created && w.log.created[w.kv.byHash[h]].hash == h
  }

  ghost predicate Indexed(w: World, i: Id)
    requires i in w.log.created
  {
    var h := w.log.created[i].hash;
    Active(w.kv, i) ==> h in w.kv.byHash && w.kv.byHash[h] == i
  }

  predicate Apart(log: History, i: Id, j: Id)
    requires i in log.created && j in log.created
  {
    log.created[i].hash == log.created[j].hash ==> i == j
  }

  /** Hashes tell tokens apart, index entries lead to the token of their hash, and active tokens have one. */
  ghost predicate HashesOk(w: World)
  {
    && (forall i, j {:trigger Apart(w.log, i, j)} :: i in w.log.created && j in w.log.created ==> Apart(w.log, i, j))
    && (forall h {:trigger EntryOk(w, h)} :: h in w.kv.byHash ==> EntryOk(w, h))
    && (forall i {:trigger Indexed(w, i)} :: i in w.log.created ==> Indexed(w, i))
  }

  /** A write that neither creates tokens nor touches the index. */
  lemma PlainHashes(s: World, t: World)
    requires HashesOk(s) && t.log.created == s.log.created && t.kv.byHash == s.kv.byHash
    requires forall i :: i in s.log.created && Active(t.kv, i) ==> Active(s.kv, i)
    ensures HashesOk(t)
  {
    forall i, j | i in t.log.created && j in t.log.created ensures Apart(t.log, i, j) { assert Apart(s.log, i, j); }
    forall h | h in t.kv.byHash ensures EntryOk(t, h) { assert EntryOk(s, h); }
    forall i | i in t.log.created ensures Indexed(t, i) { assert Indexed(s, i); }
  }

  /** An insertion of a fresh token. */
  lemma InsertHashes(s: World, row: Token, t: World)
    requires HashesOk(s) && Fresh(s.log, row) && t.log.created == s.log.created[row.id := Core(row)]
    requires t.kv.byHash == s.kv.byHash[row.hash := row.id]
    requires forall i :: i in s.log.created && Active(t.kv, i) ==> Active(s.kv, i)
    ensures HashesOk(t)
  {
    forall i, j | i in t.log.created && j in t.log.created ensures Apart(t.log, i, j) {
      if i != row.id && j != row.id { assert Apart(s.log, i, j); }
    }
    forall h | h in t.kv.byHash ensures EntryOk(t, h) {
      if h != row.hash { assert EntryOk(s, h); }
    }
    forall i | i in t.log.created ensures Indexed(t, i) {
      if i != row.id { assert Indexed(s, i); }
    }
  }

  /** A deletion of a known token. */
  lemma DropHashes(s: World, tok: Token, t: World)
    requires HashesOk(s) && Known(s.log, tok) && t.log.created == s.log.created
    requires t.kv.byHash == s.kv.byHash - {tok.hash} && !Active(t.kv, tok.id)
    requires forall i :: i in s.log.created && Active(t.kv, i) ==> Active(s.kv, i)
    ensures HashesOk(t)
  {
    forall i, j | i in t.log.created && j in t.log.created ensures Apart(t.log, i, j) { assert Apart(s.log, i, j); }
    forall h | h in t.kv.byHash ensures EntryOk(t, h) { assert EntryOk(s, h); }
    forall i | i in t.log.created ensures Indexed(t, i) { assert Indexed(s, i) && Apart(s.log, i, tok.id); }
  }

  /** Only rotations and cleanup touch the index. */
  lemma MoveIndex(cfg: Config, w: World, call: Call, pick: nat, gen: Token)
    requires Act(cfg, w, call, pick, gen).Effect?
    ensures var e := Act(cfg, w, call, pick, gen);
            || (e.log.created == w.log.created && e.kv.byHash == w.kv.byHash)
            || (call.CommitRotate? && Fresh(w.log, call.child)
                && e.log.created == w.log.created[call.child.id := Core(call.child)]
                && e.kv.byHash == w.kv.byHash[call.child.hash := call.child.id])
            || (call.Delete? && pick in call.tokens && e.log == w.log && e.kv == DropToken(w.kv, call.tokens[pick]))
  {
  }

  lemma StepHashes(cfg: Config, s: State, step: Step, t: State)
    requires HashesOk(s.world) && Next(cfg, s, step, t) && Evolves(cfg, s.world, t.world)
    requires step.Move? ==> CallOk(cfg, s.world, s.calls[step.c])
    ensures HashesOk(t.world)
  {
    if step.Login? {
      InsertHashes(s.world, step.row, t.world);
    } else if step.Move? {
      var call := s.calls[step.c];
      MoveIndex(cfg, s.world, call, step.pick, step.gen);
      if t.world.log.created == s.world.log.created && t.world.kv.byHash == s.world.kv.byHash {
        PlainHashes(s.world, t.world);
      } else if call.CommitRotate? {
        InsertHashes(s.world, call.child, t.world);
      } else {
        DropHashes(s.world, call.tokens[step.pick], t.world);
      }
    } else {
      PlainHashes(s.world, t.world);
    }
  }

  lemma {:induction false} RunHashes(cfg: Config, run: seq<State>, steps: seq<Step>, n: nat)
    requires cfg.ttl > 0 && IsRun(cfg, run, steps) && run[0] == START && n < |run|
    ensures HashesOk(run[n].world)
  {
    if n > 0 {
      RunHashes(cfg, run, steps, n - 1);
      RunKeeps(cfg, run, steps, n - 1);
      RunStep(cfg, run, steps, n - 1);
      assert StepAt(cfg, run, steps, n - 1);
      StepHashes(cfg, run[n - 1], steps[n - 1], run[n]);
    }
  }

  // ------------------------------------------------------------------ replaying a spent token

  /** Where a Refresh of a token that is revoked can be: looking it up, burning its family, or done. */
  predicate Replays(call: Call, tok: Token)
  {
    match call
    case LookUp(h) => h == tok.hash
    case Fetch(id) => id == tok.id
    case Bar(_, fams) => fams == {tok.family}
    case PutBarrier(_, _, _, fams) => fams == {tok.family}
    case RangeFamily(_, fams) => fams == {tok.family}
    case ReadRows(_, _, _, _, fams) => fams == {tok.family}
    case WriteRows(_, _, _, fams) => fams == {tok.family}
    case Returned(Swept(fams)) => fams == {tok.family}
    case Returned(Invalid) => true
    case Returned(Failed) => true
    case _ => false
  }

  ghost predicate ReplaysAt(s: State, c: nat, i: Id)
  {
    && c in s.calls && i in s.world.log.created && !Active(s.world.kv, i)
    && Replays(s.calls[c], s.world.log.created[i])
  }

  lemma ReplayMove(cfg: Config, w: World, call: Call, pick: nat, gen: Token, tok: Token)
    requires Replays(call, tok) && Act(cfg, w, call, pick, gen).Effect?
    requires tok.hash in w.kv.byHash ==> w.kv.byHash[tok.hash] == tok.id
    requires tok.id in w.kv.rows ==> w.kv.rows[tok.id].row.revoked && w.kv.rows[tok.id].row.family == tok.family
    ensures Replays(Act(cfg, w, call, pick, gen).call, tok)
  {
  }

  lemma ReplayStep(cfg: Config, s: State, step: Step, t: State, c: nat, i: Id)
    requires RowsOk(s.world.kv, s.world.log) && HistoryOk(cfg, s.world) && HashesOk(s.world)
    requires Evolves(cfg, s.world, t.world) && Next(cfg, s, step, t)
    requires ReplaysAt(s, c, i)
    ensures ReplaysAt(t, c, i)
  {
    if step.Move? && step.c == c {
      var tok := s.world.log.created[i];
      assert TokenOk(cfg, s.world, i);
      if tok.hash in s.world.kv.byHash {
        assert EntryOk(s.world, tok.hash) && Apart(s.world.log, s.world.kv.byHash[tok.hash], i);
      }
      ReplayMove(cfg, s.world, s.calls[c], step.pick, step.gen, tok);
    }
  }

  lemma ReplayAt(cfg: Config, run: seq<State>, steps: seq<Step>, n: nat, c: nat, i: Id)
    requires cfg.ttl > 0 && IsRun(cfg, run, steps) && run[0] == START && n < |steps| && ReplaysAt(run[n], c, i)
    ensures ReplaysAt(run[n + 1], c, i)
  {
    RunKeeps(cfg, run, steps, n);
    RunHashes(cfg, run, steps, n);
    RunStep(cfg, run, steps, n);
    assert StepAt(cfg, run, steps, n);
    ReplayStep(cfg, run[n], steps[n], run[n + 1], c, i);
  }

  lemma {:induction false} ReplayRun(cfg: Config, run: seq<State>, steps: seq<Step>, m: nat, n: nat, c: nat, i: Id)
    requires cfg.ttl > 0 && IsRun(cfg, run, steps) && run[0] == START && m <= n < |run| && ReplaysAt(run[m], c, i)
    ensures ReplaysAt(run[n], c, i)
  {
    if m < n {
      ReplayRun(cfg, run, steps, m, n - 1, c, i);
      ReplayAt(cfg, run, steps, n - 1, c, i);
    }
  }

  /** A Refresh that presents a token revoked by then never wins a child. If it returns, it has failed, or found
      the token reaped, or burned the token's family: every token ever created in it is dead from then on. */
  lemma ReplayBurnsFamily(cfg: Config, run: seq<State>, steps: seq<Step>, m: nat, n: nat, later: nat, c: nat, i: Id)
    requires cfg.ttl > 0 && Timely(cfg) && IsRun(cfg, run, steps) && run[0] == START && m <= n <= later < |run|
    requires i in run[m].world.log.created && !Active(run[m].world.kv, i)
    requires c in run[m].calls && run[m].calls[c] == LookUp(run[m].world.log.created[i].hash)
    ensures c in run[n].calls && Won(run[n].calls[c]).None?
    ensures run[n].calls[c].Returned? ==>
              var f := run[m].world.log.created[i].family;
              || run[n].calls[c].outcome == Failed || run[n].calls[c].outcome == Invalid
              || (run[n].calls[c].outcome == Swept({f}) && Dead(run[later].world.kv, run[later].world.log, f))
  {
    ReplayRun(cfg, run, steps, m, n, c, i);
    RunEvolves(cfg, run, steps, m, n);
    var f := run[m].world.log.created[i].family;
    if run[n].calls[c] == Returned(Swept({f})) { BurnedFamilyIsDead(cfg, run, steps, n, later, c, {f}, f); }
  }

  // ------------------------------------------------------------------ logging one token out

  /** Where a Logout of a token that is still active can be. */
  predicate Ends(call: Call, tok: Token)
  {
    match call
    case LogoutLookUp(h) => h == tok.hash
    case LogoutFetch(id) => id == tok.id
    case ReadRevoke(id) => id == tok.id
    case PutRevoke(row) => row.id == tok.id && row.revoked
    case Returned(Failed) => true
    case _ => false
  }

  ghost predicate EndsAt(s: State, c: nat, i: Id)
  {
    && c in s.calls && i in s.world.log.created
    && (Active(s.world.kv, i) ==> Ends(s.calls[c], s.world.log.created[i]))
  }

  lemma EndMove(cfg: Config, w: World, call: Call, pick: nat, gen: Token, tok: Token)
    requires Ends(call, tok) && Act(cfg, w, call, pick, gen).Effect?
    requires Active(w.kv, tok.id) && w.kv.rows[tok.id].row.id == tok.id
    requires tok.hash in w.kv.byHash && w.kv.byHash[tok.hash] == tok.id
    ensures var e := Act(cfg, w, call, pick, gen); Active(e.kv, tok.id) ==> Ends(e.call, tok)
  {
  }

  lemma EndStep(cfg: Config, s: State, step: Step, t: State, c: nat, i: Id)
    requires RowsOk(s.world.kv, s.world.log) && HashesOk(s.world)
    requires Evolves(cfg, s.world, t.world) && Next(cfg, s, step, t)
    requires EndsAt(s, c, i)
    ensures EndsAt(t, c, i)
  {
    if Active(s.world.kv, i) && step.Move? && step.c == c {
      assert Indexed(s.world, i) && Known(s.world.log, s.world.kv.rows[i].row);
      EndMove(cfg, s.world, s.calls[c], step.pick, step.gen, s.world.log.created[i]);
    }
  }

  lemma EndAt(cfg: Config, run: seq<State>, steps: seq<Step>, n: nat, c: nat, i: Id)
    requires cfg.ttl > 0 && IsRun(cfg, run, steps) && run[0] == START && n < |steps| && EndsAt(run[n], c, i)
    ensures EndsAt(run[n + 1], c, i)
  {
    RunKeeps(cfg, run, steps, n);
    RunHashes(cfg, run, steps, n);
    RunStep(cfg, run, steps, n);
    assert StepAt(cfg, run, steps, n);
    EndStep(cfg, run[n], steps[n], run[n + 1], c, i);
  }

  lemma {:induction false} EndRun(cfg: Config, run: seq<State>, steps: seq<Step>, m: nat, n: nat, c: nat, i: Id)
    requires cfg.ttl > 0 && IsRun(cfg, run, steps) && run[0] == START && m <= n < |run| && EndsAt(run[m], c, i)
    ensures EndsAt(run[n], c, i)
  {
    if m < n {
      EndRun(cfg, run, steps, m, n - 1, c, i);
      EndAt(cfg, run, steps, n - 1, c, i);
    }
  }

  /** When Logout returns without an error, the token it presented is dead, then and at any later point. */
  lemma LogoutEndsToken(cfg: Config, run: seq<State>, steps: seq<Step>, m: nat, n: nat, later: nat, c: nat, i: Id)
    requires cfg.ttl > 0 && IsRun(cfg, run, steps) && run[0] == START && m <= n <= later < |run|
    requires i in run[m].world.log.created && c in run[m].calls
    requires run[m].calls[c] == LogoutLookUp(run[m].world.log.created[i].hash)
    requires c in run[n].calls && run[n].calls[c] == Returned(Revoked)
    ensures !Active(run[later].world.kv, i)
  {
    EndRun(cfg, run, steps, m, n, c, i);
    RevocationIsPermanent(cfg, run, steps, n, later, i);
  }
}
