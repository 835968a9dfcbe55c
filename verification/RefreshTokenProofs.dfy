/** What every step of the refresh-token protocol keeps, write by write and call by call. */
module RefreshTokenProofs {
  import opened Options
  import opened RefreshTokens

  /** How the shared state may change between two points of a run: tokens are never forgotten, an
      inactive token is never active again, a revision names one version of a row, families only grow
      at the end, and (if barriers land in time) a barred family does not grow at all. */
  ghost predicate Evolves(cfg: Config, s: World, t: World)
  {
    && s.now <= t.now && s.kv.rev <= t.kv.rev
    && (forall i :: i in s.log.created ==> i in t.log.created && t.log.created[i] == s.log.created[i])
    && (forall i :: i in s.log.created && Active(t.kv, i) ==> Active(s.kv, i))
    && (forall i :: i in t.kv.rows && t.kv.rows[i].rev <= s.kv.rev ==> i in s.kv.rows && s.kv.rows[i] == t.kv.rows[i])
    && (forall f :: f in s.log.barred ==> f in t.log.barred && t.log.barred[f] == s.log.barred[f])
    && (forall f :: f in t.log.barred && f !in s.log.barred ==> t.log.barred[f] >= s.now)
    && (forall f :: f in s.log.chains ==> f in t.log.chains && s.log.chains[f] <= t.log.chains[f])
    && (Timely(cfg) ==> forall f :: f in s.log.barred && f in s.log.chains ==> t.log.chains[f] == s.log.chains[f])
  }

  // ------------------------------------------------------------------ each write

  ghost predicate Fades(log: History, kv: Kv, kv': Kv)
  {
    forall i :: i in log.created && Active(kv', i) ==> Active(kv, i)
  }

  lemma ChainFades(log: History, kv: Kv, kv': Kv, f: Family)
    requires f in log.chains && ChainOk(kv, log, f) && Fades(log, kv, kv')
    ensures ChainOk(kv', log, f)
    ensures Dead(kv, log, f) ==> Dead(kv', log, f)
  {
  }

  /** A step that only lets tokens fade, leaving the log and the barriers alone. */
  lemma FadeKeeps(cfg: Config, s: World, t: World)
    requires HistoryOk(cfg, s) && BarriersOk(cfg, s) && Fades(s.log, s.kv, t.kv) && s.now <= t.now
    requires t.log == s.log && t.kv.barriers == s.kv.barriers
    ensures HistoryOk(cfg, t) && BarriersOk(cfg, t)
  {
    forall f | f in s.log.chains ensures ChainOk(t.kv, t.log, f) {
      assert ChainOk(s.kv, s.log, f);
      ChainFades(s.log, s.kv, t.kv, f);
    }
    forall i | i in t.log.created ensures TokenOk(cfg, t, i) { assert TokenOk(cfg, s, i); }
    forall f | f in t.log.barred ensures BarredOk(cfg, t, f) {
      assert BarredOk(cfg, s, f) && ChainOk(s.kv, s.log, f);
      ChainFades(s.log, s.kv, t.kv, f);
    }
  }

  lemma PutRows(kv: Kv, log: History, row: Token)
    requires RowsOk(kv, log) && Known(log, row) && (!row.revoked ==> Active(kv, row.id))
    ensures RowsOk(PutRow(kv, row), log) && Fades(log, kv, PutRow(kv, row))
  {
  }

  lemma PutKeeps(cfg: Config, s: World, row: Token, t: World)
    requires Good(cfg, s) && Known(s.log, row) && (!row.revoked ==> Active(s.kv, row.id))
    requires t == s.(kv := PutRow(s.kv, row))
    ensures Good(cfg, t) && Evolves(cfg, s, t)
  {
    PutRows(s.kv, s.log, row);
    FadeKeeps(cfg, s, t);
  }

  lemma DropRows(kv: Kv, log: History, tok: Token)
    requires RowsOk(kv, log) && Known(log, tok)
    ensures RowsOk(DropToken(kv, tok), log) && Fades(log, kv, DropToken(kv, tok)) && !Active(DropToken(kv, tok), tok.id)
  {
  }

  lemma DropKeeps(cfg: Config, s: World, tok: Token, t: World)
    requires Good(cfg, s) && Known(s.log, tok)
    requires t == s.(kv := DropToken(s.kv, tok))
    ensures Good(cfg, t) && Evolves(cfg, s, t) && !Active(t.kv, tok.id)
  {
    DropRows(s.kv, s.log, tok);
    FadeKeeps(cfg, s, t);
  }

  /** Writing or deleting a barrier touches no row. */
  lemma BarrierRows(cfg: Config, s: World, t: World)
    requires RowsOk(s.kv, s.log) && HistoryOk(cfg, s)
    requires t.now == s.now && t.kv == s.kv.(barriers := t.kv.barriers, rev := s.kv.rev + 1) &&
             t.log == s.log.(barred := t.log.barred)
    ensures RowsOk(t.kv, t.log) && HistoryOk(cfg, t)
  {
    assert forall i :: Active(t.kv, i) <==> Active(s.kv, i);
    forall i | i in t.log.created ensures TokenOk(cfg, t, i) { assert TokenOk(cfg, s, i); }
    forall g | g in s.log.chains ensures ChainOk(t.kv, t.log, g) { assert ChainOk(s.kv, s.log, g); }
  }

  lemma BarBarriers(cfg: Config, s: World, f: Family, at: Time, t: World)
    requires HistoryOk(cfg, s) && BarriersOk(cfg, s) && f in s.log.chains && at <= s.now <= at + cfg.gap
    requires t == s.(kv := s.kv.(barriers := s.kv.barriers[f := at + cfg.barrierTtl + SKEW], rev := s.kv.rev + 1),
                     log := if f in s.log.barred then s.log else s.log.(barred := s.log.barred[f := s.now]))
    ensures BarriersOk(cfg, t)
  {
    forall g | g in t.log.barred ensures BarredOk(cfg, t, g) {
      if g in s.log.barred {
        assert BarredOk(cfg, s, g);
      } else {
        forall k | 0 <= k < |t.log.chains[f]| && t.log.chains[f][k] in t.log.created
          ensures t.log.created[t.log.chains[f][k]].expires <= s.now + cfg.ttl
        {
          assert TokenOk(cfg, s, t.log.chains[f][k]);
        }
      }
    }
  }

  lemma BarKeeps(cfg: Config, s: World, f: Family, at: Time, t: World)
    requires Good(cfg, s) && f in s.log.chains && at <= s.now <= at + cfg.gap
    requires t == s.(kv := s.kv.(barriers := s.kv.barriers[f := at + cfg.barrierTtl + SKEW], rev := s.kv.rev + 1),
                     log := if f in s.log.barred then s.log else s.log.(barred := s.log.barred[f := s.now]))
    ensures Good(cfg, t) && Evolves(cfg, s, t)
  {
    BarrierRows(cfg, s, t);
    BarBarriers(cfg, s, f, at, t);
  }

  lemma UnbarKeeps(cfg: Config, s: World, f: Family, t: World)
    requires Good(cfg, s) && (Timely(cfg) ==> Dead(s.kv, s.log, f))
    requires t == s.(kv := s.kv.(barriers := s.kv.barriers - {f}, rev := s.kv.rev + 1))
    ensures Good(cfg, t) && Evolves(cfg, s, t)
  {
    BarrierRows(cfg, s, t);
    forall g | g in t.log.barred ensures BarredOk(cfg, t, g) { assert BarredOk(cfg, s, g); }
  }

  lemma LoginRows(kv: Kv, log: History, row: Token)
    requires RowsOk(kv, log) && row.id !in log.created && row == Core(row)
    ensures RowsOk(Insert(kv, row), LogLogin(log, row)) && Fades(log, kv, Insert(kv, row))
  {
  }

  lemma LoginHistory(cfg: Config, s: World, row: Token, t: World)
    requires HistoryOk(cfg, s) && CanLogin(cfg, s, row) && Fades(s.log, s.kv, t.kv)
    requires t == World(s.now, Insert(s.kv, row), LogLogin(s.log, row))
    ensures HistoryOk(cfg, t)
  {
    forall i | i in t.log.created ensures TokenOk(cfg, t, i) {
      if i != row.id { assert TokenOk(cfg, s, i); }
    }
    forall f | f in t.log.chains ensures ChainOk(t.kv, t.log, f) {
      if f != row.family { assert ChainOk(s.kv, s.log, f); }
    }
  }

  lemma LoginKeeps(cfg: Config, s: World, row: Token, t: World)
    requires Good(cfg, s) && CanLogin(cfg, s, row) && t == World(s.now, Insert(s.kv, row), LogLogin(s.log, row))
    ensures Good(cfg, t) && Evolves(cfg, s, t)
  {
    LoginRows(s.kv, s.log, row);
    LoginHistory(cfg, s, row, t);
    forall f | f in t.log.barred ensures BarredOk(cfg, t, f) {
      assert BarredOk(cfg, s, f) && ChainOk(s.kv, s.log, f);
    }
  }

  /** The token a rotation spends is the last of its family's chain. */
  lemma ParentIsLast(cfg: Config, s: World, parent: Token)
    requires HistoryOk(cfg, s) && Known(s.log, parent) && Active(s.kv, parent.id)
    ensures parent.family in s.log.chains
    ensures var ch := s.log.chains[parent.family]; |ch| > 0 && ch[|ch| - 1] == parent.id
  {
    assert TokenOk(cfg, s, parent.id);
    assert ChainOk(s.kv, s.log, parent.family);
    var ch := s.log.chains[parent.family];
    var k :| 0 <= k < |ch| && ch[k] == parent.id;
  }

  ghost predicate CanRotate(cfg: Config, s: World, parent: Token, child: Token)
  {
    && Known(s.log, parent) && GoodChild(s.now, cfg, parent, child)
    && Active(s.kv, parent.id) && s.kv.rows[parent.id].row == parent && parent.family !in s.kv.barriers
    && Fresh(s.log, child) && child.family in s.log.chains
  }

  lemma RotateRows(cfg: Config, s: World, parent: Token, child: Token)
    requires RowsOk(s.kv, s.log) && CanRotate(cfg, s, parent, child)
    ensures RowsOk(RotateTxn(s.kv, parent, child), LogRotate(s.log, child))
  {
  }

  lemma RotateFades(cfg: Config, s: World, parent: Token, child: Token)
    requires CanRotate(cfg, s, parent, child)
    ensures Fades(s.log, s.kv, RotateTxn(s.kv, parent, child)) && !Active(RotateTxn(s.kv, parent, child), parent.id)
  {
  }

  lemma RotateChain(cfg: Config, s: World, parent: Token, child: Token)
    requires HistoryOk(cfg, s) && CanRotate(cfg, s, parent, child)
    ensures ChainOk(RotateTxn(s.kv, parent, child), LogRotate(s.log, child), child.family)
  {
    RotateFades(cfg, s, parent, child);
    ParentIsLast(cfg, s, parent);
    assert ChainOk(s.kv, s.log, child.family);
  }

  lemma OtherChain(cfg: Config, s: World, parent: Token, child: Token, f: Family)
    requires CanRotate(cfg, s, parent, child) && f in s.log.chains && f != child.family && ChainOk(s.kv, s.log, f)
    ensures ChainOk(RotateTxn(s.kv, parent, child), LogRotate(s.log, child), f)
    ensures Dead(s.kv, s.log, f) ==> Dead(RotateTxn(s.kv, parent, child), LogRotate(s.log, child), f)
  {
    RotateFades(cfg, s, parent, child);
  }

  lemma RotateHistory(cfg: Config, s: World, parent: Token, child: Token, t: World)
    requires HistoryOk(cfg, s) && CanRotate(cfg, s, parent, child)
    requires t == s.(kv := RotateTxn(s.kv, parent, child), log := LogRotate(s.log, child))
    ensures HistoryOk(cfg, t)
  {
    forall i | i in t.log.created ensures TokenOk(cfg, t, i) {
      if i != child.id { assert TokenOk(cfg, s, i); }
    }
    forall f | f in t.log.chains ensures ChainOk(t.kv, t.log, f) {
      assert ChainOk(s.kv, s.log, f);
      if f == child.family { RotateChain(cfg, s, parent, child); } else { OtherChain(cfg, s, parent, child, f); }
    }
  }

  /** A rotation that commits is not in a barred family: the barrier is there, or nobody is left to rotate. */
  lemma RotateUnbarred(cfg: Config, s: World, parent: Token, child: Token)
    requires HistoryOk(cfg, s) && BarriersOk(cfg, s) && Timely(cfg) && CanRotate(cfg, s, parent, child)
    ensures parent.family !in s.log.barred
  {
    ParentIsLast(cfg, s, parent);
    assert parent.family in s.log.barred ==> BarredOk(cfg, s, parent.family);
  }

  lemma RotateBarriers(cfg: Config, s: World, parent: Token, child: Token, t: World)
    requires HistoryOk(cfg, s) && BarriersOk(cfg, s) && CanRotate(cfg, s, parent, child)
    requires t == s.(kv := RotateTxn(s.kv, parent, child), log := LogRotate(s.log, child))
    ensures BarriersOk(cfg, t)
  {
    if Timely(cfg) { RotateUnbarred(cfg, s, parent, child); }
    forall f | f in t.log.barred ensures BarredOk(cfg, t, f) {
      assert BarredOk(cfg, s, f) && ChainOk(s.kv, s.log, f);
      if Timely(cfg) { OtherChain(cfg, s, parent, child, f); }
    }
  }

  lemma RotateKeeps(cfg: Config, s: World, parent: Token, child: Token, t: World)
    requires Good(cfg, s) && CanRotate(cfg, s, parent, child)
    requires t == s.(kv := RotateTxn(s.kv, parent, child), log := LogRotate(s.log, child))
    ensures Good(cfg, t) && Evolves(cfg, s, t)
  {
    RotateRows(cfg, s, parent, child);
    RotateHistory(cfg, s, parent, child, t);
    RotateBarriers(cfg, s, parent, child, t);
    RotateFades(cfg, s, parent, child);
    if Timely(cfg) { RotateUnbarred(cfg, s, parent, child); }
  }

  // ------------------------------------------------------------------ calls under interference

  lemma DeadUnlessStays(cfg: Config, s: World, t: World, families: set<Family>, pending: set<Family>)
    requires HistoryOk(cfg, s) && Evolves(cfg, s, t) && DeadUnless(cfg, s, families, pending)
    ensures DeadUnless(cfg, t, families, pending)
  {
    if Timely(cfg) {
      forall f | f in families && f !in pending ensures Dead(t.kv, t.log, f) {
        assert Dead(s.kv, s.log, f) && ChainOk(s.kv, s.log, f);
      }
    }
  }

  lemma CoveredStays(cfg: Config, s: World, t: World, f: Family, ids: set<Id>)
    requires HistoryOk(cfg, s) && Evolves(cfg, s, t) && Timely(cfg) && f in s.log.barred &&
             CoveredBy(s.kv, s.log, f, ids)
    ensures CoveredBy(t.kv, t.log, f, ids)
  {
    assert ChainOk(s.kv, s.log, f);
  }

  lemma CleanupStays(cfg: Config, s: World, t: World, cutoff: Time, tokens: map<Id, Token>)
    requires cfg.ttl > 0 && HistoryOk(cfg, s) && Evolves(cfg, s, t) && CallOk(cfg, s, RangeBarriers(cutoff, tokens))
    ensures CallOk(cfg, t, RangeBarriers(cutoff, tokens))
  {
    if Timely(cfg) {
      forall f | f in t.log.barred && t.log.barred[f] + cfg.ttl < cutoff
        ensures CoveredBy(t.kv, t.log, f, tokens.Keys)
      {
        CoveredStays(cfg, s, t, f, tokens.Keys);
      }
    }
  }

  /** What a call knows is still so after any step of another call. */
  lemma CallStays(cfg: Config, s: World, t: World, call: Call)
    requires cfg.ttl > 0 && HistoryOk(cfg, s) && Evolves(cfg, s, t) && CallOk(cfg, s, call)
    ensures CallOk(cfg, t, call)
  {
    match call
    case RangeFamily(toSweep, fams) => DeadUnlessStays(cfg, s, t, fams, toSweep);
    case ReadRows(f, toRead, writes, toSweep, fams) =>
      DeadUnlessStays(cfg, s, t, fams, toSweep + {f});
      if Timely(cfg) { CoveredStays(cfg, s, t, f, toRead + writes.Keys); }
    case WriteRows(f, writes, toSweep, fams) =>
      DeadUnlessStays(cfg, s, t, fams, toSweep + {f});
      if Timely(cfg) { CoveredStays(cfg, s, t, f, writes.Keys); }
    case RangeBarriers(cutoff, tokens) => CleanupStays(cfg, s, t, cutoff, tokens);
    case Delete(tokens, bars) =>
      if Timely(cfg) {
        forall f | f in bars ensures CoveredBy(t.kv, t.log, f, tokens.Keys) { CoveredStays(cfg, s, t, f, tokens.Keys); }
      }
    case Returned(Swept(fams)) => DeadUnlessStays(cfg, s, t, fams, {});
    case _ =>
  }

  // ------------------------------------------------------------------ one call's own steps

  lemma FamilyKnown(cfg: Config, s: World, row: Token)
    requires HistoryOk(cfg, s) && Known(s.log, row)
    ensures row.family in s.log.chains
  {
    assert TokenOk(cfg, s, row.id);
  }

  /** A sweep that ranges the family index after the barrier sees every active token of the family. */
  lemma RangeCovers(cfg: Config, s: World, f: Family)
    requires RowsOk(s.kv, s.log) && HistoryOk(cfg, s) && f in s.log.chains
    ensures CoveredBy(s.kv, s.log, f, FamilyTokens(s.kv, f))
  {
    var ids := FamilyTokens(s.kv, f);
    assert ChainOk(s.kv, s.log, f);
    var ch := s.log.chains[f];
    forall k | 0 <= k < |ch| && Active(s.kv, ch[k]) ensures ch[k] in ids {
      assert (f, ch[k]) in s.kv.byFamily;
    }
  }

  /** A cleanup pass that ranges the rows collects every active token of each family whose barrier it may reap. */
  lemma CleanupCovers(cfg: Config, s: World, cutoff: Time, f: Family)
    requires RowsOk(s.kv, s.log) && HistoryOk(cfg, s) && BarriersOk(cfg, s) && Timely(cfg)
    requires f in s.log.barred && s.log.barred[f] + cfg.ttl < cutoff
    ensures CoveredBy(s.kv, s.log, f, ExpiredTokens(s.kv, cutoff).Keys)
  {
    assert BarredOk(cfg, s, f) && ChainOk(s.kv, s.log, f);
  }

  lemma RefreshReads(cfg: Config, s: World, call: Call, pick: nat, gen: Token)
    requires RowsOk(s.kv, s.log) && HistoryOk(cfg, s) && CallOk(cfg, s, call) && Act(cfg, s, call, pick, gen).Effect?
    requires call.LookUp? || call.Fetch? || call.FindUser? || call.ReadParent? || call.ReadTouch?
    ensures var e := Act(cfg, s, call, pick, gen); e.kv == s.kv && e.log == s.log && CallOk(cfg, s, e.call)
  {
    match call
    case Fetch(id) => if id in s.kv.rows { FamilyKnown(cfg, s, s.kv.rows[id].row); }
    case ReadParent(row, child) => FamilyKnown(cfg, s, row);
    case _ =>
  }

  lemma LogoutReads(cfg: Config, s: World, call: Call, pick: nat, gen: Token)
    requires RowsOk(s.kv, s.log) && HistoryOk(cfg, s) && CallOk(cfg, s, call) && Act(cfg, s, call, pick, gen).Effect?
    requires call.LogoutLookUp? || call.LogoutFetch? || call.ReadRevoke? || call.RangeUser? || call.ReadFamilies? ||
             call.Bar?
    ensures var e := Act(cfg, s, call, pick, gen); e.kv == s.kv && e.log == s.log && CallOk(cfg, s, e.call)
  {
    match call
    case ReadFamilies(toRead, fams) => if pick in s.kv.rows { FamilyKnown(cfg, s, s.kv.rows[pick].row); }
    case _ =>
  }

  lemma SweepReads(cfg: Config, s: World, call: Call, pick: nat, gen: Token)
    requires Good(cfg, s) && CallOk(cfg, s, call) && Act(cfg, s, call, pick, gen).Effect?
    requires call.RangeFamily? || call.ReadRows? || (call.WriteRows? && call.writes == map[])
    ensures var e := Act(cfg, s, call, pick, gen); e.kv == s.kv && e.log == s.log && CallOk(cfg, s, e.call)
  {
    match call
    case RangeFamily(toSweep, fams) =>
      if toSweep != {} {
        RangeCovers(cfg, s, pick);
        var ids := FamilyTokens(s.kv, pick);
        var none: map<Id, Token> := map[];
        assert ids + none.Keys == ids;
        assert toSweep - {pick} + {pick} == toSweep;
      }
    case ReadRows(f, toRead, writes, toSweep, fams) =>
      if toRead == {} {
        assert toRead + writes.Keys == writes.Keys;
      }
    case WriteRows(f, writes, toSweep, fams) =>
  }

  /** Once the last revocation of a family is written, the family is dead. */
  lemma SweepWrites(cfg: Config, s: World, call: Call, pick: nat, gen: Token)
    requires cfg.ttl > 0 && Good(cfg, s) && CallOk(cfg, s, call) && call.WriteRows? && pick in call.writes
    ensures var e := Act(cfg, s, call, pick, gen); var t := World(s.now, e.kv, e.log);
            Good(cfg, t) && Evolves(cfg, s, t) && CallOk(cfg, t, e.call)
  {
    var e := Act(cfg, s, call, pick, gen);
    var t := World(s.now, e.kv, e.log);
    PutKeeps(cfg, s, call.writes[pick], t);
    CallStays(cfg, s, t, call);
  }

  lemma CleanupReads(cfg: Config, s: World, call: Call, pick: nat, gen: Token)
    requires Good(cfg, s) && CallOk(cfg, s, call) && Act(cfg, s, call, pick, gen).Effect?
    requires call.RangeExpired? || call.RangeBarriers? || (call.Delete? && call.tokens == map[] && call.bars == {})
    ensures var e := Act(cfg, s, call, pick, gen); e.kv == s.kv && e.log == s.log && CallOk(cfg, s, e.call)
  {
    match call
    case RangeExpired(cutoff) =>
      var tokens := ExpiredTokens(s.kv, cutoff);
      if Timely(cfg) {
        forall f | f in s.log.barred && s.log.barred[f] + cfg.ttl < cutoff
          ensures CoveredBy(s.kv, s.log, f, tokens.Keys)
        {
          CleanupCovers(cfg, s, cutoff, f);
        }
      }
    case RangeBarriers(cutoff, tokens) =>
      if Timely(cfg) {
        forall f | f in s.kv.barriers && s.kv.barriers[f] < cutoff ensures CoveredBy(s.kv, s.log, f, tokens.Keys) {
          assert BarredOk(cfg, s, f);
        }
      }
    case Delete(_, _) =>
  }

  lemma CleanupWrites(cfg: Config, s: World, call: Call, pick: nat, gen: Token)
    requires cfg.ttl > 0 && Good(cfg, s) && CallOk(cfg, s, call) && Act(cfg, s, call, pick, gen).Effect?
    requires call.Delete? && (call.tokens != map[] || call.bars != {})
    ensures var e := Act(cfg, s, call, pick, gen); var t := World(s.now, e.kv, e.log);
            Good(cfg, t) && Evolves(cfg, s, t) && CallOk(cfg, t, e.call)
  {
    var e := Act(cfg, s, call, pick, gen);
    var t := World(s.now, e.kv, e.log);
    if call.tokens != map[] {
      DropKeeps(cfg, s, call.tokens[pick], t);
    } else {
      UnbarKeeps(cfg, s, pick, t);
    }
    CallStays(cfg, s, t, call);
  }

  lemma RefreshWrites(cfg: Config, s: World, call: Call, pick: nat, gen: Token)
    requires cfg.ttl > 0 && Good(cfg, s) && CallOk(cfg, s, call) && Act(cfg, s, call, pick, gen).Effect?
    requires call.CommitRotate? || call.CommitTouch? || call.PutRevoke?
    ensures var e := Act(cfg, s, call, pick, gen); var t := World(s.now, e.kv, e.log);
            Good(cfg, t) && Evolves(cfg, s, t) && CallOk(cfg, t, e.call)
  {
    var e := Act(cfg, s, call, pick, gen);
    var t := World(s.now, e.kv, e.log);
    match call
    case CommitRotate(parent, rev, child) =>
      FamilyKnown(cfg, s, parent);
      if AtRevision(s.kv, parent.id, rev) && parent.family !in s.kv.barriers { RotateKeeps(cfg, s, parent, child, t); }
    case CommitTouch(row, rev, attempts, pair) =>
      if AtRevision(s.kv, row.id, rev) { PutKeeps(cfg, s, row, t); }
    case PutRevoke(row) => PutKeeps(cfg, s, row, t);
  }

  lemma BarrierWrites(cfg: Config, s: World, call: Call, pick: nat, gen: Token)
    requires Good(cfg, s) && CallOk(cfg, s, call) && Act(cfg, s, call, pick, gen).Effect? && call.PutBarrier?
    ensures var e := Act(cfg, s, call, pick, gen); var t := World(s.now, e.kv, e.log);
            Good(cfg, t) && Evolves(cfg, s, t) && CallOk(cfg, t, e.call)
  {
    var e := Act(cfg, s, call, pick, gen);
    BarKeeps(cfg, s, call.f, call.at, World(s.now, e.kv, e.log));
  }

  lemma MoveKeeps(cfg: Config, s: World, call: Call, pick: nat, gen: Token)
    requires cfg.ttl > 0 && Good(cfg, s) && CallOk(cfg, s, call) && Act(cfg, s, call, pick, gen).Effect?
    ensures var e := Act(cfg, s, call, pick, gen); var t := World(s.now, e.kv, e.log);
            Good(cfg, t) && Evolves(cfg, s, t) && CallOk(cfg, t, e.call)
  {
    if call.LookUp? || call.Fetch? || call.FindUser? || call.ReadParent? || call.ReadTouch? {
      RefreshReads(cfg, s, call, pick, gen);
    } else if call.CommitRotate? || call.CommitTouch? || call.PutRevoke? {
      RefreshWrites(cfg, s, call, pick, gen);
    } else if call.PutBarrier? {
      BarrierWrites(cfg, s, call, pick, gen);
    } else if call.RangeFamily? || call.ReadRows? || (call.WriteRows? && call.writes == map[]) {
      SweepReads(cfg, s, call, pick, gen);
    } else if call.WriteRows? {
      SweepWrites(cfg, s, call, pick, gen);
    } else if call.RangeExpired? || call.RangeBarriers? || (call.Delete? && call.tokens == map[] && call.bars == {}) {
      CleanupReads(cfg, s, call, pick, gen);
    } else if call.Delete? {
      CleanupWrites(cfg, s, call, pick, gen);
    } else {
      LogoutReads(cfg, s, call, pick, gen);
    }
  }
}
