/**
 Why a barrier must land in time: whenever it may land so late that a token issued just before outlives
 it, there is a run in which a burn completes and a token of the burned family is active afterwards.
 Together with `BurnIsFinal` this makes the bound exact.
 */
module RefreshTokenLateBarrier {
  import opened Options
  import opened RefreshTokens
  import opened RefreshTokenTheorems

  /** A barrier can land so late that it expires before a token issued just before it landed. */
  predicate Loose(cfg: Config)
  {
    cfg.ttl > 0 && cfg.barrierTtl > 0 && cfg.gap >= 0 && cfg.gap + cfg.ttl > cfg.barrierTtl + SKEW
  }

  // ------------------------------------------------------------------ the run

  function T0(cfg: Config): Token { Token(0, 0, 0, 0, None, 1, false, None) }
  function T1(cfg: Config): Token { Token(1, 0, 1, 0, Some(0), cfg.gap + cfg.ttl, false, None) }
  function T2(cfg: Config): Token { Token(2, 0, 2, 0, Some(1), Late(cfg) + cfg.ttl, false, None) }

  /** An instant past the barrier's expiry at which the newest token has not expired yet. */
  function Late(cfg: Config): Time
  {
    if cfg.gap < cfg.barrierTtl + SKEW + 1 then cfg.barrierTtl + SKEW + 1 else cfg.gap
  }

  function Revoke(t: Token): Token { t.(revoked := true) }

  function LoggedIn(cfg: Config): World
  {
    World(0, Kv(map[0 := Versioned(T0(cfg), 1)], map[0 := 0], {(0, 0)}, {(0, 0)}, map[], 1),
          History(map[0 := T0(cfg)], map[0 := [0]], map[]))
  }

  lemma ToLoggedIn(cfg: Config)
    requires cfg.ttl > 0
    ensures Reaches(cfg, START, State(LoggedIn(cfg), map[]))
  {
    ReachesSelf(cfg, START);
    var w := World(0, Insert(START.world.kv, T0(cfg)), LogLogin(START.world.log, T0(cfg)));
    ReachesOn(cfg, START, START, Login(T0(cfg)), State(w, map[]));
    assert w == LoggedIn(cfg);
  }

  lemma ToFamilies(cfg: Config)
    requires cfg.ttl > 0
    ensures Reaches(cfg, START, State(LoggedIn(cfg), map[0 := ReadFamilies({}, {0})]))
  {
    var t0, w := T0(cfg), LoggedIn(cfg);
    ToLoggedIn(cfg);
    Starts(cfg, START, w, map[], 0, RangeUser(0), map[0 := RangeUser(0)]);
    assert UserTokens(w.kv, 0) == {0};
    Moves(cfg, START, w, map[0 := RangeUser(0)], 0, 0, t0, w, ReadFamilies({0}, {}), map[0 := ReadFamilies({0}, {})]);
    assert {0} - {0} == {} && {} + {0} == {0};
    Moves(cfg, START, w, map[0 := ReadFamilies({0}, {})], 0, 0, t0, w, ReadFamilies({}, {0}),
          map[0 := ReadFamilies({}, {0})]);
  }

  /** Logout-all has stamped its barrier at time 0 but not written it. */
  const STAMPED := PutBarrier(0, 0, {}, {0})

  lemma ToStamped(cfg: Config)
    requires cfg.ttl > 0
    ensures Reaches(cfg, START, State(LoggedIn(cfg), map[0 := STAMPED]))
  {
    var t0, w := T0(cfg), LoggedIn(cfg);
    ToFamilies(cfg);
    Moves(cfg, START, w, map[0 := ReadFamilies({}, {0})], 0, 0, t0, w, Bar({0}, {0}), map[0 := Bar({0}, {0})]);
    assert {0} - {0} == {};
    Moves(cfg, START, w, map[0 := Bar({0}, {0})], 0, 0, t0, w, STAMPED, map[0 := STAMPED]);
  }

  /** A refresh presents the first token at time 0 and stalls until time `gap`. */
  lemma ToChecked(cfg: Config)
    requires cfg.ttl > 0 && cfg.gap >= 0
    ensures Reaches(cfg, START, State(LoggedIn(cfg).(now := cfg.gap), map[0 := STAMPED, 1 := FindUser(T0(cfg))]))
  {
    var t0, w := T0(cfg), LoggedIn(cfg);
    ToStamped(cfg);
    Starts(cfg, START, w, map[0 := STAMPED], 1, LookUp(0), map[0 := STAMPED, 1 := LookUp(0)]);
    Moves(cfg, START, w, map[0 := STAMPED, 1 := LookUp(0)], 1, 0, t0, w, Fetch(0), map[0 := STAMPED, 1 := Fetch(0)]);
    Moves(cfg, START, w, map[0 := STAMPED, 1 := Fetch(0)], 1, 0, t0, w, FindUser(t0),
          map[0 := STAMPED, 1 := FindUser(t0)]);
    ReachesOn(cfg, START, State(w, map[0 := STAMPED, 1 := FindUser(t0)]), Tick(cfg.gap),
              State(w.(now := cfg.gap), map[0 := STAMPED, 1 := FindUser(t0)]));
  }

  function Rotated1(cfg: Config): World
  {
    World(cfg.gap, Kv(map[0 := Versioned(Revoke(T0(cfg)), 2), 1 := Versioned(T1(cfg), 2)], map[0 := 0, 1 := 1],
                      {(0, 0), (0, 1)}, {(0, 0), (0, 1)}, map[], 2),
          History(map[0 := T0(cfg), 1 := T1(cfg)], map[0 := [0, 1]], map[]))
  }

  lemma ToRotated(cfg: Config)
    requires cfg.ttl > 0 && cfg.gap >= 0
    ensures Reaches(cfg, START, State(Rotated1(cfg), map[0 := STAMPED, 1 := ReadTouch(0, 5, T1(cfg))]))
  {
    var t0, t1, w := T0(cfg), T1(cfg), LoggedIn(cfg).(now := cfg.gap);
    ToChecked(cfg);
    Moves(cfg, START, w, map[0 := STAMPED, 1 := FindUser(t0)], 1, 1, t1, w, ReadParent(t0, t1),
          map[0 := STAMPED, 1 := ReadParent(t0, t1)]);
    Moves(cfg, START, w, map[0 := STAMPED, 1 := ReadParent(t0, t1)], 1, 0, t1, w, CommitRotate(t0, 1, t1),
          map[0 := STAMPED, 1 := CommitRotate(t0, 1, t1)]);
    assert RotateTxn(w.kv, t0, t1) == Rotated1(cfg).kv;
    assert [0] + [1] == [0, 1];
    assert LogRotate(w.log, t1) == Rotated1(cfg).log;
    Moves(cfg, START, w, map[0 := STAMPED, 1 := CommitRotate(t0, 1, t1)], 1, 0, t1, Rotated1(cfg), ReadTouch(0, 5, t1),
          map[0 := STAMPED, 1 := ReadTouch(0, 5, t1)]);
  }

  /** The late barrier lands, and the clock moves past its expiry. */
  function Barred(cfg: Config): World
  {
    var w := Rotated1(cfg);
    World(Late(cfg), w.kv.(barriers := map[0 := cfg.barrierTtl + SKEW], rev := 3), w.log.(barred := map[0 := cfg.gap]))
  }

  lemma ToBarred(cfg: Config)
    requires cfg.ttl > 0 && cfg.gap >= 0
    ensures Reaches(cfg, START, State(Barred(cfg), map[0 := Bar({}, {0}), 1 := ReadTouch(0, 5, T1(cfg))]))
  {
    var w, touch := Rotated1(cfg), ReadTouch(0, 5, T1(cfg));
    ToRotated(cfg);
    Moves(cfg, START, w, map[0 := STAMPED, 1 := touch], 0, 0, T1(cfg), Barred(cfg).(now := cfg.gap), Bar({}, {0}),
          map[0 := Bar({}, {0}), 1 := touch]);
    ReachesOn(cfg, START, State(Barred(cfg).(now := cfg.gap), map[0 := Bar({}, {0}), 1 := touch]), Tick(Late(cfg)),
              State(Barred(cfg), map[0 := Bar({}, {0}), 1 := touch]));
  }

  lemma ToExpired(cfg: Config)
    requires Loose(cfg)
    ensures Reaches(cfg, START,
                    State(Barred(cfg), map[0 := Bar({}, {0}), 1 := ReadTouch(0, 5, T1(cfg)),
                                           2 := RangeBarriers(Late(cfg), map[0 := Revoke(T0(cfg))])]))
  {
    var w, touch, bar := Barred(cfg), ReadTouch(0, 5, T1(cfg)), Bar({}, {0});
    var gone := map[0 := Revoke(T0(cfg))];
    ToBarred(cfg);
    Starts(cfg, START, w, map[0 := bar, 1 := touch], 2, RangeExpired(Late(cfg)),
           map[0 := bar, 1 := touch, 2 := RangeExpired(Late(cfg))]);
    assert ExpiredTokens(w.kv, Late(cfg)) == gone;
    Moves(cfg, START, w, map[0 := bar, 1 := touch, 2 := RangeExpired(Late(cfg))], 2, 0, T1(cfg), w,
          RangeBarriers(Late(cfg), gone),
          map[0 := bar, 1 := touch, 2 := RangeBarriers(Late(cfg), gone)]);
  }

  lemma ToRanged(cfg: Config)
    requires Loose(cfg)
    ensures Reaches(cfg, START,
                    State(Barred(cfg), map[0 := Bar({}, {0}), 1 := ReadTouch(0, 5, T1(cfg)),
                                           2 := Delete(map[0 := Revoke(T0(cfg))], {0})]))
  {
    var w, touch, bar := Barred(cfg), ReadTouch(0, 5, T1(cfg)), Bar({}, {0});
    var gone := map[0 := Revoke(T0(cfg))];
    ToExpired(cfg);
    assert ExpiredBarriers(w.kv, Late(cfg)) == {0};
    Moves(cfg, START, w, map[0 := bar, 1 := touch, 2 := RangeBarriers(Late(cfg), gone)], 2, 0, T1(cfg), w,
          Delete(gone, {0}),
          map[0 := bar, 1 := touch, 2 := Delete(gone, {0})]);
  }

  /** The cleanup has reaped the spent token and the barrier; the live token has not expired. */
  function Reaped(cfg: Config): World
  {
    World(Late(cfg), Kv(map[1 := Versioned(T1(cfg), 2)], map[1 := 1], {(0, 1)}, {(0, 1)}, map[], 5), Barred(cfg).log)
  }

  lemma ToReaped(cfg: Config)
    requires Loose(cfg)
    ensures Reaches(cfg, START,
                    State(Reaped(cfg), map[0 := Bar({}, {0}), 1 := ReadTouch(0, 5, T1(cfg)), 2 := Delete(map[], {})]))
  {
    var w, touch, bar := Barred(cfg), ReadTouch(0, 5, T1(cfg)), Bar({}, {0});
    var gone := map[0 := Revoke(T0(cfg))];
    var none: map<Id, Token> := map[];
    ToRanged(cfg);
    var mid := Reaped(cfg).(kv := Reaped(cfg).kv.(barriers := w.kv.barriers, rev := 4));
    assert DropToken(w.kv, gone[0]) == mid.kv;
    assert gone - {0} == none;
    Moves(cfg, START, w, map[0 := bar, 1 := touch, 2 := Delete(gone, {0})], 2, 0, T1(cfg), mid, Delete(none, {0}),
          map[0 := bar, 1 := touch, 2 := Delete(none, {0})]);
    assert mid.kv.barriers - {0} == map[] && {0} - {0} == {};
    Moves(cfg, START, mid, map[0 := bar, 1 := touch, 2 := Delete(none, {0})], 2, 0, T1(cfg), Reaped(cfg),
          Delete(none, {}), map[0 := bar, 1 := touch, 2 := Delete(none, {})]);
  }

  /** The calls other than the burn, which no longer move. */
  function Calls(cfg: Config, burn: Call): map<nat, Call>
  {
    map[0 := burn, 1 := ReadTouch(0, 5, T1(cfg)), 2 := Delete(map[], {})]
  }

  function Writes(cfg: Config): map<Id, Token> { map[1 := Revoke(T1(cfg))] }

  lemma ToBurning(cfg: Config)
    requires Loose(cfg)
    ensures Reaches(cfg, START, State(Reaped(cfg), Calls(cfg, RangeFamily({0}, {0}))))
  {
    var w, t1 := Reaped(cfg), T1(cfg);
    ToReaped(cfg);
    Moves(cfg, START, w, Calls(cfg, Bar({}, {0})), 0, 0, t1, w, RangeFamily({0}, {0}),
          Calls(cfg, RangeFamily({0}, {0})));
  }

  lemma ToRangedFamily(cfg: Config)
    requires Loose(cfg)
    ensures Reaches(cfg, START, State(Reaped(cfg), Calls(cfg, ReadRows(0, {1}, map[], {}, {0}))))
  {
    var w, t1 := Reaped(cfg), T1(cfg);
    ToBurning(cfg);
    assert FamilyTokens(w.kv, 0) == {1};
    assert {0} - {0} == {};
    Moves(cfg, START, w, Calls(cfg, RangeFamily({0}, {0})), 0, 0, t1, w, ReadRows(0, {1}, map[], {}, {0}),
          Calls(cfg, ReadRows(0, {1}, map[], {}, {0})));
  }

  lemma ToSwept(cfg: Config)
    requires Loose(cfg)
    ensures Reaches(cfg, START, State(Reaped(cfg), Calls(cfg, WriteRows(0, Writes(cfg), {}, {0}))))
  {
    var w, t1 := Reaped(cfg), T1(cfg);
    ToRangedFamily(cfg);
    assert {1} - {1} == {};
    Moves(cfg, START, w, Calls(cfg, ReadRows(0, {1}, map[], {}, {0})), 0, 1, t1, w,
          ReadRows(0, {}, Writes(cfg), {}, {0}), Calls(cfg, ReadRows(0, {}, Writes(cfg), {}, {0})));
    Moves(cfg, START, w, Calls(cfg, ReadRows(0, {}, Writes(cfg), {}, {0})), 0, 0, t1, w,
          WriteRows(0, Writes(cfg), {}, {0}), Calls(cfg, WriteRows(0, Writes(cfg), {}, {0})));
  }

  function Sweeping(cfg: Config, refresh: Call): map<nat, Call>
  {
    Calls(cfg, WriteRows(0, Writes(cfg), {}, {0}))[3 := refresh]
  }

  /** Between the sweep's reads and its writes, the live token is rotated. */
  lemma ToSecondCommit(cfg: Config)
    requires Loose(cfg)
    ensures Reaches(cfg, START, State(Reaped(cfg), Sweeping(cfg, CommitRotate(T1(cfg), 2, T2(cfg)))))
  {
    var w, t1, t2 := Reaped(cfg), T1(cfg), T2(cfg);
    ToSwept(cfg);
    Starts(cfg, START, w, Calls(cfg, WriteRows(0, Writes(cfg), {}, {0})), 3, LookUp(1), Sweeping(cfg, LookUp(1)));
    Moves(cfg, START, w, Sweeping(cfg, LookUp(1)), 3, 0, t2, w, Fetch(1), Sweeping(cfg, Fetch(1)));
    Moves(cfg, START, w, Sweeping(cfg, Fetch(1)), 3, 0, t2, w, FindUser(t1), Sweeping(cfg, FindUser(t1)));
    Moves(cfg, START, w, Sweeping(cfg, FindUser(t1)), 3, 1, t2, w, ReadParent(t1, t2),
          Sweeping(cfg, ReadParent(t1, t2)));
    Moves(cfg, START, w, Sweeping(cfg, ReadParent(t1, t2)), 3, 0, t2, w, CommitRotate(t1, 2, t2),
          Sweeping(cfg, CommitRotate(t1, 2, t2)));
  }

  function Rotated2(cfg: Config, rev: nat): World
  {
    World(Late(cfg), Kv(map[1 := Versioned(Revoke(T1(cfg)), rev), 2 := Versioned(T2(cfg), 6)], map[1 := 1, 2 := 2],
                        {(0, 1), (0, 2)}, {(0, 1), (0, 2)}, map[], rev),
          History(map[0 := T0(cfg), 1 := T1(cfg), 2 := T2(cfg)], map[0 := [0, 1, 2]], map[0 := cfg.gap]))
  }

  lemma SecondRotation(cfg: Config)
    ensures RotateTxn(Reaped(cfg).kv, T1(cfg), T2(cfg)) == Rotated2(cfg, 6).kv
  {
  }

  lemma SecondLogged(cfg: Config)
    ensures LogRotate(Reaped(cfg).log, T2(cfg)) == Rotated2(cfg, 6).log
  {
    assert [0, 1] + [2] == [0, 1, 2];
  }

  lemma ToRotatedAgain(cfg: Config)
    requires Loose(cfg)
    ensures Reaches(cfg, START, State(Rotated2(cfg, 6), Sweeping(cfg, ReadTouch(1, 5, T2(cfg)))))
  {
    var w, t1, t2 := Reaped(cfg), T1(cfg), T2(cfg);
    ToSecondCommit(cfg);
    SecondRotation(cfg);
    SecondLogged(cfg);
    Moves(cfg, START, w, Sweeping(cfg, CommitRotate(t1, 2, t2)), 3, 0, t2, Rotated2(cfg, 6), ReadTouch(1, 5, t2),
          Sweeping(cfg, ReadTouch(1, 5, t2)));
  }

  function Finishing(cfg: Config, burn: Call): map<nat, Call>
  {
    Calls(cfg, burn)[3 := ReadTouch(1, 5, T2(cfg))]
  }

  lemma LateWrite(cfg: Config)
    ensures PutRow(Rotated2(cfg, 6).kv, Revoke(T1(cfg))) == Rotated2(cfg, 7).kv
  {
  }

  lemma LastWrite(cfg: Config)
    ensures Writes(cfg) - {1} == map[] && 1 in Writes(cfg) && Writes(cfg)[1] == Revoke(T1(cfg)) && Writes(cfg) != map[]
    ensures Finishing(cfg, WriteRows(0, Writes(cfg), {}, {0})) == Sweeping(cfg, ReadTouch(1, 5, T2(cfg)))
  {
  }

  /** The sweep writes its one stale revocation. */
  lemma Writes1(cfg: Config, w: World, calls: map<nat, Call>, writes: map<Id, Token>)
    requires Reaches(cfg, START, State(w, calls)) && 0 in calls && calls[0] == WriteRows(0, writes, {}, {0})
    requires 1 in writes && writes != map[]
    ensures Reaches(cfg, START, State(w.(kv := PutRow(w.kv, writes[1])),
                                      calls[0 := WriteRows(0, writes - {1}, {}, {0})]))
  {
    var call' := WriteRows(0, writes - {1}, {}, {0});
    Moves(cfg, START, w, calls, 0, 1, T0(cfg), w.(kv := PutRow(w.kv, writes[1])), call', calls[0 := call']);
  }

  lemma ToWritten(cfg: Config)
    requires Loose(cfg)
    ensures Reaches(cfg, START, State(Rotated2(cfg, 7), Finishing(cfg, WriteRows(0, map[], {}, {0}))))
  {
    var w, calls := Rotated2(cfg, 6), Finishing(cfg, WriteRows(0, Writes(cfg), {}, {0}));
    ToRotatedAgain(cfg);
    LastWrite(cfg);
    LateWrite(cfg);
    Writes1(cfg, w, calls, Writes(cfg));
    assert w.(kv := PutRow(w.kv, Writes(cfg)[1])) == Rotated2(cfg, 7);
    assert calls[0 := WriteRows(0, map[], {}, {0})] == Finishing(cfg, WriteRows(0, map[], {}, {0}));
  }

  lemma FinishBurn(cfg: Config, w: World, calls: map<nat, Call>)
    requires Reaches(cfg, START, State(w, calls)) && 0 in calls && calls[0] == WriteRows(0, map[], {}, {0})
    ensures Reaches(cfg, START, State(w, calls[0 := Returned(Swept({0}))]))
  {
    var gen := T0(cfg);
    Moves(cfg, START, w, calls, 0, 0, gen, w, RangeFamily({}, {0}), calls[0 := RangeFamily({}, {0})]);
    Moves(cfg, START, w, calls[0 := RangeFamily({}, {0})], 0, 0, gen, w, Returned(Swept({0})),
          calls[0 := Returned(Swept({0}))]);
  }

  /** Some run ends with a completed burn and an active token of a family it burned. */
  ghost predicate TokenMayOutliveBurn(cfg: Config)
  {
    exists s, c, fams, i :: Reaches(cfg, START, s) && Burned(s, c, fams) && Active(s.world.kv, i) &&
        s.world.kv.rows[i].row.family in fams
  }

  /** A token can outlive a completed burn exactly when the latency of a barrier, plus the longest lifetime
      of a token, exceeds the lifetime the barrier is sized by plus SKEW. */
  lemma BurnIsExact(cfg: Config)
    requires cfg.ttl > 0 && cfg.barrierTtl > 0
    ensures TokenMayOutliveBurn(cfg) <==> cfg.gap >= 0 && cfg.gap + cfg.ttl > cfg.barrierTtl + SKEW
  {
    if Loose(cfg) {
      ToWritten(cfg);
      FinishBurn(cfg, Rotated2(cfg, 7), Finishing(cfg, WriteRows(0, map[], {}, {0})));
      var s := State(Rotated2(cfg, 7), Finishing(cfg, WriteRows(0, map[], {}, {0}))[0 := Returned(Swept({0}))]);
      assert Reaches(cfg, START, s) && Burned(s, 0, {0}) && Active(s.world.kv, 2) &&
             s.world.kv.rows[2].row.family in {0};
    } else {
      forall s, c, fams, i | Reaches(cfg, START, s) && Burned(s, c, fams) && i in s.world.kv.rows &&
          s.world.kv.rows[i].row.family in fams
        ensures !Active(s.world.kv, i)
      {
        var run, steps :| IsRun(cfg, run, steps) && run[0] == START && run[|steps|] == s;
        BurnIsFinal(cfg, run, steps, |steps|, |steps|, c, fams, i);
      }
    }
  }
}
