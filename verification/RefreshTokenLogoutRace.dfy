/**
 Why LogoutAll must read a token's family before the token expires: a run in which a rotation of the
 listed token commits, cleanup reaps the token, LogoutAll finds nothing to read, and the child lives on.
 Together with `LogoutAllKillsFamilies` this makes the condition exact.
 */
module RefreshTokenLogoutRace {
  import opened Options
  import opened RefreshTokens
  import opened RefreshTokenTheorems
  import opened RefreshTokenLogoutAll

  function Old(cfg: Config): Token { Token(0, 0, 0, 0, None, cfg.ttl, false, None) }
  function Spent(cfg: Config): Token { Old(cfg).(revoked := true) }
  function Child(cfg: Config): Token { Token(1, 0, 1, 0, Some(0), 2 * cfg.ttl, false, None) }

  /** The instant after the first token's expiry; its rotation is prepared, and LogoutAll begins, just before. */
  function Past(cfg: Config): Time { cfg.ttl + 1 }

  function LoggedIn(cfg: Config, now: Time): World
  {
    World(now, Kv(map[0 := Versioned(Old(cfg), 1)], map[0 := 0], {(0, 0)}, {(0, 0)}, map[], 1),
          History(map[0 := Old(cfg)], map[0 := [0]], map[]))
  }

  // ------------------------------------------------------------------ a refresh on its way

  lemma ToLookup(cfg: Config)
    requires cfg.ttl > 0
    ensures Reaches(cfg, START, State(LoggedIn(cfg, 0), map[0 := FindUser(Old(cfg))]))
  {
    var tok, w := Old(cfg), LoggedIn(cfg, 0);
    ReachesSelf(cfg, START);
    assert World(0, Insert(START.world.kv, tok), LogLogin(START.world.log, tok)) == w;
    ReachesOn(cfg, START, START, Login(tok), State(w, map[]));
    Starts(cfg, START, w, map[], 0, LookUp(0), map[0 := LookUp(0)]);
    Moves(cfg, START, w, map[0 := LookUp(0)], 0, 0, tok, w, Fetch(0), map[0 := Fetch(0)]);
    Moves(cfg, START, w, map[0 := Fetch(0)], 0, 0, tok, w, FindUser(tok), map[0 := FindUser(tok)]);
  }

  function Rotating(cfg: Config): Call { CommitRotate(Old(cfg), 1, Child(cfg)) }

  lemma ToCommit(cfg: Config)
    requires cfg.ttl > 0
    ensures Reaches(cfg, START, State(LoggedIn(cfg, cfg.ttl), map[0 := Rotating(cfg)]))
  {
    var tok, child, w := Old(cfg), Child(cfg), LoggedIn(cfg, cfg.ttl);
    ToLookup(cfg);
    ReachesOn(cfg, START, State(LoggedIn(cfg, 0), map[0 := FindUser(tok)]), Tick(cfg.ttl),
              State(w, map[0 := FindUser(tok)]));
    Moves(cfg, START, w, map[0 := FindUser(tok)], 0, 1, child, w, ReadParent(tok, child),
          map[0 := ReadParent(tok, child)]);
    Moves(cfg, START, w, map[0 := ReadParent(tok, child)], 0, 0, child, w, Rotating(cfg), map[0 := Rotating(cfg)]);
  }

  // ------------------------------------------------------------------ the logout begins

  /** The run is at `s`, and LogoutAll began at its point m as call 1, with the first token active and
      unexpired; it has gathered families until the instant Past only. */
  ghost predicate Underway(cfg: Config, run: seq<State>, steps: seq<Step>, m: nat, s: State)
  {
    && IsRun(cfg, run, steps) && run[0] == START && run[|steps|] == s && m < |run|
    && 1 in run[m].calls && run[m].calls[1] == RangeUser(0)
    && Active(run[m].world.kv, 0) && run[m].world.kv.rows[0].row == Old(cfg) && run[m].world.now <= cfg.ttl
    && GathersBy(run, m, |steps|, 1, Past(cfg))
  }

  ghost predicate Begun(cfg: Config, s: State) { exists run, steps, m :: Underway(cfg, run, steps, m, s) }

  lemma Begins(cfg: Config, t: State, s: State)
    requires Reaches(cfg, START, t) && t.world == LoggedIn(cfg, cfg.ttl) && 1 !in t.calls
    requires s == t.(calls := t.calls[1 := RangeUser(0)])
    ensures Begun(cfg, s)
  {
    ReachesOn(cfg, START, t, Start(1, RangeUser(0)), s);
    var run, steps :| IsRun(cfg, run, steps) && run[0] == START && run[|steps|] == s;
    assert GathersBy(run, |steps|, |steps|, 1, Past(cfg));
    assert Underway(cfg, run, steps, |steps|, s);
  }

  lemma On(cfg: Config, s: State, step: Step, t: State)
    requires Begun(cfg, s) && Next(cfg, s, step, t) && t.world.now <= Past(cfg)
    ensures Begun(cfg, t)
  {
    var run: seq<State>, steps: seq<Step>, m: nat :| Underway(cfg, run, steps, m, s);
    var run', steps' := run + [t], steps + [step];
    forall i: nat | i < |steps'| ensures StepAt(cfg, run', steps', i) {
      if i < |steps| { assert StepAt(cfg, run, steps, i); }
    }
    forall k: nat | m <= k <= |steps'| ensures InTime(run'[k], 1, Past(cfg)) {
      if k <= |steps| { assert InTime(run[k], 1, Past(cfg)); }
    }
    assert Underway(cfg, run', steps', m, t);
  }

  /** One move of call `c`, no later than the instant Past. */
  lemma Move1(cfg: Config, w: World, calls: map<nat, Call>, c: nat, pick: nat, w': World, call': Call)
    requires Begun(cfg, State(w, calls)) && c in calls && w.now == w'.now <= Past(cfg)
    requires Act(cfg, w, calls[c], pick, Child(cfg)) == Effect(w'.kv, w'.log, call')
    ensures Begun(cfg, State(w', calls[c := call']))
  {
    On(cfg, State(w, calls), Move(c, pick, Child(cfg)), State(w', calls[c := call']));
  }

  /** LogoutAll has listed the token, and then it expires. */
  lemma ToListed(cfg: Config)
    requires cfg.ttl > 0
    ensures Begun(cfg, State(LoggedIn(cfg, Past(cfg)), map[0 := Rotating(cfg), 1 := ReadFamilies({0}, {})]))
  {
    var w, calls := LoggedIn(cfg, cfg.ttl), map[0 := Rotating(cfg), 1 := RangeUser(0)];
    ToCommit(cfg);
    Begins(cfg, State(w, map[0 := Rotating(cfg)]), State(w, calls));
    assert UserTokens(w.kv, 0) == {0};
    Move1(cfg, w, calls, 1, 0, w, ReadFamilies({0}, {}));
    var listed := map[0 := Rotating(cfg), 1 := ReadFamilies({0}, {})];
    assert calls[1 := ReadFamilies({0}, {})] == listed;
    On(cfg, State(w, listed), Tick(Past(cfg)), State(LoggedIn(cfg, Past(cfg)), listed));
  }

  // ------------------------------------------------------------------ the rotation and the cleanup overtake it

  function Rotated(cfg: Config): World
  {
    World(Past(cfg), Kv(map[0 := Versioned(Spent(cfg), 2), 1 := Versioned(Child(cfg), 2)], map[0 := 0, 1 := 1],
                        {(0, 0), (0, 1)}, {(0, 0), (0, 1)}, map[], 2),
          History(map[0 := Old(cfg), 1 := Child(cfg)], map[0 := [0, 1]], map[]))
  }

  lemma Rotation(cfg: Config)
    ensures RotateTxn(LoggedIn(cfg, Past(cfg)).kv, Old(cfg), Child(cfg)) == Rotated(cfg).kv
    ensures LogRotate(LoggedIn(cfg, Past(cfg)).log, Child(cfg)) == Rotated(cfg).log
  {
    assert [0] + [1] == [0, 1];
  }

  lemma ToRotated(cfg: Config) returns (calls: map<nat, Call>)
    requires cfg.ttl > 0
    ensures Begun(cfg, State(Rotated(cfg), calls)) && 1 in calls && calls[1] == ReadFamilies({0}, {}) && 2 !in calls
  {
    var before := map[0 := Rotating(cfg), 1 := ReadFamilies({0}, {})];
    ToListed(cfg);
    Rotation(cfg);
    calls := before[0 := ReadTouch(0, 5, Child(cfg))];
    Move1(cfg, LoggedIn(cfg, Past(cfg)), before, 0, 0, Rotated(cfg), ReadTouch(0, 5, Child(cfg)));
  }

  lemma Expiry(cfg: Config)
    requires cfg.ttl > 0
    ensures ExpiredTokens(Rotated(cfg).kv, Past(cfg)) == map[0 := Spent(cfg)]
    ensures ExpiredBarriers(Rotated(cfg).kv, Past(cfg)) == {}
  {
  }

  /** Call 2 starts to clean up. */
  lemma Sweeps(cfg: Config, w: World, calls: map<nat, Call>)
    requires Begun(cfg, State(w, calls)) && 2 !in calls && w.now == Past(cfg)
    ensures Begun(cfg, State(w, calls[2 := RangeBarriers(Past(cfg), ExpiredTokens(w.kv, Past(cfg)))]))
  {
    var started := calls[2 := RangeExpired(Past(cfg))];
    On(cfg, State(w, calls), Start(2, RangeExpired(Past(cfg))), State(w, started));
    Move1(cfg, w, started, 2, 0, w, RangeBarriers(Past(cfg), ExpiredTokens(w.kv, Past(cfg))));
    assert started[2 := RangeBarriers(Past(cfg), ExpiredTokens(w.kv, Past(cfg)))] ==
           calls[2 := RangeBarriers(Past(cfg), ExpiredTokens(w.kv, Past(cfg)))];
  }

  lemma Ranges(cfg: Config, w: World, calls: map<nat, Call>, tokens: map<Id, Token>)
    requires Begun(cfg, State(w, calls)) && 2 in calls && calls[2] == RangeBarriers(Past(cfg), tokens) &&
             w.now == Past(cfg)
    ensures Begun(cfg, State(w, calls[2 := Delete(tokens, ExpiredBarriers(w.kv, Past(cfg)))]))
  {
    Move1(cfg, w, calls, 2, 0, w, Delete(tokens, ExpiredBarriers(w.kv, Past(cfg))));
  }

  function Reaped(cfg: Config): World
  {
    Rotated(cfg).(kv := Kv(map[1 := Versioned(Child(cfg), 2)], map[1 := 1], {(0, 1)}, {(0, 1)}, map[], 3))
  }

  lemma Reaping(cfg: Config)
    ensures DropToken(Rotated(cfg).kv, Spent(cfg)) == Reaped(cfg).kv
  {
  }

  lemma ToReaped(cfg: Config) returns (calls: map<nat, Call>)
    requires cfg.ttl > 0
    ensures Begun(cfg, State(Reaped(cfg), calls)) && 1 in calls && calls[1] == ReadFamilies({0}, {})
  {
    var rotated := ToRotated(cfg);
    Expiry(cfg);
    Reaping(cfg);
    Sweeps(cfg, Rotated(cfg), rotated);
    var gone := map[0 := Spent(cfg)];
    Ranges(cfg, Rotated(cfg), rotated[2 := RangeBarriers(Past(cfg), gone)], gone);
    var ranged := rotated[2 := RangeBarriers(Past(cfg), gone)][2 := Delete(gone, {})];
    var rest := gone - {0};
    Move1(cfg, Rotated(cfg), ranged, 2, 0, Reaped(cfg), Delete(rest, {}));
    calls := ranged[2 := Delete(rest, {})];
  }

  // ------------------------------------------------------------------ the logout finds nothing

  /** A LogoutAll whose only listed token is gone has no family to burn. */
  lemma FindsNothing(cfg: Config, w: World, calls: map<nat, Call>) returns (calls': map<nat, Call>)
    requires Begun(cfg, State(w, calls)) && 1 in calls && calls[1] == ReadFamilies({0}, {}) && 0 !in w.kv.rows &&
             w.now == Past(cfg)
    ensures Begun(cfg, State(w, calls')) && 1 in calls' && calls'[1] == Bar({}, {})
  {
    assert {0} - {0} == {};
    Move1(cfg, w, calls, 1, 0, w, ReadFamilies({}, {}));
    calls' := calls[1 := ReadFamilies({}, {})];
    Move1(cfg, w, calls', 1, 0, w, Bar({}, {}));
    calls' := calls'[1 := Bar({}, {})];
  }

  lemma BurnsNothing(cfg: Config, w: World, calls: map<nat, Call>) returns (calls': map<nat, Call>)
    requires Begun(cfg, State(w, calls)) && 1 in calls && calls[1] == Bar({}, {}) && w.now == Past(cfg)
    ensures Begun(cfg, State(w, calls')) && 1 in calls' && calls'[1] == Returned(Swept({}))
  {
    Move1(cfg, w, calls, 1, 0, w, RangeFamily({}, {}));
    calls' := calls[1 := RangeFamily({}, {})];
    Move1(cfg, w, calls', 1, 0, w, Returned(Swept({})));
    calls' := calls'[1 := Returned(Swept({}))];
  }

  /** Some LogoutAll returns while a family that had an active token when it began is not dead, although it
      gathered families no later than `late` after that token's expiry. */
  ghost predicate FamilyMayOutliveLogoutAll(cfg: Config, late: int)
  {
    exists run, steps, m, n, c, u, fams, i :: LogsOut(cfg, run, steps, m, n, c, u, fams, i, late) &&
        Survives(run, m, n, i)
  }

  ghost predicate Survives(run: seq<State>, m: nat, n: nat, i: Id)
    requires m < |run| && n < |run| && i in run[m].world.kv.rows
  {
    !Dead(run[n].world.kv, run[n].world.log, run[m].world.kv.rows[i].row.family)
  }

  /** The run in hand, read as a LogoutAll that its user's first family outlives. */
  lemma EndsAlive(cfg: Config, late: int, run: seq<State>, steps: seq<Step>, m: nat, calls: map<nat, Call>)
    requires late > 0 && Underway(cfg, run, steps, m, State(Reaped(cfg), calls)) && 1 in calls &&
             calls[1] == Returned(Swept({}))
    ensures LogsOut(cfg, run, steps, m, |steps|, 1, 0, {}, 0, late) && Survives(run, m, |steps|, 0)
  {
    forall k: nat | m <= k <= |steps| ensures InTime(run[k], 1, cfg.ttl + late) { assert InTime(run[k], 1, Past(cfg)); }
    assert Active(Reaped(cfg).kv, 1) && Reaped(cfg).log.chains[0][1] == 1;
  }

  lemma ChildSurvives(cfg: Config, late: int)
    requires cfg.ttl > 0 && late > 0
    ensures FamilyMayOutliveLogoutAll(cfg, late)
  {
    var calls := ToReaped(cfg);
    calls := FindsNothing(cfg, Reaped(cfg), calls);
    calls := BurnsNothing(cfg, Reaped(cfg), calls);
    var run: seq<State>, steps: seq<Step>, m: nat :| Underway(cfg, run, steps, m, State(Reaped(cfg), calls));
    EndsAlive(cfg, late, run, steps, m, calls);
  }

  /** A family with an active token can outlive LogoutAll exactly when the call may still be gathering
      families after that token has expired. */
  lemma LogoutAllIsExact(cfg: Config, late: int)
    requires cfg.ttl > 0 && Timely(cfg)
    ensures FamilyMayOutliveLogoutAll(cfg, late) <==> late > 0
  {
    if late > 0 {
      ChildSurvives(cfg, late);
    } else {
      forall run: seq<State>, steps, m: nat, n: nat, c, u, fams, i | LogsOut(cfg, run, steps, m, n, c, u, fams, i, late)
        ensures !Survives(run, m, n, i)
      {
        InTimeIsMonotone(run, m, n, c, run[m].world.kv.rows[i].row.expires, late);
        LogoutAllKillsFamilies(cfg, run, steps, m, n, c, u, fams, i, n);
      }
    }
  }

  lemma InTimeIsMonotone(run: seq<State>, m: nat, n: nat, c: nat, expiry: Time, late: int)
    requires m <= n < |run| && late <= 0 && GathersBy(run, m, n, c, expiry + late)
    ensures GathersBy(run, m, n, c, expiry + 0)
  {
    forall k: nat | m <= k <= n ensures InTime(run[k], c, expiry + 0) { assert InTime(run[k], c, expiry + late); }
  }
}
