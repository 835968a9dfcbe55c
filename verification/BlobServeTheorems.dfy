/** The results about whole runs of the blob serve manager. */
module BlobServeTheorems {
  import opened Options
  import opened BlobServe
  import opened BlobServeRuns

  ghost predicate StepAt(start: int, end: int, run: seq<State>, steps: seq<Step>, i: nat)
    requires |run| == |steps| + 1 && i < |steps|
  {
    Next(start, end, run[i], steps[i], run[i + 1])
  }

  ghost predicate IsRun(start: int, end: int, run: seq<State>, steps: seq<Step>)
  {
    |run| == |steps| + 1 &&
    forall i: nat {:trigger StepAt(start, end, run, steps, i)} :: i < |steps| ==> StepAt(start, end, run, steps, i)
  }

  predicate OwnAt(run: seq<State>, steps: seq<Step>, i: nat)
    requires |run| == |steps| + 1 && i < |steps|
  {
    OwnClaim(run[i], steps[i])
  }

  /** No pending callback outlives its serve's tenure of the port: whenever one claims, it finds its
      own serve or nothing. */
  ghost predicate TimersInTime(run: seq<State>, steps: seq<Step>, n: nat)
    requires |run| == |steps| + 1 && n <= |steps|
  {
    forall i: nat {:trigger OwnAt(run, steps, i)} :: i < n ==> OwnAt(run, steps, i)
  }

  lemma StartOk()
    ensures Inv(START)
  {
    assert Ports(START) == map[] && Grants(START) == map[];
  }

  lemma {:induction false} RunKeeps(start: int, end: int, run: seq<State>, steps: seq<Step>, n: nat)
    requires IsRun(start, end, run, steps) && run[0] == START && n <= |steps| && TimersInTime(run, steps, n)
    ensures Inv(run[n])
  {
    if n == 0 {
      StartOk();
    } else {
      assert forall i: nat :: i < n - 1 ==> OwnAt(run, steps, i);
      RunKeeps(start, end, run, steps, n - 1);
      assert OwnAt(run, steps, n - 1) && StepAt(start, end, run, steps, n - 1);
      StepKeeps(start, end, run[n - 1], steps[n - 1], run[n]);
    }
  }

  ghost predicate AlwaysInv(run: seq<State>) { forall i :: 0 <= i < |run| ==> Inv(run[i]) }

  /** Over any run, ports, tokens and teardowns stay accounted for exactly when the timers are in time. */
  lemma AccountingIsExact(start: int, end: int, run: seq<State>, steps: seq<Step>)
    requires IsRun(start, end, run, steps) && run[0] == START
    ensures AlwaysInv(run) <==> TimersInTime(run, steps, |steps|)
  {
    if TimersInTime(run, steps, |steps|) {
      forall n | 0 <= n < |run| ensures Inv(run[n]) {
        assert forall i: nat :: i < n ==> OwnAt(run, steps, i);
        RunKeeps(start, end, run, steps, n);
      }
    }
    if AlwaysInv(run) {
      forall i: nat | i < |steps| ensures OwnAt(run, steps, i) {
        assert StepAt(start, end, run, steps, i);
        if !OwnClaim(run[i], steps[i]) { ForeignClaimBreaks(start, end, run[i], steps[i], run[i + 1]); }
      }
    }
  }

  /** Reserved ports are the disjoint union of the ports of in-flight Serve calls, registered serves
      and claimed serves whose port is not released yet; and no serve's port is released twice. */
  lemma PortsAreConserved(start: int, end: int, run: seq<State>, steps: seq<Step>, n: nat)
    requires IsRun(start, end, run, steps) && run[0] == START && n <= |steps| && TimersInTime(run, steps, n)
    ensures var s := run[n];
            && (forall p :: p in s.used <==> exists id :: Holds(s, id) && s.serves[id].port == p)
            && (forall i, j :: Holds(s, i) && Holds(s, j) && s.serves[i].port == s.serves[j].port ==> i == j)
            && (forall id :: id in s.serves ==> s.serves[id].released + s.serves[id].releasing <= 1)
            && (forall id :: Holds(s, id) ==> s.serves[id].released == 0)
  {
    RunKeeps(start, end, run, steps, n);
    var s := run[n];
    forall p ensures p in s.used <==> exists id :: Holds(s, id) && s.serves[id].port == p {
      if p in s.used {
        var id :| id in Ports(s) && Ports(s)[id] == p;
        assert Holds(s, id) && s.serves[id].port == p;
      }
      if id :| Holds(s, id) && s.serves[id].port == p { assert Ports(s)[id] == p; }
    }
    forall i, j | Holds(s, i) && Holds(s, j) && s.serves[i].port == s.serves[j].port ensures i == j {
      assert Ports(s)[i] == Ports(s)[j];
    }
    forall id | id in s.serves
      ensures s.serves[id].released + s.serves[id].releasing <= 1 && (Holds(s, id) ==> s.serves[id].released == 0)
    {
      assert ServeOk(s, id);
    }
  }

  /** At all times a token verifies for a digest exactly when some primed, not yet torn down serve
      carries that token and that digest. */
  lemma VerifyIsExact(start: int, end: int, run: seq<State>, steps: seq<Step>, n: nat, token: string, digest: string)
    requires IsRun(start, end, run, steps) && run[0] == START && n <= |steps| && TimersInTime(run, steps, n)
    ensures VerifyToken(run[n].tokens, token, digest).Some? <==>
            exists id :: Carries(run[n], id) && run[n].serves[id].token == token && run[n].serves[id].digest == digest
  {
    RunKeeps(start, end, run, steps, n);
    var s := run[n];
    if token in s.tokens && s.tokens[token] == digest {
      var id :| id in Grants(s) && Grants(s)[id].0 == token;
      assert Carries(s, id) && s.serves[id].token == token && s.serves[id].digest == digest;
    }
    if id :| Carries(s, id) && s.serves[id].token == token && s.serves[id].digest == digest {
      assert Grants(s)[id] == (token, digest);
    }
  }

  // ------------------------------------------------------------------ after Close

  /** Closed, with every Serve call returned and every claimed serve torn down. */
  predicate Quiescent(s: State)
  {
    s.closed && forall id :: id in s.serves ==>
          s.serves[id].stage in {Registered, Over} && s.serves[id].releasing == s.serves[id].dropping == 0
  }

  lemma QuiescentIsClean(s: State)
    requires Inv(s) && Quiescent(s)
    ensures s.used == {} && s.tokens == map[] && s.active == map[]
    ensures forall id :: id in s.serves && s.serves[id].stage == Registered ==> s.serves[id].released == 1
  {
    assert Ports(s) == map[] && Grants(s) == map[];
    assert forall p :: p !in s.used;
    assert forall k :: k !in s.tokens;
    assert s.used == {} && s.tokens == map[];
    forall id | id in s.serves && s.serves[id].stage == Registered ensures s.serves[id].released == 1 {
      assert ServeOk(s, id);
    }
  }

  /** Once closed and drained, no port is reserved and no token primed in any continuation, and every
      serve that was ever registered has been released exactly once. */
  lemma {:induction false} CloseIsFinal(start: int, end: int, run: seq<State>, steps: seq<Step>, n: nat)
    requires IsRun(start, end, run, steps) && Inv(run[0]) && Quiescent(run[0]) && n < |run|
    ensures Inv(run[n]) && Quiescent(run[n]) && run[n].used == {} && run[n].tokens == map[] && run[n].active == map[]
    ensures forall id :: id in run[n].serves && run[n].serves[id].stage == Registered ==>
              run[n].serves[id].released == 1
  {
    if n == 0 {
      QuiescentIsClean(run[0]);
    } else {
      CloseIsFinal(start, end, run, steps, n - 1);
      assert StepAt(start, end, run, steps, n - 1);
      StepKeeps(start, end, run[n - 1], steps[n - 1], run[n]);
      QuiescentIsClean(run[n]);
    }
  }

  // ------------------------------------------------------------------ why the timers must be in time

  ghost predicate Reaches(p: int, t: State)
  {
    exists run, steps :: IsRun(p, p, run, steps) && run[0] == START && run[|steps|] == t
  }

  lemma On(p: int, t: State, step: Step, u: State)
    requires Reaches(p, t) && Next(p, p, t, step, u)
    ensures Reaches(p, u)
  {
    var run, steps :| IsRun(p, p, run, steps) && run[0] == START && run[|steps|] == t;
    var run', steps' := run + [u], steps + [step];
    forall i: nat | i < |steps'| ensures StepAt(p, p, run', steps', i) {
      if i < |steps| { assert StepAt(p, p, run, steps, i); }
    }
    assert IsRun(p, p, run', steps');
  }

  /** Serve `id` runs from Enter as far as its listener, on a manager whose only port `p` is free. */
  lemma Listens(p: int, s: State, id: nat, token: string, digest: string)
    requires Reaches(p, s) && s.used == {} && !s.closed && id !in s.serves
    ensures Reaches(p, Put(s, id, Serve(p, token, digest, Listening, Unset, 0, 0, 0)).(used := {p}))
  {
    var s1 := Put(s, id, Serve(0, token, digest, Entered, Unset, 0, 0, 0));
    On(p, s, Enter(id, token, digest), s1);
    var s2 := Put(s, id, Serve(p, token, digest, Reserved, Unset, 0, 0, 0)).(used := {p});
    assert Taking({}, Some(p)) == {p} && s2.serves == s1.serves[id := s2.serves[id]];
    On(p, s1, Reserve(id, Some(p)), s2);
    var s3 := Put(s2, id, Serve(p, token, digest, Listening, Unset, 0, 0, 0));
    On(p, s2, Listen(id, true), s3);
    assert s3 == Put(s, id, Serve(p, token, digest, Listening, Unset, 0, 0, 0)).(used := {p});
  }

  /** It goes on to Register. */
  lemma Opens(p: int, s: State, id: nat, token: string, digest: string)
    requires Reaches(p, s) && s.used == {} && s.active == map[] && s.tokens == map[] && !s.closed && id !in s.serves
    requires forall i :: i in s.serves ==> !Carries(s, i)
    ensures Reaches(p, State({p}, map[p := Entry(id, p, token)], false, map[token := digest],
                             s.serves[id := Serve(p, token, digest, Registered, Armed, 0, 0, 0)]))
  {
    Listens(p, s, id, token, digest);
    var s3 := Put(s, id, Serve(p, token, digest, Listening, Unset, 0, 0, 0)).(used := {p});
    assert Grants(s3) == map[];
    var s4 := Put(s3, id, Serve(p, token, digest, Primed, Armed, 0, 0, 0)).(tokens := map[token := digest]);
    On(p, s3, Prime(id), s4);
    var s5 := Put(s4, id, Serve(p, token, digest, Registered, Armed, 0, 0, 0))
              .(active := map[p := Entry(id, p, token)]);
    On(p, s4, Register(id), s5);
    assert s5.serves == s.serves[id := Serve(p, token, digest, Registered, Armed, 0, 0, 0)];
  }

  /** After a callback fired too late: serve 0 was released twice, while serve 1 is still open and
      authorized but owned by nobody, its port handed back to the pool. */
  predicate Orphaned(s: State)
  {
    && 0 in s.serves && 1 in s.serves && s.serves[0].released == 2
    && s.serves[1].stage == Registered && s.serves[1].released == s.serves[1].releasing == s.serves[1].dropping == 0
    && s.serves[1].port !in s.used && s.serves[1].port !in s.active &&
       VerifyToken(s.tokens, s.serves[1].token, s.serves[1].digest).Some?
  }

  lemma LateCallbackOrphans(p: int)
    ensures exists s :: Reaches(p, s) && Orphaned(s)
  {
    assert IsRun(p, p, [START], []);
    Opens(p, START, 0, "a", "d");
    var v := Serve(p, "a", "d", Registered, Armed, 0, 0, 0);
    var s0 := State({p}, map[p := Entry(0, p, "a")], false, map["a" := "d"], START.serves[0 := v]);
    var s1 := Put(s0, 0, v.(timer := Fired));
    On(p, s0, Fire(0), s1);
    assert s1.serves == map[0 := v.(timer := Fired)];
    StoppedThenLate(p, s1, v);
  }

  /** The serve is stopped by token and torn down before its fired callback runs. */
  lemma StoppedThenLate(p: int, s1: State, v: Serve)
    requires v == Serve(p, "a", "d", Registered, Armed, 0, 0, 0)
    requires s1 == State({p}, map[p := Entry(0, p, "a")], false, map["a" := "d"], map[0 := v.(timer := Fired)]) &&
             Reaches(p, s1)
    ensures exists s :: Reaches(p, s) && Orphaned(s)
  {
    var s2 := Put(s1, 0, v.(timer := Fired, releasing := 1)).(active := map[]);
    assert s1.active - {p} == map[];
    On(p, s1, Stop(p, "a"), s2);
    var s3 := Put(s2, 0, v.(timer := Fired, dropping := 1, released := 1)).(used := {});
    On(p, s2, Release(0), s3);
    var gone := v.(timer := Fired, released := 1);
    var s4 := Put(s3, 0, gone).(tokens := map[]);
    assert s3.tokens - {"a"} == map[];
    On(p, s3, Drop(0), s4);
    assert s4.serves == map[0 := gone];
    LateCallbackStrikes(p, s4, gone);
  }

  lemma LateCallbackStrikes(p: int, s: State, gone: Serve)
    requires Reaches(p, s) && s == State({}, map[], false, map[], map[0 := gone])
    requires gone == Serve(p, "a", "d", Registered, Fired, 0, 0, 1)
    ensures exists t :: Reaches(p, t) && Orphaned(t)
  {
    Opens(p, s, 1, "b", "e");
    var w := Serve(p, "b", "e", Registered, Armed, 0, 0, 0);
    var s1 := State({p}, map[p := Entry(1, p, "b")], false, map["b" := "e"], s.serves[1 := w]);
    var s2 := Put(s1, 0, gone.(timer := Off, releasing := 1)).(active := map[]);
    assert s1.active - {p} == map[];
    On(p, s1, Expire(0), s2);
    var s3 := Put(s2, 0, gone.(timer := Off, dropping := 1, released := 2)).(used := {});
    On(p, s2, Release(0), s3);
    assert Orphaned(s3);
  }
}
