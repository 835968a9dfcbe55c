/** Any number of casNodeUpdate calls and other writers on one node row, interleaved at every read and commit. */
module NodeRowRuns {
  import opened Options
  import opened NodeRow

  /** A commit on the key: a casNodeUpdate call's, or any other client's. */
  datatype Entry = Cas(c: nat, mutate: Node -> Node, node: Node) | Other(write: Write)

  /** `Reading(k)`: about to start attempt k. `Committing(k, n, seen, at)`: attempt k read revision
      `seen` when `at` commits had happened and will try to put `n`. */
  datatype Pc = Reading(attempt: nat) | Committing(attempt: nat, node: Node, seen: nat, at: nat) | Done(result: Result)

  /** `from` is the number of commits when the call began. */
  datatype Call = Call(mutate: Node -> Node, from: nat, pc: Pc)

  datatype State = State(row: Option<Node>, modRev: nat, rev: nat, log: seq<Entry>, calls: map<nat, Call>)

  datatype Step =
    | Begin(c: nat, mutate: Node -> Node) | Read(c: nat) | Commit(c: nat) | Lose(c: nat, applied: bool)
    | Foreign(write: Write) | Elsewhere

  ghost function RowAfter(e: Entry): Option<Node>
  {
    if e.Cas? then Some(e.node) else After(e.write)
  }

  ghost function Commits(s: State, e: Entry): State
  {
    var row := RowAfter(e);
    s.(row := row, modRev := if row.Some? then s.rev + 1 else 0, rev := s.rev + 1, log := s.log + [e])
  }

  ghost function Goto(s: State, c: nat, pc: Pc): State
    requires c in s.calls
  {
    s.(calls := s.calls[c := s.calls[c].(pc := pc)])
  }

  ghost predicate Next(s: State, step: Step, t: State)
  {
    match step
    case Begin(c, f) => c !in s.calls && t == s.(calls := s.calls[c := Call(f, |s.log|, Reading(0))])
    case Read(c) =>
      c in s.calls && s.calls[c].pc.Reading? &&
      t == if !Live(s.row) then Goto(s, c, Done(NotFound))
           else Goto(s, c, Committing(s.calls[c].pc.attempt, s.calls[c].mutate(s.row.value), s.modRev, |s.log|))
    case Commit(c) =>
      c in s.calls && s.calls[c].pc.Committing? &&
      var pc := s.calls[c].pc;
      t == if s.modRev == pc.seen then Goto(Commits(s, Cas(c, s.calls[c].mutate, pc.node)), c, Done(Updated(pc.node)))
           else if pc.attempt + 1 < MAX_ATTEMPTS then Goto(s, c, Reading(pc.attempt + 1))
           else Goto(s, c, Done(ConcurrentUpdate))
    case Lose(c, applied) =>
      c in s.calls && s.calls[c].pc.Committing? &&
      var pc := s.calls[c].pc;
      t == if applied && s.modRev == pc.seen
           then Goto(Commits(s, Cas(c, s.calls[c].mutate, pc.node)), c, Done(TxnError))
           else Goto(s, c, Done(TxnError))
    case Foreign(w) => t == Commits(s, Other(w))
    case Elsewhere => t == s.(rev := s.rev + 1)
  }

  /** The row obtained by applying, in commit order, each call's mutate to the row before it and each
      other write as it is. */
  ghost function Fold(log: seq<Entry>): Option<Node>
  {
    if log == [] then None else
    var prev := Fold(log[..|log| - 1]);
    match log[|log| - 1]
    case Cas(_, f, _) => if prev.Some? then Some(f(prev.value)) else None
    case Other(w) => After(w)
  }

  /** Commit k replaced the live row current at that point by the call's mutate of it. */
  ghost predicate Atomic(log: seq<Entry>, k: nat)
    requires k < |log| && log[k].Cas?
  {
    var prev := Fold(log[..k]);
    Live(prev) && log[k].node == log[k].mutate(prev.value)
  }

  predicate Wrote(log: seq<Entry>, c: nat) { exists k :: 0 <= k < |log| && log[k].Cas? && log[k].c == c }

  ghost predicate CallOk(s: State, c: nat)
    requires c in s.calls
  {
    var call := s.calls[c];
    && call.from <= |s.log|
    && match call.pc
       case Reading(k) => k < MAX_ATTEMPTS && !Wrote(s.log, c) && |s.log| - call.from >= k
       case Committing(k, n, seen, at) =>
         && k < MAX_ATTEMPTS && !Wrote(s.log, c) && call.from + k <= at <= |s.log| && 1 <= seen <= s.rev
         && (s.modRev == seen ==> Live(s.row) && n == call.mutate(s.row.value))
         && (s.modRev != seen ==> |s.log| > at)
       case Done(Updated(n)) => exists k :: 0 <= k < |s.log| && s.log[k] == Cas(c, call.mutate, n)
       case Done(NotFound) => !Wrote(s.log, c)
       case Done(ConcurrentUpdate) => !Wrote(s.log, c) && |s.log| - call.from >= MAX_ATTEMPTS
       case Done(TxnError) => true
  }

  ghost predicate LogOk(log: seq<Entry>, calls: map<nat, Call>)
  {
    && (forall k :: 0 <= k < |log| && log[k].Cas? ==> Atomic(log, k) && log[k].c in calls)
    && (forall j, k :: 0 <= j < k < |log| && log[j].Cas? && log[k].Cas? ==> log[j].c != log[k].c)
  }

  ghost predicate Inv(s: State)
  {
    && s.row == Fold(s.log) && LogOk(s.log, s.calls)
    && (s.row.Some? ==> 1 <= s.modRev <= s.rev) && (s.row.None? ==> s.modRev == 0)
    && (forall c {:trigger CallOk(s, c)} :: c in s.calls ==> CallOk(s, c))
  }

  const START: State := State(None, 0, 0, [], map[])

  // ------------------------------------------------------------------ each step

  lemma LogGrows(log: seq<Entry>, e: Entry, calls: map<nat, Call>)
    requires LogOk(log, calls)
    requires e.Cas? ==> Live(Fold(log)) && e.node == e.mutate(Fold(log).value) && e.c in calls && !Wrote(log, e.c)
    ensures LogOk(log + [e], calls)
    ensures Fold(log + [e]) == RowAfter(e)
    ensures forall c :: !(e.Cas? && e.c == c) ==> (Wrote(log + [e], c) <==> Wrote(log, c))
  {
    var log' := log + [e];
    assert log'[..|log|] == log;
    forall k | 0 <= k < |log'| && log'[k].Cas? ensures Atomic(log', k) && log'[k].c in calls {
      if k < |log| {
        assert log'[..k] == log[..k] && Atomic(log, k);
      }
    }
    forall c | !(e.Cas? && e.c == c) ensures Wrote(log', c) <==> Wrote(log, c) {
      if k :| 0 <= k < |log| && log[k].Cas? && log[k].c == c { assert log'[k] == log[k]; }
      if k :| 0 <= k < |log'| && log'[k].Cas? && log'[k].c == c { assert log[k] == log'[k]; }
    }
  }

  /** A commit by anyone invalidates what other calls read, and disturbs nothing else they know. */
  lemma CommitKeepsOthers(s: State, e: Entry, c: nat)
    requires Inv(s) && c in s.calls && !(e.Cas? && e.c == c)
    requires LogOk(s.log, s.calls) && (forall d :: !(e.Cas? && e.c == d) ==>
                                         (Wrote(s.log + [e], d) <==> Wrote(s.log, d)))
    ensures CallOk(Commits(s, e), c)
  {
    assert CallOk(s, c);
    var pc := s.calls[c].pc;
    if pc.Done? && pc.result.Updated? {
      var k :| 0 <= k < |s.log| && s.log[k] == Cas(c, s.calls[c].mutate, pc.result.node);
      assert (s.log + [e])[k] == s.log[k];
    }
  }

  lemma ForeignKeeps(s: State, w: Write, t: State)
    requires Inv(s) && t == Commits(s, Other(w))
    ensures Inv(t)
  {
    LogGrows(s.log, Other(w), s.calls);
    forall c | c in t.calls ensures CallOk(t, c) { CommitKeepsOthers(s, Other(w), c); }
  }

  lemma SameMutates(log: seq<Entry>, calls: map<nat, Call>, calls': map<nat, Call>)
    requires LogOk(log, calls) && calls.Keys <= calls'.Keys
    ensures LogOk(log, calls')
  {
  }

  lemma CasKeeps(s: State, c: nat, result: Result, t: State)
    requires Inv(s) && c in s.calls && s.calls[c].pc.Committing? && s.modRev == s.calls[c].pc.seen
    requires result == Updated(s.calls[c].pc.node) || result == TxnError
    requires t == Goto(Commits(s, Cas(c, s.calls[c].mutate, s.calls[c].pc.node)), c, Done(result))
    ensures Inv(t)
  {
    assert CallOk(s, c);
    var e := Cas(c, s.calls[c].mutate, s.calls[c].pc.node);
    LogGrows(s.log, e, s.calls);
    SameMutates(t.log, s.calls, t.calls);
    forall d | d in t.calls ensures CallOk(t, d) {
      if d != c {
        CommitKeepsOthers(s, e, d);
        assert CallOk(Commits(s, e), d);
      } else {
        assert t.log[|s.log|] == e;
      }
    }
  }

  /** A call that moves without committing leaves what the others know alone. */
  lemma GotoKeeps(s: State, c: nat, pc: Pc, t: State)
    requires Inv(s) && c in s.calls && t == Goto(s, c, pc) && CallOk(t, c)
    ensures Inv(t)
  {
    SameMutates(t.log, s.calls, t.calls);
    forall d | d in t.calls ensures CallOk(t, d) {
      if d != c { assert CallOk(s, d); }
    }
  }

  lemma BeginKeeps(s: State, step: Step, t: State)
    requires Inv(s) && Next(s, step, t) && (step.Begin? || step.Elsewhere?)
    ensures Inv(t)
  {
    SameMutates(t.log, s.calls, t.calls);
    if step.Begin? { assert !Wrote(s.log, step.c); }
    forall d | d in t.calls ensures CallOk(t, d) {
      if d in s.calls { assert CallOk(s, d); }
    }
  }

  lemma StepKeeps(s: State, step: Step, t: State)
    requires Inv(s) && Next(s, step, t)
    ensures Inv(t)
  {
    if step.Foreign? {
      ForeignKeeps(s, step.write, t);
    } else if step.Begin? || step.Elsewhere? {
      BeginKeeps(s, step, t);
    } else {
      assert CallOk(s, step.c);
      if (step.Commit? || (step.Lose? && step.applied)) && s.modRev == s.calls[step.c].pc.seen {
        CasKeeps(s, step.c, t.calls[step.c].pc.result, t);
      } else {
        GotoKeeps(s, step.c, t.calls[step.c].pc, t);
      }
    }
  }

  // ------------------------------------------------------------------ whole runs

  ghost predicate StepAt(run: seq<State>, steps: seq<Step>, i: nat)
    requires |run| == |steps| + 1 && i < |steps|
  {
    Next(run[i], steps[i], run[i + 1])
  }

  ghost predicate IsRun(run: seq<State>, steps: seq<Step>)
  {
    |run| == |steps| + 1 && run[0] == START && forall i: nat {:trigger StepAt(run, steps, i)} :: i < |steps| ==>
          StepAt(run, steps, i)
  }

  lemma {:induction false} RunKeeps(run: seq<State>, steps: seq<Step>, n: nat)
    requires IsRun(run, steps) && n < |run|
    ensures Inv(run[n])
  {
    if n > 0 {
      RunKeeps(run, steps, n - 1);
      assert StepAt(run, steps, n - 1);
      StepKeeps(run[n - 1], steps[n - 1], run[n]);
    }
  }

  /** At every point the row is the fold of all committed updates, in commit order. */
  lemma RowIsFoldOfCommits(run: seq<State>, steps: seq<Step>, n: nat)
    requires IsRun(run, steps) && n < |run|
    ensures run[n].row == Fold(run[n].log)
  {
    RunKeeps(run, steps, n);
  }

  /** A successful call committed exactly once, and that commit atomically replaced the row then
      current, which was neither deleted nor soft-deleted, by the call's mutate of it. */
  lemma SuccessIsAtomic(run: seq<State>, steps: seq<Step>, n: nat, c: nat) returns (k: nat)
    requires IsRun(run, steps) && n < |run| && c in run[n].calls
    requires run[n].calls[c].pc.Done? && run[n].calls[c].pc.result.Updated?
    ensures var s := run[n]; var node := s.calls[c].pc.result.node;
            && k < |s.log| && s.log[k] == Cas(c, s.calls[c].mutate, node)
            && Live(Fold(s.log[..k])) && node == s.calls[c].mutate(Fold(s.log[..k]).value)
            && forall j :: 0 <= j < |s.log| && s.log[j].Cas? && s.log[j].c == c ==> j == k
  {
    RunKeeps(run, steps, n);
    var s := run[n];
    assert CallOk(s, c);
    k :| k < |s.log| && s.log[k] == Cas(c, s.calls[c].mutate, s.calls[c].pc.result.node);
    assert Atomic(s.log, k);
  }

  /** A call that gives up wrote nothing, and other clients committed at least five times since it began. */
  lemma GivingUpMeansFiveForeignCommits(run: seq<State>, steps: seq<Step>, n: nat, c: nat)
    requires IsRun(run, steps) && n < |run| && c in run[n].calls && run[n].calls[c].pc == Done(ConcurrentUpdate)
    ensures !Wrote(run[n].log, c) && |run[n].log| >= run[n].calls[c].from + MAX_ATTEMPTS
  {
    RunKeeps(run, steps, n);
    assert CallOk(run[n], c);
  }

  /** A field the call's mutate does not touch keeps the value it had just before the commit, however
      recently another client set it. */
  lemma NoFieldIsLost(run: seq<State>, steps: seq<Step>, n: nat, k: nat, field: string)
    requires IsRun(run, steps) && n < |run| && k < |run[n].log| && run[n].log[k].Cas?
    requires forall m: Node :: field in m.fields ==>
               field in run[n].log[k].mutate(m).fields && run[n].log[k].mutate(m).fields[field] == m.fields[field]
    ensures var before, after := Fold(run[n].log[..k]), Fold(run[n].log[..k + 1]);
            before.Some? && after.Some? &&
            (field in before.value.fields ==>
               field in after.value.fields && after.value.fields[field] == before.value.fields[field])
  {
    RunKeeps(run, steps, n);
    var log := run[n].log;
    assert Atomic(log, k);
    assert log[..k + 1][..k] == log[..k];
  }
}
