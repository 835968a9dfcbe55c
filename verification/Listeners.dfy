/**
 Launching, failing, shutting down and draining the TLS listeners of an agent or a gateway: goroutines
 that each send one outcome on a buffered channel, and a main routine that selects, shuts down and
 drains. One step is one goroutine action; any interleaving is a run.
 */
module Listeners {
  import opened Options

  type Error = nat

  /** nil, or an error. */
  type Outcome = Option<Error>

  /** A standalone gateway (two listeners), or an agent with one listener or, co-located, two; an agent
      stopped by a signal returns the control server's shutdown error. */
  datatype Mode = Gateway | Agent(ingress: bool, shutdownError: Outcome)

  function Launched(mode: Mode): nat { match mode case Gateway => 2 case Agent(ingress, _) => if ingress then 2 else 1 }

  /** The channel is buffered for every listener launched. */
  function Capacity(mode: Mode): nat { Launched(mode) }

  datatype Listener = Serving | Sending(outcome: Outcome) | Exited

  /** `drain` is how many outcomes are still to be received before returning. */
  datatype Pc = Selecting | Stopping(drain: nat) | Draining(drain: nat) | Returned(result: Outcome)

  /** `got` is every outcome received so far; `runError` is the result kept along the way. */
  datatype State = State(listeners: seq<Listener>, channel: seq<Outcome>, signalled: bool, stopped: bool, pc: Pc,
                         runError: Outcome, got: seq<Outcome>)

  datatype Step =
    | Fails(i: nat, e: Error) | Closes(i: nat) | Sends(i: nat) | Signal | TakesSignal | TakesOutcome | Stops | Drains
    | Returns

  function AllServing(n: nat): (ls: seq<Listener>)
    ensures |ls| == n
  {
    if n == 0 then [] else [Serving] + AllServing(n - 1)
  }

  function Init(mode: Mode): State
  {
    State(AllServing(Launched(mode)), [], false, false, Selecting, None, [])
  }

  function Move(s: State, i: nat, l: Listener): State
    requires i < |s.listeners|
  {
    s.(listeners := s.listeners[i := l])
  }

  function Receive(s: State): State
    requires s.channel != []
  {
    s.(channel := s.channel[1..], got := s.got + [s.channel[0]])
  }

  /** The first received outcome: a gateway keeps it and drains the rest; an agent without ingress returns
      it at once, and one with ingress stops both servers and drains one more. */
  function OnOutcome(mode: Mode, s: State): State
    requires s.channel != []
  {
    var t := Receive(s).(runError := s.channel[0]);
    match mode
    case Gateway => t.(pc := Stopping(1))
    case Agent(ingress, _) => t.(pc := if ingress then Stopping(1) else Returned(s.channel[0]))
  }

  function OnSignal(mode: Mode, s: State): State
  {
    match mode
    case Gateway => s.(pc := Stopping(2))
    case Agent(ingress, error) => s.(pc := Stopping(if ingress then 2 else 1), runError := error)
  }

  /** A drained outcome: a gateway keeps the first error; an agent discards it. */
  function OnDrain(mode: Mode, s: State): State
    requires s.channel != [] && s.pc.Draining? && s.pc.drain > 0
  {
    var t := Receive(s).(pc := Draining(s.pc.drain - 1));
    if mode.Gateway? && s.runError.None? then t.(runError := s.channel[0]) else t
  }

  /** A send needs room in the channel; a listener closes cleanly once the servers are stopped. */
  predicate Next(mode: Mode, s: State, step: Step, t: State)
  {
    match step
    case Fails(i, e) => i < |s.listeners| && s.listeners[i] == Serving && t == Move(s, i, Sending(Some(e)))
    case Closes(i) => i < |s.listeners| && s.listeners[i] == Serving && s.stopped && t == Move(s, i, Sending(None))
    case Sends(i) =>
      && i < |s.listeners| && s.listeners[i].Sending? && |s.channel| < Capacity(mode)
      && t == Move(s, i, Exited).(channel := s.channel + [s.listeners[i].outcome])
    case Signal => !s.signalled && t == s.(signalled := true)
    case TakesSignal => s.pc.Selecting? && s.signalled && t == OnSignal(mode, s)
    case TakesOutcome => s.pc.Selecting? && s.channel != [] && t == OnOutcome(mode, s)
    case Stops => s.pc.Stopping? && t == s.(stopped := true, pc := Draining(s.pc.drain))
    case Drains => s.pc.Draining? && s.pc.drain > 0 && s.channel != [] && t == OnDrain(mode, s)
    case Returns => s.pc == Draining(0) && t == s.(pc := Returned(s.runError))
  }

  // ------------------------------------------------------------------ counting

  function Sum(ls: seq<Listener>, f: Listener -> nat): nat
  {
    if ls == [] then 0 else f(ls[0]) + Sum(ls[1..], f)
  }

  lemma {:induction false} SumUpdate(ls: seq<Listener>, i: nat, l: Listener, f: Listener -> nat)
    requires i < |ls|
    ensures Sum(ls[i := l], f) + f(ls[i]) == Sum(ls, f) + f(l)
  {
    if i == 0 {
      assert ls[i := l][1..] == ls[1..];
    } else {
      SumUpdate(ls[1..], i - 1, l, f);
      assert ls[i := l][1..] == ls[1..][i - 1 := l];
    }
  }

  lemma {:induction false} SumServing(n: nat, f: Listener -> nat)
    ensures Sum(AllServing(n), f) == n * f(Serving)
  {
    if n > 0 { SumServing(n - 1, f); }
  }

  function Gone(l: Listener): nat { if l.Exited? then 1 else 0 }

  function Exits(ls: seq<Listener>): nat { Sum(ls, Gone) }

  lemma {:induction false} ExitsBound(ls: seq<Listener>)
    ensures Exits(ls) <= |ls|
    ensures Exits(ls) == |ls| <==> forall i :: 0 <= i < |ls| ==> ls[i].Exited?
  {
    if ls != [] {
      ExitsBound(ls[1..]);
      assert forall i :: 1 <= i < |ls| ==> ls[i] == ls[1..][i - 1];
      assert (forall i :: 0 <= i < |ls| ==> ls[i].Exited?) <==>
               ls[0].Exited? && forall i :: 0 <= i < |ls[1..]| ==> ls[1..][i].Exited?;
    }
  }

  /** The first error among the outcomes. */
  function FirstError(log: seq<Outcome>): Outcome
  {
    if log == [] then None else
      var before := FirstError(log[..|log| - 1]);
      if before.Some? then before else log[|log| - 1]
  }

  function Owed(pc: Pc): nat
  {
    match pc case Selecting => 0 case Stopping(d) => d case Draining(d) => d case Returned(_) => 0
  }

  /** Every exit is one outcome, received or waiting; what has been received and what is still to be
      drained make up the launched listeners. */
  predicate Inv(mode: Mode, s: State)
  {
    && |s.listeners| == Launched(mode)
    && Exits(s.listeners) == |s.channel| + |s.got|
    && (s.pc.Selecting? ==> s.got == [] && s.runError == None)
    && (!s.pc.Selecting? ==> |s.got| + Owed(s.pc) == Launched(mode))
    && (s.pc.Draining? ==> s.stopped)
    && (s.pc.Returned? ==> s.pc.result == s.runError)
    && (mode.Gateway? ==> s.runError == FirstError(s.got))
  }

  lemma InitKeeps(mode: Mode)
    ensures Inv(mode, Init(mode))
  {
    SumServing(Launched(mode), Gone);
  }

  lemma ReceiveLogs(s: State)
    requires s.channel != []
    ensures FirstError(Receive(s).got) == if FirstError(s.got).Some? then FirstError(s.got) else s.channel[0]
  {
    assert (s.got + [s.channel[0]])[..|s.got|] == s.got;
  }

  /** A listener's move keeps the invariant: it exits exactly when its outcome enters the channel. */
  lemma ListenerKeeps(mode: Mode, s: State, i: nat, l: Listener, sent: seq<Outcome>)
    requires Inv(mode, s) && i < |s.listeners| && !s.listeners[i].Exited? && |sent| == Gone(l)
    ensures Inv(mode, Move(s, i, l).(channel := s.channel + sent))
  {
    SumUpdate(s.listeners, i, l, Gone);
  }

  lemma OutcomeKeeps(mode: Mode, s: State)
    requires Inv(mode, s) && s.pc.Selecting? && s.channel != []
    ensures Inv(mode, OnOutcome(mode, s))
  {
    ReceiveLogs(s);
  }

  lemma DrainKeeps(mode: Mode, s: State)
    requires Inv(mode, s) && s.pc.Draining? && s.pc.drain > 0 && s.channel != []
    ensures Inv(mode, OnDrain(mode, s))
  {
    ReceiveLogs(s);
  }

  /** What the main routine and the signal do without receiving. */
  lemma QuietKeeps(mode: Mode, s: State, step: Step, t: State)
    requires Inv(mode, s) && Next(mode, s, step, t) && (step.Signal? || step.TakesSignal? || step.Stops? ||
                                                        step.Returns?)
    ensures Inv(mode, t)
  {
  }

  lemma StepKeeps(mode: Mode, s: State, step: Step, t: State)
    requires Inv(mode, s) && Next(mode, s, step, t)
    ensures Inv(mode, t)
  {
    match step
    case Fails(i, e) =>
      ListenerKeeps(mode, s, i, Sending(Some(e)), []);
      assert s.channel + [] == s.channel;
    case Closes(i) =>
      ListenerKeeps(mode, s, i, Sending(None), []);
      assert s.channel + [] == s.channel;
    case Sends(i) => ListenerKeeps(mode, s, i, Exited, [s.listeners[i].outcome]);
    case TakesOutcome => OutcomeKeeps(mode, s);
    case Drains => DrainKeeps(mode, s);
    case _ => QuietKeeps(mode, s, step, t);
  }

  // ------------------------------------------------------------------ runs

  ghost predicate StepAt(mode: Mode, run: seq<State>, steps: seq<Step>, i: nat)
    requires |run| == |steps| + 1 && i < |steps|
  {
    Next(mode, run[i], steps[i], run[i + 1])
  }

  ghost predicate IsRun(mode: Mode, run: seq<State>, steps: seq<Step>)
  {
    && |run| == |steps| + 1 && run[0] == Init(mode)
    && forall i: nat {:trigger StepAt(mode, run, steps, i)} :: i < |steps| ==> StepAt(mode, run, steps, i)
  }

  lemma {:induction false} RunKeeps(mode: Mode, run: seq<State>, steps: seq<Step>, n: nat)
    requires IsRun(mode, run, steps) && n < |run|
    ensures Inv(mode, run[n])
  {
    if n == 0 {
      InitKeeps(mode);
    } else {
      RunKeeps(mode, run, steps, n - 1);
      assert StepAt(mode, run, steps, n - 1);
      StepKeeps(mode, run[n - 1], steps[n - 1], run[n]);
    }
  }

  /** No listener ever blocks on its send: whenever one is about to, the channel has room. */
  lemma SendsNeverBlock(mode: Mode, run: seq<State>, steps: seq<Step>, n: nat, i: nat)
    requires IsRun(mode, run, steps) && n < |run| && i < |run[n].listeners| && run[n].listeners[i].Sending?
    ensures |run[n].channel| < Capacity(mode)
  {
    RunKeeps(mode, run, steps, n);
    ExitsBound(run[n].listeners);
  }

  /** The main routine returns only after one outcome per launched listener, with every listener gone; a
      gateway's result is the first error received, an agent's is the first outcome or, after a signal,
      the shutdown error. */
  lemma ReturnIsComplete(mode: Mode, run: seq<State>, steps: seq<Step>, n: nat)
    requires IsRun(mode, run, steps) && n < |run| && run[n].pc.Returned?
    ensures |run[n].got| == Launched(mode) && run[n].channel == []
    ensures forall i :: 0 <= i < |run[n].listeners| ==> run[n].listeners[i].Exited?
    ensures mode.Gateway? ==> run[n].pc.result == FirstError(run[n].got)
    ensures mode.Agent? ==>
              run[n].pc.result == run[n].got[0] || (run[n].signalled && run[n].pc.result == mode.shutdownError)
  {
    RunKeeps(mode, run, steps, n);
    ExitsBound(run[n].listeners);
    if mode.Agent? { AgentResult(mode, run, steps, n); }
  }

  lemma {:induction false} AgentResult(mode: Mode, run: seq<State>, steps: seq<Step>, n: nat)
    requires IsRun(mode, run, steps) && n < |run| && mode.Agent? && !run[n].pc.Selecting?
    ensures (run[n].got != [] && run[n].runError == run[n].got[0]) ||
            (run[n].signalled && run[n].runError == mode.shutdownError)
  {
    assert n > 0;
    assert StepAt(mode, run, steps, n - 1);
    RunKeeps(mode, run, steps, n - 1);
    if !run[n - 1].pc.Selecting? { AgentResult(mode, run, steps, n - 1); }
  }

  // ------------------------------------------------------------------ it always ends

  /** A step the program itself will take: everything but new failures and signals. */
  ghost predicate Progresses(mode: Mode, s: State, step: Step)
  {
    !step.Fails? && !step.Signal? && exists t :: Next(mode, s, step, t)
  }

  lemma NextExists(mode: Mode, s: State, step: Step, t: State)
    requires Next(mode, s, step, t) && !step.Fails? && !step.Signal?
    ensures Progresses(mode, s, step)
  {
  }

  /** No deadlock: once a signal or an outcome has arrived, some step of the program can be taken until
      the main routine has returned. */
  lemma NeverStuck(mode: Mode, run: seq<State>, steps: seq<Step>, n: nat) returns (step: Step)
    requires IsRun(mode, run, steps) && n < |run| && !run[n].pc.Returned?
    requires run[n].pc.Selecting? ==> run[n].signalled || run[n].channel != []
    ensures Progresses(mode, run[n], step)
  {
    var s := run[n];
    RunKeeps(mode, run, steps, n);
    match s.pc
    case Selecting =>
      if s.channel != [] { NextExists(mode, s, TakesOutcome, OnOutcome(mode, s)); return TakesOutcome; }
      NextExists(mode, s, TakesSignal, OnSignal(mode, s));
      return TakesSignal;
    case Stopping(d) =>
      NextExists(mode, s, Stops, s.(stopped := true, pc := Draining(d)));
      return Stops;
    case Draining(d) =>
      if d == 0 { NextExists(mode, s, Returns, s.(pc := Returned(s.runError))); return Returns; }
      if s.channel != [] { NextExists(mode, s, Drains, OnDrain(mode, s)); return Drains; }
      ExitsBound(s.listeners);
      var i :| 0 <= i < |s.listeners| && !s.listeners[i].Exited?;
      if s.listeners[i] == Serving { NextExists(mode, s, Closes(i), Move(s, i, Sending(None))); return Closes(i); }
      SendsNeverBlock(mode, run, steps, n, i);
      NextExists(mode, s, Sends(i), Move(s, i, Exited).(channel := s.channel + [s.listeners[i].outcome]));
      return Sends(i);
  }

  function Work(l: Listener): nat { match l case Serving => 3 case Sending(_) => 2 case Exited => 0 }

  function Rank(pc: Pc): nat
  {
    match pc case Selecting => 3 case Stopping(_) => 2 case Draining(_) => 1 case Returned(_) => 0
  }

  function Remaining(s: State): nat
  {
    Sum(s.listeners, Work) + |s.channel| + Rank(s.pc) + if s.signalled then 0 else 1
  }

  lemma StepDecreases(mode: Mode, s: State, step: Step, t: State)
    requires Next(mode, s, step, t)
    ensures Remaining(t) < Remaining(s)
  {
    match step
    case Fails(i, e) => SumUpdate(s.listeners, i, Sending(Some(e)), Work);
    case Closes(i) => SumUpdate(s.listeners, i, Sending(None), Work);
    case Sends(i) => SumUpdate(s.listeners, i, Exited, Work);
    case _ =>
  }

  /** Every run is finite: at most three steps a listener, and four more. */
  lemma {:induction false} RunsAreShort(mode: Mode, run: seq<State>, steps: seq<Step>, n: nat)
    requires IsRun(mode, run, steps) && n < |run|
    ensures n + Remaining(run[n]) <= 3 * Launched(mode) + 4
  {
    if n == 0 {
      SumServing(Launched(mode), Work);
    } else {
      RunsAreShort(mode, run, steps, n - 1);
      assert StepAt(mode, run, steps, n - 1);
      StepDecreases(mode, run[n - 1], steps[n - 1], run[n]);
    }
  }

  // ------------------------------------------------------------------ the gateway's select and drain, as a loop

  /** `log` is what the channel delivers, in order; `signalled` whether the select took the signal. */
  method GatewayDrain(log: seq<Outcome>, signalled: bool) returns (runError: Outcome, received: nat)
    requires |log| == 2
    ensures received == 2 && runError == FirstError(log)
  {
    runError, received := None, 0;
    if !signalled {
      received := 1;
      if log[0].Some? { runError := log[0]; }
      assert log[..1][..0] == [] && log[..1] == [log[0]];
    }
    while received < 2
      invariant received <= 2 && runError == FirstError(log[..received])
    {
      assert log[..received + 1][..received] == log[..received];
      if log[received].Some? && runError.None? { runError := log[received]; }
      received := received + 1;
    }
    assert log[..2] == log;
  }
}
