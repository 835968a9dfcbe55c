/**
 The blob serve manager: peer-facing listeners on ports drawn from a range, each gated by a per-op
 token, torn down by whichever of four paths claims it first (TTL callback, stop-by-token, Close, or
 losing the race against Close).

 The effect of each critical section is a function here. The classes hold the state the source guards with
 mutexes, and their methods have those effects; the machine in `BlobServeRuns` interleaves the same effects
 over any number of calls.
 */
module BlobServe {
  import opened Options

  /** The part of an activeServe that the claim paths look at; `id` is its identity as an object. */
  datatype Entry = Entry(id: nat, port: int, token: string)

  /** `r` is the first free port of [start, end], or None when every port of it is in use. */
  predicate FirstFree(start: int, end: int, used: set<int>, r: Option<int>)
  {
    match r
    case Some(p) => start <= p <= end && p !in used && forall q :: start <= q < p ==> q in used
    case None => forall q :: start <= q <= end ==> q in used
  }

  // ------------------------------------------------------------------ the effects of the critical sections

  function Taking(used: set<int>, r: Option<int>): set<int> { match r case Some(p) => used + {p} case None => used }

  function Freeing(used: set<int>, port: int): set<int> { used - {port} }

  function Granting(tokens: map<string, string>, token: string, digest: string): map<string, string>
  {
    tokens[token := digest]
  }

  function Revoking(tokens: map<string, string>, token: string): map<string, string> { tokens - {token} }

  /** A token authorizes exactly the digest it was primed with. */
  function VerifyToken(tokens: map<string, string>, token: string, digest: string): (r: Option<string>)
    ensures r == Some(digest) || r == None
    ensures r.Some? <==> token in tokens && tokens[token] == digest
  {
    if token !in tokens || tokens[token] != digest then None else Some(tokens[token])
  }

  function EntryAt(active: map<int, Entry>, port: int): Option<Entry>
  {
    if port in active then Some(active[port]) else None
  }

  /** Publishing a serve is refused once the manager is closed. */
  function Publishing(active: map<int, Entry>, closed: bool, e: Entry): map<int, Entry>
  {
    if closed then active else active[e.port := e]
  }

  function Unlisting(active: map<int, Entry>, port: int): map<int, Entry> { active - {port} }

  // ------------------------------------------------------------------ the classes

  class PortAllocator {
    const start: int
    const end: int
    var used: set<int>

    constructor (start: int, end: int)
      ensures this.start == start && this.end == end && used == {}
    {
      this.start, this.end, used := start, end, {};
    }

    method Reserve() returns (r: Option<int>)
      modifies this
      ensures FirstFree(start, end, old(used), r)
      ensures used == Taking(old(used), r)
    {
      var p := start;
      while p <= end
        invariant used == old(used) && forall q :: start <= q < p ==> q in used
        invariant start <= end ==> p <= end + 1
        decreases end - p
      {
        if p !in used {
          used := used + {p};
          return Some(p);
        }
        p := p + 1;
      }
      return None;
    }

    method Release(port: int)
      modifies this
      ensures used == Freeing(old(used), port)
    {
      used := used - {port};
    }
  }

  class ServeTokenStore {
    var tokens: map<string, string>

    constructor ()
      ensures tokens == map[]
    {
      tokens := map[];
    }

    method Prime(token: string, digest: string)
      modifies this
      ensures tokens == Granting(old(tokens), token, digest)
    {
      tokens := tokens[token := digest];
    }

    method Drop(token: string)
      modifies this
      ensures tokens == Revoking(old(tokens), token)
    {
      tokens := tokens - {token};
    }

    method Verify(token: string, digest: string) returns (r: Option<string>)
      ensures r == VerifyToken(tokens, token, digest)
    {
      if token !in tokens || tokens[token] != digest {
        return None;
      }
      return Some(tokens[token]);
    }
  }

  lemma Inhabited(s: set<int>)
    ensures s == {} || exists x :: x in s
  {
    if forall x :: x !in s { assert s == {}; }
  }

  /** The serves of these entries, forgotten: their ports and tokens given back, in one go. */
  function PortsOf(entries: map<int, Entry>): set<int> { set p | p in entries :: entries[p].port }

  function TokensOf(entries: map<int, Entry>): set<string> { set p | p in entries :: entries[p].token }

  function IdsOf(entries: map<int, Entry>): set<nat> { set p | p in entries :: entries[p].id }

  /** `open` and `armed` hold the serves whose listener is open and whose timer is armed. */
  class BlobServeManager {
    const ports: PortAllocator
    const verifier: ServeTokenStore
    var active: map<int, Entry>
    var closed: bool
    var open: set<nat>
    var armed: set<nat>

    constructor (ports: PortAllocator)
      ensures this.ports == ports && fresh(verifier) && verifier.tokens == map[]
      ensures active == map[] && !closed && open == armed == {}
    {
      this.ports := ports;
      verifier := new ServeTokenStore();
      active, closed, open, armed := map[], false, {}, {};
    }

    /** The critical section that publishes a serve. */
    method Register(e: Entry) returns (ok: bool)
      modifies this`active
      ensures ok == !closed && active == Publishing(old(active), closed, e)
    {
      ok := !closed;
      if ok { active := active[e.port := e]; }
    }

    /** Claims whatever is registered under `port`. */
    method TakeServe(port: int) returns (r: Option<Entry>)
      modifies this`active
      ensures r == EntryAt(old(active), port) && active == Unlisting(old(active), port)
    {
      if port !in active { return None; }
      r := Some(active[port]);
      active := active - {port};
    }

    /** Claims a serve carrying `token`; match and removal are one critical section. */
    method TakeServeByToken(token: string) returns (r: Option<Entry>, ghost port: int)
      modifies this`active
      ensures r.None? ==> active == old(active) && forall p :: p in active ==> active[p].token != token
      ensures r.Some? ==>
                r.value.token == token && EntryAt(old(active), port) == r && active == Unlisting(old(active), port)
    {
      var todo: set<int> := active.Keys;
      while todo != {}
        invariant active == old(active)
        invariant forall p :: p in todo ==> p in active
        invariant forall p :: p in active && p !in todo ==> active[p].token != token
        decreases |todo|
      {
        Inhabited(todo);
        var next :| next in todo;
        if active[next].token == token {
          r, port := Some(active[next]), next;
          active := active - {next};
          return;
        }
        todo := todo - {next};
      }
      return None, 0;
    }

    /** Stops the timer, closes the listener, gives the port back and drops the token. */
    method TearDown(e: Entry)
      modifies ports, verifier, this`open, this`armed
      ensures armed == old(armed) - {e.id} && open == old(open) - {e.id}
      ensures ports.used == Freeing(old(ports.used), e.port) &&
              verifier.tokens == Revoking(old(verifier.tokens), e.token)
    {
      armed := armed - {e.id};
      open := open - {e.id};
      ports.Release(e.port);
      verifier.Drop(e.token);
    }

    /** A Serve call; `listens` says whether the port can be bound, and `race` whether Close runs between the
        first check and the registration. A call that fails gives back all it took: what is reserved, primed,
        open and armed afterwards is what there would be without it, with or without that Close. */
    method Serve(id: nat, token: string, digest: string, listens: bool, race: bool) returns (r: Option<Entry>)
      requires token !in verifier.tokens && id !in open && id !in armed
      modifies this, ports, verifier
      ensures r.Some? <==> !old(closed) && !race && listens && !FirstFree(ports.start, ports.end, old(ports.used), None)
      ensures r.Some? ==>
                && r.value.id == id && r.value.token == token
                && FirstFree(ports.start, ports.end, old(ports.used), Some(r.value.port))
                && ports.used == Taking(old(ports.used), Some(r.value.port))
                && verifier.tokens == Granting(old(verifier.tokens), token, digest)
                && active == Publishing(old(active), false, r.value)
                && open == old(open) + {id} && armed == old(armed) + {id}
      ensures r.None? && closed == old(closed) ==>
                && ports.used == old(ports.used) && verifier.tokens == old(verifier.tokens)
                && active == old(active) && open == old(open) && armed == old(armed)
      ensures r.None? && closed != old(closed) ==>
                && ports.used == old(ports.used) - PortsOf(old(active))
                && verifier.tokens == old(verifier.tokens) - TokensOf(old(active))
                && active == map[] && open == old(open) - IdsOf(old(active)) && armed == old(armed) - IdsOf(old(active))
    {
      if closed { return None; }
      var port := ports.Reserve();
      if port.None? { return None; }
      if !listens {
        ports.Release(port.value);
        return None;
      }
      verifier.Prime(token, digest);
      var e := Entry(id, port.value, token);
      open, armed := open + {id}, armed + {id};
      if race { Close(); }
      var ok := Register(e);
      if ok { return Some(e); }
      TearDown(e);
      return None;
    }

    /** A fired timer's callback: it claims by port, and then tears down the serve it captured. */
    method OnTimer(captured: Entry)
      modifies this, ports, verifier
      ensures closed == old(closed) && active == Unlisting(old(active), captured.port)
      ensures if EntryAt(old(active), captured.port).None?
              then && ports.used == old(ports.used) && verifier.tokens == old(verifier.tokens)
                   && open == old(open) && armed == old(armed)
              else && ports.used == Freeing(old(ports.used), captured.port)
                   && verifier.tokens == Revoking(old(verifier.tokens), captured.token)
                   && open == old(open) - {captured.id} && armed == old(armed) - {captured.id}
    {
      var r := TakeServe(captured.port);
      if r.None? { return; }
      TearDown(captured);
    }

    /** Stops the serve carrying `token`, if there is one, and touches no other. */
    method StopByToken(token: string) returns (ghost stopped: Option<Entry>, ghost port: int)
      modifies this, ports, verifier
      ensures closed == old(closed)
      ensures stopped.None? <==> forall p :: p in old(active) ==> old(active)[p].token != token
      ensures stopped.None? ==>
                && active == old(active) && open == old(open) && armed == old(armed)
                && ports.used == old(ports.used) && verifier.tokens == old(verifier.tokens)
      ensures stopped.Some? ==>
                && stopped.value.token == token && EntryAt(old(active), port) == stopped
                && active == Unlisting(old(active), port)
                && ports.used == Freeing(old(ports.used), stopped.value.port)
                && verifier.tokens == Revoking(old(verifier.tokens), token)
                && open == old(open) - {stopped.value.id} && armed == old(armed) - {stopped.value.id}
    {
      var r, at := TakeServeByToken(token);
      stopped, port := r, at;
      if r.Some? { TearDown(r.value); }
    }

    /** The critical section of Close: shuts the manager and claims every registered serve. */
    method TakeAll() returns (taken: map<int, Entry>)
      modifies this`active, this`closed
      ensures closed
      ensures if old(closed) then taken == map[] && active == old(active) else taken == old(active) && active == map[]
    {
      if closed { return map[]; }
      closed := true;
      taken := active;
      active := map[];
    }

    /** Tears down every registered serve, each once; a second Close does nothing. */
    method Close()
      modifies this, ports, verifier
      ensures closed
      ensures old(closed) ==>
                && active == old(active) && open == old(open) && armed == old(armed)
                && ports.used == old(ports.used) && verifier.tokens == old(verifier.tokens)
      ensures !old(closed) ==>
                && active == map[] && ports.used == old(ports.used) - PortsOf(old(active))
                && verifier.tokens == old(verifier.tokens) - TokensOf(old(active))
                && open == old(open) - IdsOf(old(active)) && armed == old(armed) - IdsOf(old(active))
    {
      var taken := TakeAll();
      TearDownAll(taken);
      assert old(closed) ==> PortsOf(taken) == {} && TokensOf(taken) == {} && IdsOf(taken) == {};
    }

    /** Close's loop over the claimed serves. */
    method TearDownAll(taken: map<int, Entry>)
      modifies ports, verifier, this`open, this`armed
      ensures ports.used == old(ports.used) - PortsOf(taken)
      ensures verifier.tokens == old(verifier.tokens) - TokensOf(taken)
      ensures open == old(open) - IdsOf(taken) && armed == old(armed) - IdsOf(taken)
    {
      var rest := taken;
      while rest != map[]
        invariant ports.used - PortsOf(rest) == old(ports.used) - PortsOf(taken)
        invariant verifier.tokens - TokensOf(rest) == old(verifier.tokens) - TokensOf(taken)
        invariant open - IdsOf(rest) == old(open) - IdsOf(taken) && armed - IdsOf(rest) == old(armed) - IdsOf(taken)
        decreases rest.Keys
      {
        Inhabited(rest.Keys);
        var p :| p in rest.Keys;
        var e, left := rest[p], rest - {p};
        assert rest == left[p := e];
        TornGrows(left, p, e);
        SetMinus(ports.used, e.port, PortsOf(left));
        MapMinus(verifier.tokens, e.token, TokensOf(left));
        SetMinus(open, e.id, IdsOf(left));
        SetMinus(armed, e.id, IdsOf(left));
        TearDown(e);
        rest := left;
      }
    }
  }

  lemma SetMinus<T>(s: set<T>, x: T, rest: set<T>)
    ensures (s - {x}) - rest == s - (rest + {x})
  {
  }

  lemma MapMinus(m: map<string, string>, x: string, rest: set<string>)
    ensures (m - {x}) - rest == m - (rest + {x})
  {
  }

  lemma TornGrows(torn: map<int, Entry>, p: int, e: Entry)
    requires p !in torn
    ensures PortsOf(torn[p := e]) == PortsOf(torn) + {e.port} && TokensOf(torn[p := e]) == TokensOf(torn) + {e.token}
    ensures IdsOf(torn[p := e]) == IdsOf(torn) + {e.id}
  {
    var more := torn[p := e];
    assert forall q :: q in torn ==> more[q] == torn[q];
    assert more[p] == e;
  }
}
