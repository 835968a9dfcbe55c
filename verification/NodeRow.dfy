/**
 casNodeUpdate: read a node row with its ModRevision, mutate a copy, commit the whole row under a
 compare-and-set on that revision, and retry a bounded number of times on a lost race.
 */
module NodeRow {
  import opened Options

  datatype Node = Node(deleted: bool, fields: map<string, string>)

  const MAX_ATTEMPTS: nat := 5

  /** A committed transaction on the node's key. */
  datatype Write = Put(node: Node) | Delete

  datatype Result = Updated(node: Node) | NotFound | ConcurrentUpdate | TxnError

  /** The commit of one attempt reports an error, whether or not etcd applied the transaction. */
  datatype Fault = Fault(attempt: nat, applied: bool)

  /** The row one commit leaves behind. */
  function After(w: Write): Option<Node> { match w case Put(n) => Some(n) case Delete => None }

  /** The commits on the key, latest outermost. */
  datatype Log = Empty | Then(prior: Log, last: Write)

  /** The row the commits leave behind. */
  function Replay(log: Log): Option<Node> { match log case Empty => None case Then(_, w) => After(w) }

  predicate Live(row: Option<Node>) { row.Some? && !row.value.deleted }

  function Append(log: Log, ws: seq<Write>): Log
  {
    if ws == [] then log else Then(Append(log, ws[..|ws| - 1]), ws[|ws| - 1])
  }

  lemma AppendOne(log: Log, ws: seq<Write>, i: nat)
    requires i < |ws|
    ensures Append(log, ws[..i + 1]) == Then(Append(log, ws[..i]), ws[i])
  {
    assert ws[..i + 1][..i] == ws[..i];
  }

  /** The commits after the first `k` attempts, when only others committed: before each read, and between each
      read and its transaction. */
  function Foreign(base: Log, before: seq<seq<Write>>, between: seq<seq<Write>>, k: nat): Log
    requires k <= |before| && k <= |between|
  {
    if k == 0 then base else Append(Append(Foreign(base, before, between, k - 1), before[k - 1]), between[k - 1])
  }

  /** After `seen` the row was live, and the update of it was committed next. */
  ghost predicate Landed(seen: Log, mutate: Node -> Node, log: Log)
  {
    Live(Replay(seen)) && log == Then(seen, Put(mutate(Replay(seen).value)))
  }

  /** What one attempt starting at `base` may come to, with `before` committed by others before its read
      and `between` before its transaction: the update of the live row, committed last; after a
      transaction error, that or nothing; not found, nothing and no live row; a lost race (no result),
      nothing and some foreign write in between. */
  ghost predicate Ended(base: Log, before: seq<Write>, between: seq<Write>, mutate: Node -> Node, r: Option<Result>,
                        log: Log)
  {
    var seen := Append(Append(base, before), between);
    match r
    case None => log == seen && between != []
    case Some(result) =>
      match result
      case Updated(n) => Landed(seen, mutate, log) && log.last == Put(n)
      case TxnError => Landed(seen, mutate, log) || log == seen
      case NotFound => log == Append(base, before) && !Live(Replay(log))
      case ConcurrentUpdate => false
  }

  /** The node's key in etcd: the row, the revision of its last write (0 when absent), the store's
      revision and the commits so far. */
  class NodeKey {
    var row: Option<Node>
    var modRev: nat
    var rev: nat
    ghost var log: Log

    ghost predicate Valid()
      reads this
    {
      row == Replay(log) && (row.Some? ==> 1 <= modRev <= rev) && (row.None? ==> modRev == 0)
    }

    constructor ()
      ensures Valid() && log == Empty
    {
      row, modRev, rev, log := None, 0, 0, Empty;
    }

    /** Commits one write of any client. */
    method Apply(w: Write)
      requires Valid()
      modifies this
      ensures Valid() && log == Then(old(log), w) && rev == old(rev) + 1
      ensures modRev == 0 || modRev == rev
    {
      rev, log := rev + 1, Then(log, w);
      match w {
        case Put(n) => row, modRev := Some(n), rev;
        case Delete => row, modRev := None, 0;
      }
    }

    /** Other clients commit `ws`: if they commit anything, a revision read before no longer matches. */
    method Interfere(ws: seq<Write>)
      requires Valid()
      modifies this
      ensures Valid() && log == Append(old(log), ws) && rev == old(rev) + |ws|
      ensures ws == [] ==> row == old(row) && modRev == old(modRev)
      ensures ws != [] ==> modRev == 0 || modRev > old(rev)
    {
      var i := 0;
      while i < |ws|
        invariant i <= |ws| && Valid() && log == Append(old(log), ws[..i]) && rev == old(rev) + i
        invariant i == 0 ==> row == old(row) && modRev == old(modRev)
        invariant i > 0 ==> modRev == 0 || modRev > old(rev)
      {
        AppendOne(old(log), ws, i);
        Apply(ws[i]);
        i := i + 1;
      }
      assert ws[..i] == ws;
    }

    /** One read, mutate and compare-and-set. */
    method Attempt(mutate: Node -> Node, before: seq<Write>, between: seq<Write>, faulted: Option<bool>)
      returns (r: Option<Result>)
      requires Valid()
      modifies this
      ensures Valid() && Ended(old(log), before, between, mutate, r, log)
    {
      Interfere(before);
      if row.None? || row.value.deleted { return Some(NotFound); }
      var n, seen := mutate(row.value), modRev;
      ghost var current := row;
      Interfere(between);
      if faulted.Some? {
        if faulted.value && modRev == seen { Apply(Put(n)); }
        return Some(TxnError);
      }
      if modRev == seen {
        assert row == current;
        Apply(Put(n));
        return Some(Updated(n));
      }
      return None;
    }

    /** Whatever the other clients do, attempt `at`, begun when the commits were `start`, ended the call; every
        earlier one lost a race to a foreign write and wrote nothing; giving up means that a foreign write
        landed inside each of the five attempts. */
    method CasNodeUpdate(mutate: Node -> Node, before: seq<seq<Write>>, between: seq<seq<Write>>, fault: Option<Fault>)
      returns (r: Result, ghost at: nat, ghost start: Log)
      requires Valid() && |before| == |between| == MAX_ATTEMPTS
      modifies this
      ensures Valid() && at <= MAX_ATTEMPTS && start == Foreign(old(log), before, between, at)
      ensures at < MAX_ATTEMPTS ==> Ended(start, before[at], between[at], mutate, Some(r), log)
      ensures at == MAX_ATTEMPTS ==> r == ConcurrentUpdate && log == start
      ensures forall i :: 0 <= i < at ==> between[i] != []
    {
      ghost var base := log;
      at, start := 0, log;
      var attempt := 0;
      while attempt < MAX_ATTEMPTS
        invariant attempt == at <= MAX_ATTEMPTS && Valid() && log == start == Foreign(base, before, between, at)
        invariant forall i :: 0 <= i < at ==> between[i] != []
      {
        var faulted := if fault.Some? && fault.value.attempt == attempt then Some(fault.value.applied) else None;
        var outcome := Attempt(mutate, before[attempt], between[attempt], faulted);
        if outcome.Some? { return outcome.value, at, start; }
        attempt, at, start := attempt + 1, at + 1, log;
      }
      return ConcurrentUpdate, at, start;
    }
  }
}
