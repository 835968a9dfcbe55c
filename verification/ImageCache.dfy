/**
 The image cache's eviction pass: how much to reclaim, the coldest-first order, and the loop that deletes
 victims it can lock until the target is met. Time stamps, lock holders, the free-space probe and the
 outcome of each file removal are given from outside.
 */
module ImageCache {
  import opened Options

  datatype Entry = Entry(digest: nat, size: nat)

  datatype Cand = Cand(digest: nat, size: nat, mtime: int)

  /** What happens when the pass reaches a victim: a create holds its lock; the deletion succeeds; the
      blob file cannot be removed; or the blob is removed but its sidecar cannot be, which the store
      reports as a failed deletion. */
  datatype Fate = Locked | Deleted | BlobStuck | SidecarStuck

  datatype Config = Config(maxBytes: int, minFreeBytes: int)

  datatype Report = Disabled | ListFailed | UnderLimits | Cancelled(reclaimed: nat) | Done(reclaimed: nat, need: nat)

  // ------------------------------------------------------------------ what a pass is about

  /** The bytes of the listed blobs whose digests are in `keep`. */
  function Bytes(entries: seq<Entry>, keep: set<nat>): nat
  {
    if entries == [] then 0 else (if entries[0].digest in keep then entries[0].size else 0) + Bytes(entries[1..], keep)
  }

  ghost predicate DistinctEntries(entries: seq<Entry>)
  {
    forall i, j :: 0 <= i < j < |entries| ==> entries[i].digest != entries[j].digest
  }

  ghost predicate Lists(entries: seq<Entry>, blobs: map<nat, nat>)
  {
    && DistinctEntries(entries)
    && (forall e :: e in entries ==> e.digest in blobs && blobs[e.digest] == e.size)
    && (forall d :: d in blobs ==> Entry(d, blobs[d]) in entries)
  }

  /** The entries that stat, with the time stamps they stat with. */
  function Cands(entries: seq<Entry>, stat: nat -> Option<int>): seq<Cand>
  {
    if entries == [] then [] else
      (match stat(entries[0].digest) case Some(t) => [Cand(entries[0].digest, entries[0].size, t)] case None => []) +
          Cands(entries[1..], stat)
  }

  ghost predicate Sorted(cands: seq<Cand>) { forall i, j :: 0 <= i < j < |cands| ==> cands[i].mtime <= cands[j].mtime }

  predicate Apart(cands: seq<Cand>, i: nat, j: nat)
    requires i < |cands| && j < |cands|
  {
    cands[i].digest != cands[j].digest
  }

  ghost predicate DistinctCands(cands: seq<Cand>)
  {
    forall i: nat, j: nat {:trigger Apart(cands, i, j)} :: i < j < |cands| ==> Apart(cands, i, j)
  }

  /** A coldest-first order of the candidates; among equal time stamps any order will do. */
  ghost predicate IsOrder(order: seq<Cand>, entries: seq<Entry>, stat: nat -> Option<int>)
  {
    Sorted(order) && DistinctCands(order) && multiset(order) == multiset(Cands(entries, stat))
  }

  predicate Removes(f: Fate) { f == Deleted || f == SidecarStuck }

  /** The bytes the first `k` victims count as reclaimed. */
  function Freed(order: seq<Cand>, fate: nat -> Fate, k: nat): nat
    requires k <= |order|
  {
    if k == 0 then 0 else
      var c := order[k - 1];
      Freed(order, fate, k - 1) + if fate(c.digest) == Deleted then c.size else 0
  }

  /** The bytes the first `k` victims remove without counting them. */
  function Uncounted(order: seq<Cand>, fate: nat -> Fate, k: nat): nat
    requires k <= |order|
  {
    if k == 0 then 0 else
      var c := order[k - 1];
      Uncounted(order, fate, k - 1) + if fate(c.digest) == SidecarStuck then c.size else 0
  }

  /** The digests whose blobs the first `k` victims remove. */
  function Gone(order: seq<Cand>, fate: nat -> Fate, k: nat): set<nat>
    requires k <= |order|
  {
    if k == 0 then {} else
      var c := order[k - 1];
      Gone(order, fate, k - 1) + if Removes(fate(c.digest)) then {c.digest} else {}
  }

  /** The first `j` victims do not reach the target. */
  predicate FallsShort(order: seq<Cand>, fate: nat -> Fate, need: nat, j: nat)
    requires j <= |order|
  {
    Freed(order, fate, j) < need
  }

  /** `stop` victims are visited: no shorter run reaches the target, and this one does or there are no more. */
  ghost predicate IsStop(order: seq<Cand>, fate: nat -> Fate, need: nat, stop: nat)
  {
    && stop <= |order|
    && (forall j: nat {:trigger FallsShort(order, fate, need, j)} :: j < stop ==> FallsShort(order, fate, need, j))
    && (stop == |order| || Freed(order, fate, stop) >= need)
  }

  // ------------------------------------------------------------------ lemmas

  lemma {:induction false} BytesOfAll(entries: seq<Entry>, keep: set<nat>, drop: nat)
    requires forall e :: e in entries ==> e.digest != drop
    ensures Bytes(entries, keep - {drop}) == Bytes(entries, keep)
  {
    if entries != [] {
      assert entries[0].digest != drop;
      BytesOfAll(entries[1..], keep, drop);
    }
  }

  lemma {:induction false} BytesWithout(entries: seq<Entry>, keep: set<nat>, k: nat)
    requires DistinctEntries(entries) && k < |entries| && entries[k].digest in keep
    ensures Bytes(entries, keep) == Bytes(entries, keep - {entries[k].digest}) + entries[k].size
  {
    if k == 0 {
      BytesOfAll(entries[1..], keep, entries[0].digest);
    } else {
      BytesWithout(entries[1..], keep, k - 1);
    }
  }

  lemma {:induction false} CandIsEntry(entries: seq<Entry>, stat: nat -> Option<int>, c: Cand)
    ensures c in Cands(entries, stat) <==> Entry(c.digest, c.size) in entries && stat(c.digest) == Some(c.mtime)
  {
    if entries != [] {
      CandIsEntry(entries[1..], stat, c);
      assert entries == [entries[0]] + entries[1..];
      assert entries[0] == Entry(entries[0].digest, entries[0].size);
    }
  }

  lemma OrderHasCands(order: seq<Cand>, entries: seq<Entry>, stat: nat -> Option<int>, c: Cand)
    requires IsOrder(order, entries, stat)
    ensures c in order <==> Entry(c.digest, c.size) in entries && stat(c.digest) == Some(c.mtime)
  {
    CandIsEntry(entries, stat, c);
    assert c in order <==> c in multiset(order);
    assert c in Cands(entries, stat) <==> c in multiset(Cands(entries, stat));
  }

  lemma {:induction false} InGone(order: seq<Cand>, fate: nat -> Fate, k: nat, j: nat)
    requires j < k <= |order| && Removes(fate(order[j].digest))
    ensures order[j].digest in Gone(order, fate, k)
  {
    if j < k - 1 { InGone(order, fate, k - 1, j); }
  }

  lemma {:induction false} FromGone(order: seq<Cand>, fate: nat -> Fate, k: nat, d: nat) returns (j: nat)
    requires k <= |order| && d in Gone(order, fate, k)
    ensures j < k && order[j].digest == d && Removes(fate(d))
  {
    j := k - 1;
    if d in Gone(order, fate, k - 1) { j := FromGone(order, fate, k - 1, d); }
  }

  /** A victim is not removed before its turn. */
  lemma {:induction false} NotGoneYet(order: seq<Cand>, fate: nat -> Fate, k: nat, m: nat)
    requires DistinctCands(order) && m <= k < |order|
    ensures order[k].digest !in Gone(order, fate, m)
  {
    if m > 0 {
      NotGoneYet(order, fate, k, m - 1);
      assert Apart(order, m - 1, k);
    }
  }

  lemma MinusMinus(m: map<nat, nat>, a: set<nat>, b: set<nat>)
    ensures (m - a) - b == m - (a + b)
  {
  }

  /** Bytes are conserved: what was there is what is left, what was counted, and what was removed by a
      deletion that then failed on the sidecar. */
  lemma {:induction false} PassConserves(entries: seq<Entry>, stat: nat -> Option<int>, order: seq<Cand>,
                                         fate: nat -> Fate, keys: set<nat>, k: nat)
    requires DistinctEntries(entries) && IsOrder(order, entries, stat) && k <= |order|
    requires forall e :: e in entries ==> e.digest in keys
    ensures Bytes(entries, keys) == Bytes(entries, keys - Gone(order, fate, k)) + Freed(order, fate, k) +
            Uncounted(order, fate, k)
  {
    if k == 0 {
      assert keys - {} == keys;
    } else {
      PassConserves(entries, stat, order, fate, keys, k - 1);
      var c, left := order[k - 1], keys - Gone(order, fate, k - 1);
      OrderHasCands(order, entries, stat, c);
      NotGoneYet(order, fate, k - 1, k - 1);
      VictimConserves(entries, left, c, fate(c.digest));
      assert keys - Gone(order, fate, k) == left - if Removes(fate(c.digest)) then {c.digest} else {};
    }
  }

  lemma VictimConserves(entries: seq<Entry>, left: set<nat>, c: Cand, f: Fate)
    requires DistinctEntries(entries) && Entry(c.digest, c.size) in entries && c.digest in left
    ensures Bytes(entries, left) == Bytes(entries, left - if Removes(f) then {c.digest} else {}) +
            (if f == Deleted then c.size else 0) + (if f == SidecarStuck then c.size else 0)
  {
    var i :| 0 <= i < |entries| && entries[i] == Entry(c.digest, c.size);
    BytesWithout(entries, left, i);
    assert left - {} == left;
  }

  /** So bytes are conserved exactly when no victim of positive size lost its blob to a deletion that then
      failed on the sidecar. */
  lemma {:induction false} PassConservesIff(entries: seq<Entry>, stat: nat -> Option<int>, order: seq<Cand>,
                                            fate: nat -> Fate, keys: set<nat>, k: nat)
    requires DistinctEntries(entries) && IsOrder(order, entries, stat) && k <= |order|
    requires forall e :: e in entries ==> e.digest in keys
    ensures Bytes(entries, keys) == Bytes(entries, keys - Gone(order, fate, k)) + Freed(order, fate, k) <==>
            forall j :: 0 <= j < k && fate(order[j].digest) == SidecarStuck ==> order[j].size == 0
  {
    PassConserves(entries, stat, order, fate, keys, k);
    UncountedIsZeroIff(order, fate, k);
  }

  lemma {:induction false} UncountedIsZeroIff(order: seq<Cand>, fate: nat -> Fate, k: nat)
    requires k <= |order|
    ensures Uncounted(order, fate, k) == 0 <==>
              forall j :: 0 <= j < k && fate(order[j].digest) == SidecarStuck ==> order[j].size == 0
  {
    if k > 0 {
      UncountedIsZeroIff(order, fate, k - 1);
    }
  }

  /** A single seven-byte blob whose sidecar sticks: it is gone, and nothing is counted. */
  lemma StuckSidecarLosesBytes(stuck: nat -> Fate)
    requires stuck(0) == SidecarStuck
    ensures var entries, order := [Entry(0, 7)], [Cand(0, 7, 0)];
            Bytes(entries, {0}) == 7 && Bytes(entries, {0} - Gone(order, stuck, 1)) == 0 && Freed(order, stuck, 1) == 0
  {
    var order := [Cand(0, 7, 0)];
    InGone(order, stuck, 1, 0);
  }

  /** A pass that deletes a blob leaves a colder candidate behind only if it was locked or its deletion failed. */
  lemma EvictionIsLru(entries: seq<Entry>, stat: nat -> Option<int>, order: seq<Cand>, fate: nat -> Fate, stop: nat,
                      colder: Cand, evicted: Cand)
    requires IsOrder(order, entries, stat) && stop <= |order|
    requires Entry(colder.digest, colder.size) in entries && stat(colder.digest) == Some(colder.mtime)
    requires evicted in order && evicted.digest in Gone(order, fate, stop) && colder.mtime < evicted.mtime
    ensures colder.digest in Gone(order, fate, stop) || fate(colder.digest) == Locked ||
            fate(colder.digest) == BlobStuck
  {
    OrderHasCands(order, entries, stat, colder);
    var i := FromGone(order, fate, stop, evicted.digest);
    var k :| 0 <= k < |order| && order[k] == evicted;
    assert i < k ==> Apart(order, i, k);
    assert k < i ==> Apart(order, k, i);
    var j :| 0 <= j < |order| && order[j] == colder;
    assert j < i;
    if Removes(fate(colder.digest)) { InGone(order, fate, stop, j); }
  }

  /** Without its last deletion the pass would have missed the target: the overshoot is less than that blob. */
  lemma {:induction false} OvershootIsLessThanLast(order: seq<Cand>, fate: nat -> Fate, need: nat, stop: nat)
    returns (last: nat)
    requires IsStop(order, fate, need, stop) && need > 0 && Freed(order, fate, stop) >= need
    ensures last == stop - 1 && fate(order[last].digest) == Deleted &&
            Freed(order, fate, stop) < need + order[last].size
  {
    last := stop - 1;
    assert FallsShort(order, fate, need, last);
  }

  /** The target is missed only when every candidate was deleted, locked, or failed to delete. */
  lemma MissMeansNothingLeft(entries: seq<Entry>, stat: nat -> Option<int>, order: seq<Cand>, fate: nat -> Fate,
                             need: nat, stop: nat, e: Entry)
    requires IsOrder(order, entries, stat) && IsStop(order, fate, need, stop) && Freed(order, fate, stop) < need
    requires e in entries && stat(e.digest).Some?
    ensures e.digest in Gone(order, fate, stop) || fate(e.digest) == Locked || fate(e.digest) == BlobStuck
  {
    var c := Cand(e.digest, e.size, stat(e.digest).value);
    OrderHasCands(order, entries, stat, c);
    var j :| 0 <= j < |order| && order[j] == c;
    if Removes(fate(c.digest)) { InGone(order, fate, stop, j); }
  }

  // ------------------------------------------------------------------ the code

  /** The larger of the two deficits; a failed probe (`free` absent) skips the free-space floor. */
  method BytesToReclaim(entries: seq<Entry>, cfg: Config, free: Option<nat>, keys: set<nat>) returns (need: nat)
    requires forall e :: e in entries ==> e.digest in keys
    ensures cfg.maxBytes > 0 ==> Bytes(entries, keys) <= cfg.maxBytes + need
    ensures cfg.minFreeBytes > 0 && free.Some? ==> cfg.minFreeBytes <= free.value + need
    ensures need > 0 ==>
              (cfg.maxBytes > 0 && Bytes(entries, keys) == cfg.maxBytes + need) ||
                  (free.Some? && cfg.minFreeBytes == free.value + need)
  {
    var total, i := 0, 0;
    while i < |entries|
      invariant i <= |entries| && total + Bytes(entries[i..], keys) == Bytes(entries, keys)
    {
      total := total + entries[i].size;
      assert entries[i..][1..] == entries[i + 1..];
      i := i + 1;
    }
    need := if cfg.maxBytes > 0 && total > cfg.maxBytes then total - cfg.maxBytes else 0;
    if cfg.minFreeBytes <= 0 || free.None? { return; }
    if free.value < cfg.minFreeBytes && cfg.minFreeBytes - free.value > need {
      need := cfg.minFreeBytes - free.value;
    }
  }

  lemma SplicedIsOrdered(cands: seq<Cand>, i: nat, c: Cand)
    requires Sorted(cands) && i <= |cands|
    requires forall j :: 0 <= j < i ==> cands[j].mtime <= c.mtime
    requires i < |cands| ==> c.mtime <= cands[i].mtime
    ensures Sorted(cands[..i] + [c] + cands[i..])
  {
  }

  lemma SplicedIsDistinct(cands: seq<Cand>, i: nat, c: Cand)
    requires DistinctCands(cands) && i <= |cands| && forall d :: d in cands ==> d.digest != c.digest
    ensures DistinctCands(cands[..i] + [c] + cands[i..])
  {
    var more := cands[..i] + [c] + cands[i..];
    forall j: nat, k: nat | j < k < |more| ensures Apart(more, j, k) {
      if j != i && k != i { assert Apart(cands, if j < i then j else j - 1, if k < i then k else k - 1); }
    }
  }

  method Insert(cands: seq<Cand>, c: Cand) returns (r: seq<Cand>)
    requires Sorted(cands) && DistinctCands(cands) && forall d :: d in cands ==> d.digest != c.digest
    ensures Sorted(r) && DistinctCands(r) && multiset(r) == multiset(cands) + multiset{c}
  {
    var i := 0;
    while i < |cands| && cands[i].mtime <= c.mtime
      invariant i <= |cands| && forall j :: 0 <= j < i ==> cands[j].mtime <= c.mtime
    {
      i := i + 1;
    }
    r := cands[..i] + [c] + cands[i..];
    SplicedIsOrdered(cands, i, c);
    SplicedIsDistinct(cands, i, c);
    assert cands == cands[..i] + cands[i..];
  }

  lemma OrderSkips(entries: seq<Entry>, stat: nat -> Option<int>, order: seq<Cand>, i: nat)
    requires i < |entries| && stat(entries[i].digest) == None && IsOrder(order, entries[i + 1..], stat)
    ensures IsOrder(order, entries[i..], stat)
  {
    assert entries[i..][1..] == entries[i + 1..];
    assert Cands(entries[i..], stat) == Cands(entries[i + 1..], stat);
  }

  lemma OrderTakes(entries: seq<Entry>, stat: nat -> Option<int>, order: seq<Cand>, was: multiset<Cand>, i: nat)
    requires i < |entries| && stat(entries[i].digest).Some? && was == multiset(Cands(entries[i + 1..], stat))
    requires Sorted(order) && DistinctCands(order)
    requires multiset(order) == was + multiset{Cand(entries[i].digest, entries[i].size, stat(entries[i].digest).value)}
    ensures IsOrder(order, entries[i..], stat)
  {
    assert entries[i..][1..] == entries[i + 1..];
    assert Cands(entries[i..], stat) == [Cand(entries[i].digest, entries[i].size, stat(entries[i].digest).value)] +
           Cands(entries[i + 1..], stat);
  }

  lemma CandsAreFresh(entries: seq<Entry>, stat: nat -> Option<int>, order: seq<Cand>, i: nat)
    requires i < |entries| && DistinctEntries(entries) && IsOrder(order, entries[i + 1..], stat)
    ensures forall d :: d in order ==> d.digest != entries[i].digest
  {
    forall d | d in order ensures d.digest != entries[i].digest {
      OrderHasCands(order, entries[i + 1..], stat, d);
      var k :| 0 <= k < |entries[i + 1..]| && entries[i + 1..][k] == Entry(d.digest, d.size);
      assert entries[i + 1 + k].digest == d.digest;
    }
  }

  /** Adds entry `i` to an order of the entries after it, if it stats. */
  method Place(entries: seq<Entry>, stat: nat -> Option<int>, order: seq<Cand>, i: nat) returns (r: seq<Cand>)
    requires i < |entries| && DistinctEntries(entries) && IsOrder(order, entries[i + 1..], stat)
    ensures IsOrder(r, entries[i..], stat)
  {
    match stat(entries[i].digest) {
      case None =>
        OrderSkips(entries, stat, order, i);
        return order;
      case Some(t) =>
        CandsAreFresh(entries, stat, order, i);
        r := Insert(order, Cand(entries[i].digest, entries[i].size, t));
        OrderTakes(entries, stat, r, multiset(order), i);
    }
  }

  method ColdestFirst(entries: seq<Entry>, stat: nat -> Option<int>) returns (order: seq<Cand>)
    requires DistinctEntries(entries)
    ensures IsOrder(order, entries, stat)
  {
    order := [];
    var i: nat := |entries|;
    while i > 0
      invariant i <= |entries| && IsOrder(order, entries[i..], stat)
    {
      i := i - 1;
      order := Place(entries, stat, order, i);
    }
    assert entries[0..] == entries;
  }

  class ImageStore {
    var blobs: map<nat, nat>
    var sidecars: set<nat>

    constructor ()
      ensures blobs == map[] && sidecars == {}
    {
      blobs, sidecars := map[], {};
    }

    /** Removes the blob and then the sidecar; a file that is not there is no error. It fails exactly when a
        file is there and cannot be removed, and a failure on the sidecar comes after the blob is gone. */
    method Delete(digest: nat, blobFails: bool, sidecarFails: bool) returns (ok: bool)
      modifies this
      ensures ok <==> !(digest in old(blobs) && blobFails) && !(digest in old(sidecars) && sidecarFails)
      ensures ok ==> digest !in blobs && digest !in sidecars
      ensures blobs == if digest in old(blobs) && blobFails then old(blobs) else old(blobs) - {digest}
      ensures sidecars == if ok then old(sidecars) - {digest} else old(sidecars)
    {
      if digest in blobs {
        if blobFails { return false; }
        blobs := blobs - {digest};
      }
      if digest in sidecars {
        if sidecarFails { return false; }
        sidecars := sidecars - {digest};
      }
      return true;
    }

    /** A victim's fate is possible: the file that cannot be removed is there. */
    predicate Possible(digest: nat, fate: Fate)
      reads this
    {
      digest in blobs && (fate == SidecarStuck ==> digest in sidecars)
    }

    /** The fates of the victims from position k on are possible. */
    ghost predicate TailPossible(order: seq<Cand>, fate: nat -> Fate, k: nat)
      reads this
    {
      forall j {:trigger order[j]} :: k <= j < |order| ==> Possible(order[j].digest, fate(order[j].digest))
    }

    /** Deletes victim `i`, after the ones before it, unless it is locked, and tells the bytes to count. */
    method Visit(order: seq<Cand>, fate: nat -> Fate, i: nat, ghost before: map<nat, nat>) returns (freed: nat)
      requires i < |order| && DistinctCands(order) && TailPossible(order, fate, i)
      requires blobs == before - Gone(order, fate, i)
      modifies this
      ensures blobs == before - Gone(order, fate, i + 1) &&
              Freed(order, fate, i + 1) == Freed(order, fate, i) + freed
      ensures TailPossible(order, fate, i + 1)
    {
      var c := order[i];
      var f := fate(c.digest);
      MinusMinus(before, Gone(order, fate, i), if Removes(f) then {c.digest} else {});
      forall j: nat | i < j < |order| ensures order[j].digest != c.digest { assert Apart(order, i, j); }
      if f == Locked { return 0; }
      var ok := Delete(c.digest, f == BlobStuck, f == SidecarStuck);
      return if ok then c.size else 0;
    }

    /** Visits victims in order until the target is met or the pass is seen cancelled. */
    method Evict(order: seq<Cand>, fate: nat -> Fate, need: nat, cancel: Option<nat>)
      returns (reclaimed: nat, stop: nat, cancelled: bool)
      requires DistinctCands(order) && TailPossible(order, fate, 0)
      modifies this
      ensures stop <= |order| && reclaimed == Freed(order, fate, stop)
      ensures blobs == old(blobs) - Gone(order, fate, stop)
      ensures if cancelled then cancel == Some(stop) else IsStop(order, fate, need, stop)
    {
      reclaimed, stop := 0, 0;
      assert blobs - {} == blobs;
      while stop < |order| && reclaimed < need
        invariant stop <= |order| && reclaimed == Freed(order, fate, stop)
        invariant forall j: nat {:trigger FallsShort(order, fate, need, j)} :: j < stop ==>
                    FallsShort(order, fate, need, j)
        invariant blobs == old(blobs) - Gone(order, fate, stop)
        invariant TailPossible(order, fate, stop)
      {
        if cancel == Some(stop) { return reclaimed, stop, true; }
        var freed := Visit(order, fate, stop, old(blobs));
        reclaimed := reclaimed + freed;
        stop := stop + 1;
      }
      return reclaimed, stop, false;
    }

    /** One eviction pass over `listing` (None when the listing fails), seen cancelled before the victim at
        `cancel`. A completed pass visits the shortest run of the coldest-first order that reaches the
        target, removes exactly that run's deletable blobs, and — when it reaches the target — leaves the
        listed blobs within the ceiling and enough bytes freed for the floor. */
    method Sweep(cfg: Config, listing: Option<seq<Entry>>, free: Option<nat>, stat: nat -> Option<int>,
                 fate: nat -> Fate, cancel: Option<nat>)
      returns (r: Report, ghost order: seq<Cand>, ghost stop: nat)
      requires listing.Some? ==> Lists(listing.value, blobs)
      requires forall d :: d in blobs ==> Possible(d, fate(d))
      modifies this
      ensures stop <= |order| && blobs == old(blobs) - Gone(order, fate, stop)
      ensures r.Disabled? <==> cfg.maxBytes <= 0 && cfg.minFreeBytes <= 0
      ensures r.ListFailed? <==> (cfg.maxBytes > 0 || cfg.minFreeBytes > 0) && listing.None?
      ensures r.Done? || r.Cancelled? ==>
                listing.Some? && IsOrder(order, listing.value, stat) && r.reclaimed == Freed(order, fate, stop)
      ensures r.Done? ==> r.need > 0 && IsStop(order, fate, r.need, stop)
      ensures r.Cancelled? ==> cancel == Some(stop)
      ensures !r.Done? && !r.Cancelled? ==> blobs == old(blobs)
      ensures r.UnderLimits? && cfg.maxBytes > 0 ==> listing.Some? && Bytes(listing.value, blobs.Keys) <= cfg.maxBytes
      ensures r.UnderLimits? && cfg.minFreeBytes > 0 && free.Some? ==> free.value >= cfg.minFreeBytes
      ensures r.Done? && r.reclaimed >= r.need && cfg.maxBytes > 0 ==> Bytes(listing.value, blobs.Keys) <= cfg.maxBytes
      ensures r.Done? && r.reclaimed >= r.need && cfg.minFreeBytes > 0 && free.Some? ==>
                free.value + r.reclaimed >= cfg.minFreeBytes
    {
      order, stop := [], 0;
      assert blobs - {} == blobs;
      if cfg.maxBytes <= 0 && cfg.minFreeBytes <= 0 { return Disabled, order, stop; }
      if listing.None? { return ListFailed, order, stop; }
      var entries := listing.value;
      var need := BytesToReclaim(entries, cfg, free, blobs.Keys);
      if need == 0 { return UnderLimits, order, stop; }
      var cands := ColdestFirst(entries, stat);
      forall j | 0 <= j < |cands| ensures Possible(cands[j].digest, fate(cands[j].digest)) {
        OrderHasCands(cands, entries, stat, cands[j]);
      }
      var reclaimed, visited, cancelled := Evict(cands, fate, need, cancel);
      order, stop := cands, visited;
      if cancelled { return Cancelled(reclaimed), order, stop; }
      PassConserves(entries, stat, cands, fate, old(blobs.Keys), visited);
      assert blobs.Keys == old(blobs.Keys) - Gone(cands, fate, visited);
      return Done(reclaimed, need), order, stop;
    }
  }
}
