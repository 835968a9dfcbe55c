/**
 The refresh-token protocol: `auth.Service` (Login, Refresh, Logout, LogoutAll) and the periodic
 cleanup, running over the etcd-backed token store.

 Every read and every transaction that reaches etcd is one step of the machine below, and any number
 of calls interleave at that granularity. A transaction of k blind puts is k consecutive steps here,
 so each interleaving of the real transactions is a run of this machine. A call may fail between any
 two steps (an error, a cancelled context, a crash); what it wrote so far stays written.
 */
module RefreshTokens {
  import opened Options

  type Id = nat
  type Family = nat
  type User = nat
  type Hash = nat
  type Time = int

  /** How far a family barrier's expiry is padded past the newest token it must guard. */
  const SKEW: int := 24 * 3600 * 1_000_000_000

  /** `ttl` is the longest lifetime any token was issued with, and `barrierTtl` the refresh-token lifetime
      the store sizes barriers by; an operator who shortens the configured lifetime leaves tokens of the
      longer one behind. `gap` bounds the time from the clock reading that stamps a family barrier to the
      commit of that barrier. */
  datatype Config = Config(ttl: int, barrierTtl: int, gap: int)

  /** A barrier, if any can land at all, outlives every token issued before it landed. */
  ghost predicate Timely(cfg: Config) { cfg.gap < 0 || cfg.gap + cfg.ttl <= cfg.barrierTtl + SKEW }

  datatype Token = Token(id: Id, user: User, hash: Hash, family: Family, parent: Option<Id>,
                         expires: Time, revoked: bool, lastUsed: Option<Time>)

  /** The part of a token that no write ever changes. */
  function Core(t: Token): Token { t.(revoked := false, lastUsed := None) }

  datatype Versioned = Versioned(row: Token, rev: nat)

  datatype Kv = Kv(rows: map<Id, Versioned>, byHash: map<Hash, Id>, byFamily: set<(Family, Id)>,
                   byUser: set<(User, Id)>, barriers: map<Family, Time>, rev: nat)

  /** Everything that ever happened: each token ever inserted, each family's tokens in commit order,
      and the instant each family's barrier was first committed. */
  datatype History = History(created: map<Id, Token>, chains: map<Family, seq<Id>>, barred: map<Family, Time>)

  datatype Outcome =
    | Rotated(child: Token) | Swept(families: set<Family>) | Expired | Invalid | Revoked | Cleaned | Failed

  /** A call's program counter together with its local variables. */
  datatype Call =
    // Refresh
    | LookUp(hash: Hash)
    | Fetch(id: Id)
    | FindUser(row: Token)
    | ReadParent(row: Token, child: Token)
    | CommitRotate(parent: Token, rev: nat, child: Token)
    | ReadTouch(id: Id, attempts: nat, pair: Token)
    | CommitTouch(row: Token, rev: nat, attempts: nat, pair: Token)
    // RevokeRefreshToken, reached from Logout and from a Refresh whose user is gone
    | LogoutLookUp(hash: Hash)
    | LogoutFetch(id: Id)
    | ReadRevoke(id: Id)
    | PutRevoke(row: Token)
    // LogoutAll, up to the family list
    | RangeUser(user: User)
    | ReadFamilies(toRead: set<Id>, families: set<Family>)
    // burnFamiliesAndSweep, reached from LogoutAll and from every theft signal
    | Bar(toBar: set<Family>, families: set<Family>)
    | PutBarrier(f: Family, at: Time, toBar: set<Family>, families: set<Family>)
    | RangeFamily(toSweep: set<Family>, families: set<Family>)
    | ReadRows(f: Family, toRead: set<Id>, writes: map<Id, Token>, toSweep: set<Family>, families: set<Family>)
    | WriteRows(f: Family, writes: map<Id, Token>, toSweep: set<Family>, families: set<Family>)
    // DeleteExpiredRefreshTokens
    | RangeExpired(cutoff: Time)
    | RangeBarriers(cutoff: Time, tokens: map<Id, Token>)
    | Delete(tokens: map<Id, Token>, bars: set<Family>)
    | Returned(outcome: Outcome)

  /** What the calls share: the clock, etcd and (as a ghost of the proof) the history. */
  datatype World = World(now: Time, kv: Kv, log: History)

  datatype State = State(world: World, calls: map<nat, Call>)

  const START: State := State(World(0, Kv(map[], map[], {}, {}, map[], 0), History(map[], map[], map[])), map[])

  // ------------------------------------------------------------------ etcd transactions

  predicate Active(kv: Kv, id: Id) { id in kv.rows && !kv.rows[id].row.revoked }

  predicate AtRevision(kv: Kv, id: Id, rev: nat) { id in kv.rows && kv.rows[id].rev == rev }

  function PutRow(kv: Kv, row: Token): Kv
  {
    kv.(rows := kv.rows[row.id := Versioned(row, kv.rev + 1)], rev := kv.rev + 1)
  }

  /** Primary row plus the hash, family and user index entries, in one transaction. */
  function Insert(kv: Kv, row: Token): Kv
  {
    PutRow(kv, row).(byHash := kv.byHash[row.hash := row.id],
                     byFamily := kv.byFamily + {(row.family, row.id)},
                     byUser := kv.byUser + {(row.user, row.id)})
  }

  /** Revokes the parent and inserts the child in one transaction. */
  function RotateTxn(kv: Kv, parent: Token, child: Token): Kv
  {
    var k := Insert(kv, child);
    k.(rows := k.rows[parent.id := Versioned(parent.(revoked := true), kv.rev + 1)])
  }

  /** Deletes a row and its index entries; the four deletes always share a transaction. */
  function DropToken(kv: Kv, t: Token): Kv
  {
    kv.(rows := kv.rows - {t.id}, byHash := kv.byHash - {t.hash},
        byFamily := kv.byFamily - {(t.family, t.id)}, byUser := kv.byUser - {(t.user, t.id)}, rev := kv.rev + 1)
  }

  function LogLogin(log: History, row: Token): History
  {
    log.(created := log.created[row.id := Core(row)], chains := log.chains[row.family := [row.id]])
  }

  function LogRotate(log: History, child: Token): History
    requires child.family in log.chains
  {
    log.(created := log.created[child.id := Core(child)],
         chains := log.chains[child.family := log.chains[child.family] + [child.id]])
  }

  /** Generated ids and hashes collide with no earlier token's. */
  predicate Fresh(log: History, t: Token)
  {
    t.id !in log.created && forall i :: i in log.created ==> log.created[i].hash != t.hash
  }

  // ------------------------------------------------------------------ ranges

  function UserTokens(kv: Kv, u: User): set<Id> { set p | p in kv.byUser && p.0 == u :: p.1 }

  function FamilyTokens(kv: Kv, f: Family): set<Id> { set p | p in kv.byFamily && p.0 == f :: p.1 }

  function ExpiredTokens(kv: Kv, cutoff: Time): map<Id, Token>
  {
    map i | i in kv.rows && kv.rows[i].row.expires < cutoff :: kv.rows[i].row
  }

  function ExpiredBarriers(kv: Kv, cutoff: Time): set<Family>
  {
    set f | f in kv.barriers && kv.barriers[f] < cutoff
  }

  // ------------------------------------------------------------------ the calls

  datatype Effect = Stuck | Effect(kv: Kv, log: History, call: Call)

  function Go(s: World, call: Call): Effect { Effect(s.kv, s.log, call) }

  /** A token is issued for some positive lifetime, at most the longest ever configured. */
  predicate Lasts(cfg: Config, now: Time, t: Token) { now < t.expires <= now + cfg.ttl }

  predicate ChildOf(cfg: Config, row: Token, now: Time, t: Token)
  {
    t.user == row.user && t.family == row.family && t.parent == Some(row.id) && t == Core(t) && Lasts(cfg, now, t)
  }

  /** One step of a call: `pick` resolves the order in which a range is walked and whether the user
      exists; `gen` is the child token generated for a rotation. */
  function Act(cfg: Config, s: World, call: Call, pick: nat, gen: Token): Effect
  {
    var kv, log, now := s.kv, s.log, s.now;
    match call
    case LookUp(h) => if h in kv.byHash then Go(s, Fetch(kv.byHash[h])) else Go(s, Returned(Invalid))
    case Fetch(id) =>
      if id !in kv.rows then Go(s, Returned(Invalid)) else
      var row := kv.rows[id].row;
      if row.revoked then Go(s, Bar({row.family}, {row.family}))
      else if row.expires < now then Go(s, Returned(Expired))
      else Go(s, FindUser(row))
    case FindUser(row) =>
      if pick == 0 then Go(s, ReadRevoke(row.id))
      else if ChildOf(cfg, row, now, gen) then Go(s, ReadParent(row, gen)) else Stuck
    case ReadParent(row, child) =>
      if row.id !in kv.rows then Go(s, Returned(Failed)) else
      var v := kv.rows[row.id];
      if v.row.revoked then Go(s, Bar({row.family}, {row.family}))
      else if child.family != v.row.family then Go(s, Returned(Failed))
      else Go(s, CommitRotate(v.row, v.rev, child))
    case CommitRotate(parent, rev, child) =>
      if !AtRevision(kv, parent.id, rev) || parent.family in kv.barriers then
        Go(s, Bar({parent.family}, {parent.family}))
      else if Fresh(log, child) && child.family in log.chains then
        Effect(RotateTxn(kv, parent, child), LogRotate(log, child), ReadTouch(parent.id, 5, child))
      else Stuck
    case ReadTouch(id, attempts, pair) =>
      if attempts == 0 || id !in kv.rows then Go(s, Returned(Rotated(pair)))
      else Go(s, CommitTouch(kv.rows[id].row.(lastUsed := Some(now)), kv.rows[id].rev, attempts - 1, pair))
    case CommitTouch(row, rev, attempts, pair) =>
      if AtRevision(kv, row.id, rev) then Effect(PutRow(kv, row), log, Returned(Rotated(pair)))
      else Go(s, ReadTouch(row.id, attempts, pair))
    case LogoutLookUp(h) => if h in kv.byHash then Go(s, LogoutFetch(kv.byHash[h])) else Go(s, Returned(Revoked))
    case LogoutFetch(id) => if id in kv.rows then Go(s, ReadRevoke(kv.rows[id].row.id)) else Go(s, Returned(Revoked))
    case ReadRevoke(id) =>
      if Active(kv, id) then Go(s, PutRevoke(kv.rows[id].row.(revoked := true))) else Go(s, Returned(Revoked))
    case PutRevoke(row) => Effect(PutRow(kv, row), log, Returned(Revoked))
    case RangeUser(u) => Go(s, ReadFamilies(UserTokens(kv, u), {}))
    case ReadFamilies(toRead, fams) =>
      if toRead == {} then Go(s, Bar(fams, fams))
      else if pick !in toRead then Stuck
      else Go(s, ReadFamilies(toRead - {pick}, if pick in kv.rows then fams + {kv.rows[pick].row.family} else fams))
    case Bar(toBar, fams) =>
      if toBar == {} then Go(s, RangeFamily(fams, fams))
      else if pick in toBar then Go(s, PutBarrier(pick, now, toBar - {pick}, fams)) else Stuck
    case PutBarrier(f, at, toBar, fams) =>
      if now - at > cfg.gap then Stuck
      else Effect(kv.(barriers := kv.barriers[f := at + cfg.barrierTtl + SKEW], rev := kv.rev + 1),
                  if f in log.barred then log else log.(barred := log.barred[f := now]), Bar(toBar, fams))
    case RangeFamily(toSweep, fams) =>
      if toSweep == {} then Go(s, Returned(Swept(fams)))
      else if pick !in toSweep then Stuck
      else Go(s, ReadRows(pick, FamilyTokens(kv, pick), map[], toSweep - {pick}, fams))
    case ReadRows(f, toRead, writes, toSweep, fams) =>
      if toRead == {} then Go(s, WriteRows(f, writes, toSweep, fams))
      else if pick !in toRead then Stuck
      else
        var more := if Active(kv, pick) then writes[pick := kv.rows[pick].row.(revoked := true)] else writes;
        Go(s, ReadRows(f, toRead - {pick}, more, toSweep, fams))
    case WriteRows(f, writes, toSweep, fams) =>
      if writes == map[] then Go(s, RangeFamily(toSweep, fams))
      else if pick in writes then
        Effect(PutRow(kv, writes[pick]), log, WriteRows(f, writes - {pick}, toSweep, fams))
      else Stuck
    case RangeExpired(cutoff) => Go(s, RangeBarriers(cutoff, ExpiredTokens(kv, cutoff)))
    case RangeBarriers(cutoff, tokens) => Go(s, Delete(tokens, ExpiredBarriers(kv, cutoff)))
    case Delete(tokens, bars) =>
      if tokens != map[] then
        if pick in tokens then Effect(DropToken(kv, tokens[pick]), log, Delete(tokens - {pick}, bars)) else Stuck
      else if bars != {} then
        if pick !in bars then Stuck
        else Effect(kv.(barriers := kv.barriers - {pick}, rev := kv.rev + 1), log, Delete(tokens, bars - {pick}))
      else Go(s, Returned(Cleaned))
    case Returned(_) => Stuck
  }

  predicate CanLogin(cfg: Config, s: World, row: Token)
  {
    Fresh(s.log, row) && row.family !in s.log.chains && row.parent.None? && row == Core(row) && Lasts(cfg, s.now, row)
  }

  datatype Step =
    | Tick(to: Time) | Login(row: Token) | Start(c: nat, call: Call) | Move(c: nat, pick: nat, gen: Token)
    | Fail(c: nat)

  predicate Entry(call: Call, now: Time)
  {
    call.LookUp? || call.LogoutLookUp? || call.RangeUser? || (call.RangeExpired? && call.cutoff == now)
  }

  predicate Next(cfg: Config, s: State, step: Step, t: State)
  {
    var w := s.world;
    match step
    case Tick(to) => w.now <= to && t == s.(world := w.(now := to))
    case Login(row) => CanLogin(cfg, w, row) && t == s.(world := World(w.now, Insert(w.kv, row), LogLogin(w.log, row)))
    case Start(c, call) => c !in s.calls && Entry(call, w.now) && t == s.(calls := s.calls[c := call])
    case Move(c, pick, gen) =>
      c in s.calls &&
      var e := Act(cfg, w, s.calls[c], pick, gen);
      e.Effect? && t == State(World(w.now, e.kv, e.log), s.calls[c := e.call])
    case Fail(c) => c in s.calls && t == s.(calls := s.calls[c := Returned(Failed)])
  }

  predicate StepAt(cfg: Config, run: seq<State>, steps: seq<Step>, i: nat)
    requires |run| == |steps| + 1 && i < |steps|
  {
    Next(cfg, run[i], steps[i], run[i + 1])
  }

  ghost predicate IsRun(cfg: Config, run: seq<State>, steps: seq<Step>)
  {
    |run| == |steps| + 1 && forall i: nat {:trigger StepAt(cfg, run, steps, i)} :: i < |steps| ==>
          StepAt(cfg, run, steps, i)
  }

  // ------------------------------------------------------------------ what every step keeps

  ghost predicate ChainOk(kv: Kv, log: History, f: Family)
    requires f in log.chains
  {
    var ch := log.chains[f];
    && |ch| > 0
    && (forall k :: 0 <= k < |ch| ==> ch[k] in log.created && log.created[ch[k]].family == f)
    && (forall k :: 0 <= k < |ch| ==> log.created[ch[k]].user == log.created[ch[0]].user)
    && log.created[ch[0]].parent.None?
    && (forall j, k :: 0 <= j < k < |ch| && k == j + 1 ==> log.created[ch[k]].parent == Some(ch[j]))
    && (forall k :: 0 <= k < |ch| - 1 ==> !Active(kv, ch[k]))
    && (forall j, k :: 0 <= j < k < |ch| ==> ch[j] != ch[k])
  }

  ghost predicate Known(log: History, row: Token) { row.id in log.created && log.created[row.id] == Core(row) }

  /** No token of the family is active any more. */
  ghost predicate Dead(kv: Kv, log: History, f: Family)
  {
    f in log.chains && forall k :: 0 <= k < |log.chains[f]| ==> !Active(kv, log.chains[f][k])
  }

  ghost predicate RowsOk(kv: Kv, log: History)
  {
    && (forall i :: i in kv.rows ==> kv.rows[i].row.id == i && Known(log, kv.rows[i].row) && kv.rows[i].rev <= kv.rev)
    && (forall i :: Active(kv, i) ==>
          (kv.rows[i].row.family, i) in kv.byFamily && (kv.rows[i].row.user, i) in kv.byUser)
  }

  ghost predicate TokenOk(cfg: Config, s: World, i: Id)
    requires i in s.log.created
  {
    var c := s.log.created[i];
    c.id == i && c.expires <= s.now + cfg.ttl && c.family in s.log.chains && i in s.log.chains[c.family]
  }

  ghost predicate HistoryOk(cfg: Config, s: World)
  {
    && (forall i {:trigger TokenOk(cfg, s, i)} :: i in s.log.created ==> TokenOk(cfg, s, i))
    && (forall f {:trigger ChainOk(s.kv, s.log, f)} :: f in s.log.chains ==> ChainOk(s.kv, s.log, f))
  }

  ghost predicate BarriersOk(cfg: Config, s: World)
  {
    && s.kv.barriers.Keys <= s.log.barred.Keys <= s.log.chains.Keys
    && (forall f {:trigger BarredOk(cfg, s, f)} :: f in s.log.barred ==> BarredOk(cfg, s, f))
  }

  /** A barred family's barrier outlives its tokens, and once reaped it has none left to guard. */
  ghost predicate BarredOk(cfg: Config, s: World, f: Family)
    requires f in s.log.barred
  {
    && s.log.barred[f] <= s.now && f in s.log.chains
    && (Timely(cfg) ==>
          && (forall k :: 0 <= k < |s.log.chains[f]| && s.log.chains[f][k] in s.log.created ==>
                s.log.created[s.log.chains[f][k]].expires <= s.log.barred[f] + cfg.ttl)
          && (if f in s.kv.barriers then s.kv.barriers[f] >= s.log.barred[f] + cfg.ttl else Dead(s.kv, s.log, f)))
  }

  ghost predicate Good(cfg: Config, s: World)
  {
    RowsOk(s.kv, s.log) && HistoryOk(cfg, s) && BarriersOk(cfg, s)
  }

  /** Every active token of the family is among `ids`. */
  ghost predicate CoveredBy(kv: Kv, log: History, f: Family, ids: set<Id>)
  {
    f in log.chains && forall k :: 0 <= k < |log.chains[f]| && Active(kv, log.chains[f][k]) ==> log.chains[f][k] in ids
  }

  ghost predicate Revocations(log: History, writes: map<Id, Token>)
  {
    forall i :: i in writes ==> writes[i].id == i && writes[i].revoked && Known(log, writes[i])
  }

  ghost predicate DeadUnless(cfg: Config, s: World, families: set<Family>, pending: set<Family>)
  {
    && families <= s.log.barred.Keys
    && (Timely(cfg) ==> forall f :: f in families && f !in pending ==> Dead(s.kv, s.log, f))
  }

  ghost predicate GoodChild(now: Time, cfg: Config, parent: Token, child: Token)
  {
    child == Core(child) && child.parent == Some(parent.id) && child.family == parent.family
    && child.user == parent.user && child.expires <= now + cfg.ttl
  }

  ghost predicate Minted(log: History, pair: Token) { Known(log, pair) && pair.parent.Some? }

  /** What a call's local variables still say about the shared state, whatever others do. */
  ghost predicate CallOk(cfg: Config, s: World, call: Call)
  {
    var kv, log, now := s.kv, s.log, s.now;
    match call
    case FindUser(row) => Known(log, row)
    case ReadParent(row, child) => Known(log, row) && GoodChild(now, cfg, row, child)
    case CommitRotate(parent, rev, child) =>
      Known(log, parent) && !parent.revoked && rev <= kv.rev && GoodChild(now, cfg, parent, child)
      && (AtRevision(kv, parent.id, rev) ==> kv.rows[parent.id].row == parent)
    case ReadTouch(_, _, pair) => Minted(log, pair)
    case CommitTouch(row, rev, _, pair) =>
      Minted(log, pair) && Known(log, row) && rev <= kv.rev
      && (AtRevision(kv, row.id, rev) ==> kv.rows[row.id].row.revoked == row.revoked)
    case PutRevoke(row) => Known(log, row) && row.revoked
    case ReadFamilies(_, fams) => fams <= log.chains.Keys
    case Bar(toBar, fams) => toBar <= fams <= log.chains.Keys && fams - toBar <= log.barred.Keys
    case PutBarrier(f, at, toBar, fams) =>
      f in fams && toBar <= fams <= log.chains.Keys && fams - toBar - {f} <= log.barred.Keys && at <= now
    case RangeFamily(toSweep, fams) => toSweep <= fams && DeadUnless(cfg, s, fams, toSweep)
    case ReadRows(f, toRead, writes, toSweep, fams) =>
      f in fams && toSweep <= fams && DeadUnless(cfg, s, fams, toSweep + {f}) && Revocations(log, writes)
      && (Timely(cfg) ==> CoveredBy(kv, log, f, toRead + writes.Keys))
    case WriteRows(f, writes, toSweep, fams) =>
      f in fams && toSweep <= fams && DeadUnless(cfg, s, fams, toSweep + {f}) && Revocations(log, writes)
      && (Timely(cfg) ==> CoveredBy(kv, log, f, writes.Keys))
    case RangeExpired(cutoff) => cutoff <= now
    case RangeBarriers(cutoff, tokens) =>
      cutoff <= now && KnownAll(log, tokens)
      && (Timely(cfg) ==> forall f :: f in log.barred && log.barred[f] + cfg.ttl < cutoff ==>
            CoveredBy(kv, log, f, tokens.Keys))
    case Delete(tokens, bars) =>
      KnownAll(log, tokens) && bars <= log.barred.Keys
      && (Timely(cfg) ==> forall f :: f in bars ==> CoveredBy(kv, log, f, tokens.Keys))
    case Returned(Rotated(pair)) => Minted(log, pair)
    case Returned(Swept(fams)) => DeadUnless(cfg, s, fams, {})
    case _ => true
  }

  ghost predicate KnownAll(log: History, tokens: map<Id, Token>)
  {
    forall i :: i in tokens ==> tokens[i].id == i && Known(log, tokens[i])
  }
}
