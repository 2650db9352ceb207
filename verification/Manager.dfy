/**
 The life of a connection as internal/core/services/manager.go conducts it: connect, heartbeat,
 disconnect.
 */
module Manager {
  import opened Common
  import opened Postgres
  import opened Presence
  import opened PresenceStore
  import opened Session
  import T = Tables

  const BEAT: Time := 30_000

  /** The fates of one transaction around a single statement. */
  datatype TxFaults = TxFaults(begin: bool, f: Fault, commit: Fault)

  /** begin and commit belong to the transaction around CreateConversation, which has three statements. */
  datatype ConnectFaults = ConnectFaults(
    prune: Fault, range: Fault, begin: bool, conversation: Fault, existing: Fault, counter: Fault, commit: Fault,
    start: StartFaults, sync: TxFaults)

  datatype LeaveFaults = LeaveFaults(stop: TxFaults, prune: Fault, range: Fault, delete: Fault, clear: Fault)

  const NO_TX_FAULTS := TxFaults(true, Fine, Fine)

  const NO_CONNECT_FAULTS :=
    ConnectFaults(Fine, Fine, true, Fine, Fine, Fine, Fine, NO_START_FAULTS, NO_TX_FAULTS)

  const NO_LEAVE_FAULTS := LeaveFaults(NO_TX_FAULTS, Fine, Fine, Fine, Fine)

  /** What happens to the commands sent at a given moment. */
  datatype Ticks = Ticks(add: Time -> Fault, expire: Time -> Fault, sync: Time -> TxFaults)

  ghost predicate SyncsOk(ticks: Ticks, start: Time, stop: Time) {
    forall t {:trigger ticks.sync(t)} | start < t <= stop :: ticks.sync(t) == NO_TX_FAULTS
  }

  ghost predicate BeatsOk(ticks: Ticks, start: Time, stop: Time) {
    forall t {:trigger ticks.add(t)} {:trigger ticks.expire(t)} | start < t <= stop ::
      ticks.add(t) == Fine && ticks.expire(t) == Fine
  }

  /** The foreign key from participants to conversations. */
  ghost predicate Keyed(db: T.Db) { forall p | p in db.parts :: db.parts[p].conv in db.convs }

  /** The session was last seen at most d before its heartbeat started. */
  predicate Late(seen: Time, start: Time, d: nat) { start - d <= seen <= start }

  /** How many beats a heartbeat serves. */
  function BeatCount(start: Time, stop: Time, tie: bool): nat
    requires start <= stop
  {
    var m := (stop - start) / BEAT;
    if m > 0 && start + BEAT * m == stop && !tie then m - 1 else m
  }

  /** The ZADD of the k-th beat is executed. */
  predicate Arrives(ticks: Ticks, start: Time, k: nat) {
    ticks.add(start + BEAT * k) != Refused
  }

  /** The moment of the last of m beats whose ZADD is executed. */
  function LastBeat(ticks: Ticks, start: Time, m: nat): Option<Time> {
    if m == 0 then None
    else if Arrives(ticks, start, m) then Some(start + BEAT * m)
    else LastBeat(ticks, start, m - 1)
  }

  /** The transaction of the k-th sync has its effect. */
  predicate Stays(shared: bool, ticks: Ticks, start: Time, k: nat) {
    var f := ticks.sync(start + SYNC * k);
    Lasts(shared, f.begin, f.f, f.commit)
  }

  /** The moment of the last of n syncs that has its effect. */
  function LastSync(shared: bool, ticks: Ticks, start: Time, n: nat): Option<Time> {
    if n == 0 then None
    else if Stays(shared, ticks, start, n) then Some(start + SYNC * n)
    else LastSync(shared, ticks, start, n - 1)
  }

  lemma {:induction false} NotLater(shared: bool, ticks: Ticks, start: Time, m: nat)
    ensures LastBeat(ticks, start, m).Some? ==> start < LastBeat(ticks, start, m).value <= start + BEAT * m
    ensures LastSync(shared, ticks, start, m).Some? ==>
      start < LastSync(shared, ticks, start, m).value <= start + SYNC * m
  {
    if m > 0 { NotLater(shared, ticks, start, m - 1); }
  }

  /** The k-th of m beats counts if and only if its ZADD is executed and no later one is; none counts as the 0th. */
  lemma {:induction false} LastBeatIff(ticks: Ticks, start: Time, m: nat, k: nat)
    requires k <= m
    ensures (LastBeat(ticks, start, m) == if k == 0 then None else Some(start + 30_000 * k))
            <==> (k > 0 ==> ticks.add(start + 30_000 * k) != Refused)
                 && forall l: nat | k < l <= m :: !Arrives(ticks, start, l)
  {
    if k < m {
      if !Arrives(ticks, start, m) { LastBeatIff(ticks, start, m - 1, k); }
    } else if m > 0 {
      NotLater(false, ticks, start, m - 1);
      assert Arrives(ticks, start, m) <==> ticks.add(start + 30_000 * m) != Refused;
    }
  }

  /** The same of syncs. */
  lemma {:induction false} LastSyncIff(shared: bool, ticks: Ticks, start: Time, n: nat, k: nat)
    requires k <= n
    ensures (LastSync(shared, ticks, start, n) == if k == 0 then None else Some(start + 120_000 * k))
            <==> (k > 0 ==> Stays(shared, ticks, start, k))
                 && forall l: nat | k < l <= n :: !Stays(shared, ticks, start, l)
  {
    if k < n {
      if !Stays(shared, ticks, start, n) { LastSyncIff(shared, ticks, start, n - 1, k); }
    } else if n > 0 {
      NotLater(shared, ticks, start, n - 1);
    }
  }

  /** The last beats of all senders when that of this one is its only new one. */
  function HeardAt(before: map<Uuid, Time>, sender: Uuid, beat: Option<Time>): map<Uuid, Time> {
    match beat
    case None => before
    case Some(t) => before[sender := t]
  }

  /** The tables when the last sync of this participant was then. */
  function SeenThen(db: T.Db, id: Uuid, sync: Option<Time>): T.Db {
    if sync.Some? && id != NIL && id in db.parts then Seen(db, id, sync.value) else db
  }

  /** The last beats after a heartbeat without failures. */
  function Heard(before: map<Uuid, Time>, sender: Uuid, start: Time, stop: Time, tie: bool): map<Uuid, Time>
    requires start <= stop
  {
    var m := BeatCount(start, stop, tie);
    if m == 0 then before else before[sender := start + BEAT * m]
  }

  /** Without failures the last tick served counts. */
  lemma AllGoThrough(shared: bool, ticks: Ticks, start: Time, stop: Time, tie: bool)
    requires start <= stop
    ensures BeatsOk(ticks, start, stop) ==>
      var m := BeatCount(start, stop, tie);
      LastBeat(ticks, start, m) == if m == 0 then None else Some(start + BEAT * m)
    ensures SyncsOk(ticks, start, stop) ==>
      var n := Syncs(start, stop, tie);
      LastSync(shared, ticks, start, n) == if n == 0 then None else Some(start + SYNC * n)
  {
    var m, n := BeatCount(start, stop, tie), Syncs(start, stop, tie);
    assert m > 0 ==> start < start + BEAT * m <= stop;
    assert n > 0 ==> start < start + SYNC * n <= stop;
  }

  /** Tickers that stand just past stop have served exactly so many ticks. */
  lemma LastTicks(start: Time, stop: Time, tie: bool, m: nat, n: nat)
    requires start <= stop
    requires m == 0 || start + BEAT * m < stop || (start + BEAT * m == stop && tie)
    requires n == 0 || start + SYNC * n < stop || (start + SYNC * n == stop && tie)
    requires start + BEAT * (m + 1) > stop || (start + BEAT * (m + 1) == stop && !tie)
    requires start + SYNC * (n + 1) > stop || (start + SYNC * (n + 1) == stop && !tie)
    ensures m == BeatCount(start, stop, tie) && n == Syncs(start, stop, tie)
  {
  }

  lemma SeenBounds(start: Time, stop: Time, tie: bool)
    requires start <= stop
    ensures forall seen: Time, d: nat {:trigger Late(seen, start, d)} | Late(seen, start, d) ::
      stop - SYNC - d <= SeenAt(seen, start, stop, tie) <= stop
  {
    forall seen: Time, d: nat {:trigger Late(seen, start, d)} | Late(seen, start, d)
      ensures stop - SYNC - d <= SeenAt(seen, start, stop, tie) <= stop
    {
      SeenLately(seen, start, stop, tie, d);
    }
  }

  /** The session that beats from start on counts as online at t. */
  predicate OnlineAt(before: map<Uuid, Time>, sender: Uuid, start: Time, t: Time)
    requires start <= t
  {
    sender in Online(Heard(before, sender, start, t, true), t)
  }

  /** The last beat of a heartbeat is at most 30 seconds back. */
  lemma LastBeatAt(before: map<Uuid, Time>, sender: Uuid, start: Time, t: Time) returns (m: nat)
    requires start + BEAT <= t
    ensures m > 0 && start + BEAT * m <= t < start + BEAT * (m + 1)
    ensures Heard(before, sender, start, t, true) == before[sender := start + BEAT * m]
  {
    m := BeatCount(start, t, true);
  }

  /** Whole seconds are cut by nothing. */
  lemma StaysFresh(beat: Time, t: Time)
    requires beat % 1000 == 0 && beat <= t < beat + BEAT
    ensures Fresh(beat, t)
  {
  }

  /**
   From its first beat on, a session whose beats all go through counts as online at every moment if and
   only if its heartbeat started on a whole second: otherwise it is offline for the last moments before
   every beat, because both sides are cut to whole seconds.
   */
  lemma OnlineBetweenBeatsIff(before: map<Uuid, Time>, sender: Uuid, start: Time)
    ensures (forall t {:trigger OnlineAt(before, sender, start, t)} | t >= start + BEAT ::
               OnlineAt(before, sender, start, t))
            <==> start % 1000 == 0
  {
    if start % 1000 == 0 {
      forall t | t >= start + BEAT ensures OnlineAt(before, sender, start, t) {
        var m := LastBeatAt(before, sender, start, t);
        StaysFresh(start + BEAT * m, t);
      }
    } else {
      var t := start + 2 * BEAT - 1;
      var m := LastBeatAt(before, sender, start, t);
      assert m == 1 && !Fresh(start + BEAT, t);
      assert !OnlineAt(before, sender, start, t);
    }
  }

  /** What a lookup answers at t whose pruning meets this fate. */
  function Looked(z: ZSet, t: Time, prune: Fault): set<Uuid> {
    if prune == Refused then ZRange(z, t) else Answer(z, t)
  }

  /** The first half of HandleConnect, when the lookup found someone or not, and whether it went through. */
  ghost predicate Ensured(db: T.Db, db': T.Db, c: Uuid, now: Time, f: ConnectFaults, someone: bool, ok: bool) {
    var made := !someone && c != NIL && f.begin && f.conversation != Refused;
    var known := made && f.conversation == Fine && (c in db.convs ==> f.existing == Fine);
    && db' == db.(
         convs := if made && c !in db.convs then db.convs[c := now] else db.convs,
         counters := if known && f.counter != Refused && c !in db.counters then db.counters[c := 0] else db.counters)
    && (ok <==> someone || (known && f.counter == Fine && f.commit == Fine))
  }

  /** The other half: StartSession, then a sync of the session it came back with. */
  ghost predicate Opened(
      shared: bool, db: T.Db, db': T.Db, user: string, c: Uuid, forceNew: bool, id: Uuid, now: Time, f: ConnectFaults,
      r: Result<(Uuid, bool), Error>)
  {
    exists mid, started ::
      && Started(shared, db, mid, user, c, forceNew, id, now, f.start, started)
      && match started
         case Err(_) => db' == mid && r.Err?
         case Ok(s) =>
           && db' == SeenThen(mid, s.sender,
                if Lasts(shared, f.sync.begin, f.sync.f, f.sync.commit) then Some(now) else None)
           && (r.Ok? <==> s.sender != NIL && f.sync == NO_TX_FAULTS)
           && (r.Ok? ==> r.value == (s.sender, s.isNew))
  }

  /** Both halves. */
  ghost predicate Connected(
      shared: bool, db: T.Db, db': T.Db, user: string, c: Uuid, forceNew: bool, id: Uuid, now: Time, f: ConnectFaults,
      someone: bool, r: Result<(Uuid, bool), Error>)
  {
    exists mid, ok ::
      && Ensured(db, mid, c, now, f, someone, ok)
      && if ok then Opened(shared, mid, db', user, c, forceNew, id, now, f, r) else db' == mid && r.Err?
  }

  /** What deleting a conversation leaves. */
  function Dropped(db: T.Db, c: Uuid): T.Db {
    if c == NIL || T.DeleteBlocked(db, c) then db else T.DeleteConversation(db, c).value
  }

  /** Heard and cut after beats of which the last to arrive was then, and all went through if good holds. */
  ghost predicate BeatenSo(
      heard0: map<Uuid, Time>, cut0: Option<Cut>, heard: map<Uuid, Time>, cut: Option<Cut>, sender: Uuid,
      beat: Option<Time>, good: bool)
  {
    heard == HeardAt(heard0, sender, beat) && (good ==> cut.None? || cut == cut0)
  }

  class ManagerService {
    const convRepo: ConversationRepo
    const presStore: RedisPresenceStore
    const session: SessionService
    const txManager: TxManager

    constructor (
        convRepo: ConversationRepo, presStore: RedisPresenceStore, session: SessionService, txManager: TxManager)
      ensures this.convRepo == convRepo && this.presStore == presStore
      ensures this.session == session && this.txManager == txManager
    {
      this.convRepo, this.presStore, this.session, this.txManager := convRepo, presStore, session, txManager;
    }

    /** One pool behind all repositories. */
    ghost predicate Wired() {
      && convRepo.pool == txManager.pool && session.repo.pool == txManager.pool
      && session.txManager == txManager
    }

    /** One tick of the first ticker; a failure is only logged. The key expires 90 seconds later. */
    method Beat(senderID: Uuid, convID: Uuid, t: Time, add: Fault, expire: Fault)
      requires presStore.Valid() && presStore.clock <= t
      modifies presStore
      ensures presStore.Valid() && presStore.clock == t
      ensures forall c | c != convID :: presStore.Heard(c) == old(presStore.Heard(c))
      ensures presStore.Heard(convID) ==
        if add == Refused then old(presStore.Heard(convID)) else old(presStore.Heard(convID))[senderID := t]
      ensures add == Fine && expire == Fine ==>
        && presStore.Key(convID).expires == Some(t + 90_000)
        && (presStore.CutOf(convID).None? || presStore.CutOf(convID) == old(presStore.CutOf(convID)))
    {
      var _ := presStore.UpdateOnlineStatus(convID, senderID, TTL, t, add, expire);
    }

    /** One tick of the second ticker; a failure is only logged. */
    method Sync(ctx: Context, senderID: Uuid, t: Time, f: TxFaults)
      requires Wired() && PostgresTxKey !in ctx.values
      modifies txManager.pool`db, txManager.pool`touched
      ensures txManager.pool.db ==
        SeenThen(old(txManager.pool.db), senderID,
          if Lasts(txManager.Shared(), f.begin, f.f, f.commit) then Some(t) else None)
    {
      var _ := session.SessionSync(ctx, senderID, t, f.begin, f.f, f.commit);
    }

    /** The beat after m others. */
    method BeatOn(
        senderID: Uuid, convID: Uuid, start: Time, t: Time, ticks: Ticks,
        ghost heard: map<Uuid, Time>, ghost cut: Option<Cut>, ghost good: bool, ghost m: nat)
      requires presStore.Valid() && presStore.clock <= t == start + BEAT * (m + 1)
      requires good ==> ticks.add(t) == Fine && ticks.expire(t) == Fine
      requires BeatenSo(heard, cut, presStore.Heard(convID), presStore.CutOf(convID), senderID,
                 LastBeat(ticks, start, m), good)
      modifies presStore
      ensures presStore.Valid() && presStore.clock == t
      ensures forall c | c != convID :: presStore.Heard(c) == old(presStore.Heard(c))
      ensures BeatenSo(heard, cut, presStore.Heard(convID), presStore.CutOf(convID), senderID,
                LastBeat(ticks, start, m + 1), good)
    {
      hide RedisPresenceStore.Valid, RedisPresenceStore.Heard, RedisPresenceStore.CutOf;
      Beat(senderID, convID, t, ticks.add(t), ticks.expire(t));
      assert Arrives(ticks, start, m + 1) <==> ticks.add(t) != Refused;
    }

    /** The sync after n others. */
    method SyncOn(ctx: Context, senderID: Uuid, start: Time, t: Time, ticks: Ticks, ghost db: T.Db, ghost n: nat)
      requires Wired() && PostgresTxKey !in ctx.values && t == start + SYNC * (n + 1)
      requires txManager.pool.db == SeenThen(db, senderID, LastSync(txManager.Shared(), ticks, start, n))
      modifies txManager.pool`db, txManager.pool`touched
      ensures txManager.pool.db == SeenThen(db, senderID, LastSync(txManager.Shared(), ticks, start, n + 1))
    {
      Sync(ctx, senderID, t, ticks.sync(t));
      assert ticks.sync(t) == ticks.sync(start + SYNC * (n + 1));
    }

    /** The loop of HandleHeartbeat, which serves m beats and n syncs. */
    method Tick(
        ctx: Context, senderID: Uuid, convID: Uuid, start: Time, stop: Time, tie: bool, ticks: Ticks)
        returns (ghost m: nat, ghost n: nat)
      requires Wired() && PostgresTxKey !in ctx.values
      requires presStore.Valid() && presStore.clock <= start <= stop
      modifies presStore, txManager.pool`db, txManager.pool`touched
      ensures presStore.Valid() && presStore.clock <= stop
      ensures m == BeatCount(start, stop, tie) && n == Syncs(start, stop, tie)
      ensures forall c | c != convID :: presStore.Heard(c) == old(presStore.Heard(c))
      ensures txManager.pool.db ==
        SeenThen(old(txManager.pool.db), senderID, LastSync(txManager.Shared(), ticks, start, n))
      ensures BeatenSo(old(presStore.Heard(convID)), old(presStore.CutOf(convID)), presStore.Heard(convID),
                presStore.CutOf(convID), senderID, LastBeat(ticks, start, m), BeatsOk(ticks, start, stop))
    {
      hide RedisPresenceStore.Valid, RedisPresenceStore.Heard, RedisPresenceStore.CutOf;
      hide BeatCount, Syncs, Arrives, Stays;
      var t1, t2 := start + BEAT, start + SYNC;
      m, n := 0, 0;
      ghost var heard, cut := presStore.Heard(convID), presStore.CutOf(convID);
      ghost var db := txManager.pool.db;
      while Sooner(t1, t2) < stop || (Sooner(t1, t2) == stop && tie)
        invariant presStore.Valid() && presStore.clock <= stop
        invariant presStore.clock < t1 && presStore.clock <= t2
        invariant t1 == start + BEAT * (m + 1) && t2 == start + SYNC * (n + 1) && t1 - BEAT <= t2
        invariant m == 0 || t1 - BEAT < stop || (t1 - BEAT == stop && tie)
        invariant n == 0 || t2 - SYNC < stop || (t2 - SYNC == stop && tie)
        invariant forall c | c != convID :: presStore.Heard(c) == old(presStore.Heard(c))
        invariant txManager.pool.db == SeenThen(db, senderID, LastSync(txManager.Shared(), ticks, start, n))
        invariant BeatenSo(heard, cut, presStore.Heard(convID), presStore.CutOf(convID), senderID,
                    LastBeat(ticks, start, m), BeatsOk(ticks, start, stop))
        decreases 2 * stop + BEAT + SYNC - t1 - t2
      {
        hide BeatenSo, SeenThen, LastBeat, LastSync;
        if t1 <= t2 {
          BeatOn(senderID, convID, start, t1, ticks, heard, cut, BeatsOk(ticks, start, stop), m);
          t1, m := t1 + BEAT, m + 1;
        } else {
          SyncOn(ctx, senderID, start, t2, ticks, db, n);
          t2, n := t2 + SYNC, n + 1;
        }
      }
      LastTicks(start, stop, tie, m, n);
    }

    /**
     Beats every 30 seconds and syncs every 120 until the context is done at stop; tie says whether
     ticks of that very moment are still served. Failures are only logged: what has been heard is the last
     beat that arrived, and last_seen_at is the moment of the last sync that had its effect, if any. If no
     sync fails, that is no more than 120 seconds before stop, plus whatever delay lay between connect and
     heartbeat. If no beat fails, the last one is no more than 30 seconds old, once the session has been
     connected for longer than that.
     */
    method HandleHeartbeat(
        ctx: Context, senderID: Uuid, convID: Uuid, start: Time, stop: Time, tie: bool, ticks: Ticks)
      requires Wired() && PostgresTxKey !in ctx.values
      requires presStore.Valid() && presStore.clock <= start <= stop
      modifies presStore, txManager.pool`db, txManager.pool`touched
      ensures presStore.Valid() && presStore.clock <= stop
      ensures forall c | c != convID :: presStore.Heard(c) == old(presStore.Heard(c))
      ensures presStore.Heard(convID) ==
        HeardAt(old(presStore.Heard(convID)), senderID, LastBeat(ticks, start, BeatCount(start, stop, tie)))
      ensures txManager.pool.db ==
        SeenThen(old(txManager.pool.db), senderID,
          LastSync(txManager.Shared(), ticks, start, Syncs(start, stop, tie)))
      ensures var before, after := old(txManager.pool.db.parts), txManager.pool.db.parts;
        senderID != NIL && senderID in before && SyncsOk(ticks, start, stop) ==>
          && senderID in after
          && after[senderID].lastSeen == SeenAt(before[senderID].lastSeen, start, stop, tie)
          && forall d: nat {:trigger Late(before[senderID].lastSeen, start, d)} |
               Late(before[senderID].lastSeen, start, d) :: stop - 120_000 - d <= after[senderID].lastSeen <= stop
      ensures BeatsOk(ticks, start, stop) ==>
        && (presStore.CutOf(convID).None? || presStore.CutOf(convID) == old(presStore.CutOf(convID)))
        && presStore.Heard(convID) == Heard(old(presStore.Heard(convID)), senderID, start, stop, tie)
        && (stop - start > 30_000 ==>
              && senderID in presStore.Heard(convID)
              && stop - 30_000 <= presStore.Heard(convID)[senderID] <= stop)
    {
      hide RedisPresenceStore.Valid, RedisPresenceStore.Heard, RedisPresenceStore.CutOf, LastBeat, LastSync;
      ghost var m, n := Tick(ctx, senderID, convID, start, stop, tie, ticks);
      SeenBounds(start, stop, tie);
      AllGoThrough(txManager.Shared(), ticks, start, stop, tie);
    }

    /** Nobody in the conversation has beaten within the window, as far as the store can tell. */
    ghost predicate Deserted(convID: Uuid, t: Time)
      reads presStore
    {
      Online(presStore.Heard(convID), t) == {}
    }

    /** The first half of HandleConnect: creates the conversation when nobody is online or the lookup fails. */
    method EnsureConversation(ctx: Context, c: Uuid, now: Time, f: ConnectFaults) returns (r: Result<(), Error>)
      requires Wired() && PostgresTxKey !in ctx.values
      requires presStore.Valid() && presStore.clock <= now
      modifies presStore, txManager.pool`db, txManager.pool`touched
      ensures presStore.Valid() && presStore.clock == now
      ensures forall d {:trigger presStore.Heard(d)} {:trigger presStore.CutOf(d)} ::
        presStore.Heard(d) == old(presStore.Heard(d)) && presStore.CutOf(d) == old(presStore.CutOf(d))
      ensures var someone := f.range == Fine && Looked(old(presStore.Key(c)), now, f.prune) != {};
        && Ensured(old(txManager.pool.db), txManager.pool.db, c, now, f, someone, r.Ok?)
        && (f.prune != Refused && !Torn(presStore.CutOf(c), now) ==>
              (someone <==> f.range == Fine && !Deserted(c, now)))
    {
      var online := presStore.GetOnlineParticipants(c, now, f.prune, f.range);
      if online.Ok? && online.value != {} { return Ok(()); }
      if !f.begin { return Err(Unavailable); }
      var tx, _ := txManager.Begin(ctx);
      var created := convRepo.CreateConversation(ctx, c, now, f.conversation, f.existing, f.counter);
      if created.Err? { return Err(created.error); }
      var committed := txManager.Commit(tx, f.commit);
      return if committed then Ok(()) else Err(Unavailable);
    }

    /** The other half: resolves the identity and signals its presence. */
    method OpenSession(
        ctx: Context, user: string, c: Uuid, forceNew: bool, id: Uuid, now: Time, f: ConnectFaults)
        returns (r: Result<(Uuid, bool), Error>)
      requires Wired() && PostgresTxKey !in ctx.values && Keyed(txManager.pool.db)
      modifies txManager.pool`db, txManager.pool`touched
      ensures Keyed(txManager.pool.db)
      ensures Opened(txManager.Shared(), old(txManager.pool.db), txManager.pool.db, user, c, forceNew, id, now, f, r)
      ensures var db, db' := old(txManager.pool.db), txManager.pool.db;
        && db' == db.(parts := db'.parts) && db'.parts.Keys <= db.parts.Keys + {id}
        && (forall p | p in db.parts :: p in db'.parts
              && db'.parts[p] == db.parts[p].(lastSeen := db'.parts[p].lastSeen)
              && (r.Ok? && p != r.value.0 ==> db'.parts[p] == db.parts[p]))
        && (r.Ok? ==>
              var (s, isNew) := r.value;
              && c in db.convs && s != NIL
              && Active(db'.parts, user, c, s) && db'.parts[s].lastSeen == now
              && (isNew <==> forceNew || f.start.find != Fine || !Reusable(db.parts, user, c, now))
              && (if isNew then s == id && s !in db.parts else SeenRecently(db.parts, user, c, now, s)))
        && (f.start == NO_START_FAULTS && f.sync == NO_TX_FAULTS && c != NIL && c in db.convs
            && NIL !in db.parts && id != NIL && id !in db.parts ==>
              r.Ok?)
    {
      var started := session.StartSession(ctx, user, c, forceNew, id, now, f.start);
      if started.Err? { return Err(started.error); }
      var sender := started.value.sender;
      var synced := session.SessionSync(ctx, sender, now, f.sync.begin, f.sync.f, f.sync.commit);
      if synced.Err? { return Err(synced.error); }
      return Ok((sender, started.value.isNew));
    }

    /**
     On success the caller has an unleft row of this user in an existing conversation, seen just now;
     it is a new identity if and only if the rule of StartSession says so. Nothing else about anybody's
     row, no message and no counter in use changes. When nothing fails, connecting succeeds if and only
     if the conversation is there or nobody is online in it: while others keep beating in a conversation
     that has been deleted, nobody can connect.
     */
    method HandleConnect(
        ctx: Context, userID: string, conv: Option<Uuid>, forceNew: bool, id: Uuid, now: Time, f: ConnectFaults)
        returns (r: Result<(Uuid, bool), Error>)
      requires Wired() && PostgresTxKey !in ctx.values && Keyed(txManager.pool.db)
      requires presStore.Valid() && presStore.clock <= now
      modifies presStore, txManager.pool`db, txManager.pool`touched
      ensures presStore.Valid() && presStore.clock <= now && Keyed(txManager.pool.db)
      ensures forall d {:trigger presStore.Heard(d)} {:trigger presStore.CutOf(d)} ::
        presStore.Heard(d) == old(presStore.Heard(d)) && presStore.CutOf(d) == old(presStore.CutOf(d))
      ensures userID != "" && conv.Some? ==>
        var someone := f.range == Fine && Looked(old(presStore.Key(conv.value)), now, f.prune) != {};
        Connected(txManager.Shared(), old(txManager.pool.db), txManager.pool.db, userID, conv.value, forceNew, id, now,
          f, someone, r)
      ensures userID == "" || conv.None? ==>
        txManager.pool.db == old(txManager.pool.db)
        && r == Err(if userID == "" then InvalidParameters else InvalidConversationID)
      ensures var db, db' := old(txManager.pool.db), txManager.pool.db;
        && db'.msgs == db.msgs
        && (forall c | c in db.counters :: c in db'.counters && db'.counters[c] == db.counters[c])
        && db'.parts.Keys <= db.parts.Keys + {id}
        && (forall p | p in db.parts :: p in db'.parts
              && db'.parts[p] == db.parts[p].(lastSeen := db'.parts[p].lastSeen)
              && (r.Ok? && p != r.value.0 ==> db'.parts[p] == db.parts[p]))
      ensures r.Ok? ==>
        var db, db' := old(txManager.pool.db), txManager.pool.db;
        var (s, isNew) := r.value;
        && conv.Some? && conv.value in db'.convs
        && Active(db'.parts, userID, conv.value, s) && db'.parts[s].lastSeen == now
        && (isNew <==> forceNew || f.start.find != Fine || !Reusable(db.parts, userID, conv.value, now))
        && (if isNew then s == id && s !in db.parts else SeenRecently(db.parts, userID, conv.value, now, s))
      ensures r.Ok? ==> r.value.0 != NIL
      ensures r.Ok? && f.range == Fine && f.prune != Refused && !Torn(presStore.CutOf(conv.value), now) ==>
        conv.value in old(txManager.pool.db.convs) || Deserted(conv.value, now)
      ensures var db := old(txManager.pool.db);
        userID != "" && conv.Some? && conv.value != NIL && NIL !in db.parts && id != NIL && id !in db.parts
        && f == NO_CONNECT_FAULTS && !Torn(presStore.CutOf(conv.value), now) ==>
          (r.Ok? <==> conv.value in db.convs || Deserted(conv.value, now))
    {
      if userID == "" { return Err(InvalidParameters); }
      if conv.None? { return Err(InvalidConversationID); }
      var ensured := EnsureConversation(ctx, conv.value, now, f);
      if ensured.Err? { return Err(ensured.error); }
      r := OpenSession(ctx, userID, conv.value, forceNew, id, now, f);
    }

    /**
     The second half of HandleDisconnect: deletes the conversation, with everything that hangs on it, if and
     only if nobody has a beat within the window, the one who leaves included, however many others are
     connected; a lookup that fails counts as nobody. (No run of the pipeline reaches a state in which the
     deletion is blocked.)
     */
    method DropIfDeserted(ctx: Context, c: Uuid, now: Time, f: LeaveFaults)
      requires Wired() && PostgresTxKey !in ctx.values && Keyed(txManager.pool.db)
      requires presStore.Valid() && presStore.clock <= now
      modifies presStore, txManager.pool`db, txManager.pool`touched
      ensures presStore.Valid() && presStore.clock == now && Keyed(txManager.pool.db)
      ensures var gone := f.range != Fine || Looked(old(presStore.Key(c)), now, f.prune) == {};
        && txManager.pool.db ==
             (if gone && f.delete != Refused then Dropped(old(txManager.pool.db), c) else old(txManager.pool.db))
        && presStore.Heard(c) == (if gone && f.clear != Refused then map[] else old(presStore.Heard(c)))
        && (f.prune != Refused && !Torn(old(presStore.CutOf(c)), now) ==>
              (gone <==> f.range != Fine || old(Deserted(c, now))))
      ensures forall d :: presStore.CutOf(d).None? || presStore.CutOf(d) == old(presStore.CutOf(d))
      ensures forall d | d != c :: presStore.Heard(d) == old(presStore.Heard(d))
    {
      var online := presStore.GetOnlineParticipants(c, now, f.prune, f.range);
      if online.Err? || online.value == {} {
        var _ := convRepo.DeleteConversation(ctx, c, f.delete);
        var _ := presStore.ClearConversation(c, now, f.clear);
      }
    }

    /**
     Succeeds if and only if the row could leave and nothing failed on the way; short of a second leave of
     the same user at the same moment an unleft row always can. Then DropIfDeserted decides about the
     conversation. A stop that fails ends the call: all that can have happened is that the row has left
     nevertheless, as StopSession says.
     */
    method HandleDisconnect(ctx: Context, senderID: Uuid, c: Uuid, now: Time, f: LeaveFaults)
        returns (r: Result<(), Error>)
      requires Wired() && PostgresTxKey !in ctx.values && Keyed(txManager.pool.db)
      requires presStore.Valid() && presStore.clock <= now
      modifies presStore, txManager.pool`db, txManager.pool`touched
      ensures presStore.Valid() && presStore.clock <= now && Keyed(txManager.pool.db)
      ensures r.Ok? <==> MayLeave(old(txManager.pool.db), senderID, now) && f.stop == NO_TX_FAULTS
      ensures var db, db' := old(txManager.pool.db), txManager.pool.db;
        var left :=
          if MayLeave(db, senderID, now) && Lasts(txManager.Shared(), f.stop.begin, f.stop.f, f.stop.commit)
          then Left(db, senderID, now) else db;
        var gone := r.Ok? && (f.range != Fine || Looked(old(presStore.Key(c)), now, f.prune) == {});
        && db' == (if gone && f.delete != Refused then Dropped(left, c) else left)
        && presStore.Heard(c) == (if gone && f.clear != Refused then map[] else old(presStore.Heard(c)))
        && (r.Ok? && f.prune != Refused && !Torn(old(presStore.CutOf(c)), now) ==>
              (gone <==> f.range != Fine || old(Deserted(c, now))))
      ensures forall d :: presStore.CutOf(d).None? || presStore.CutOf(d) == old(presStore.CutOf(d))
      ensures forall d | d != c || r.Err? :: presStore.Heard(d) == old(presStore.Heard(d))
    {
      var stopped := session.StopSession(ctx, senderID, now, f.stop.begin, f.stop.f, f.stop.commit);
      if stopped.Err? { return Err(stopped.error); }
      DropIfDeserted(ctx, c, now, f);
      return Ok(());
    }
  }
}
