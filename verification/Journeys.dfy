/**
 Whole lives of connections, as the WebSocket handler strings them together: connect, heartbeat, and
 either a disconnect or a broken connection followed by a return.
 */
module Journeys {
  import opened Common
  import opened Postgres
  import opened Presence
  import opened PresenceStore
  import opened Session
  import opened Manager
  import T = Tables

  /** A server with an empty database. */
  method Boot() returns (m: ManagerService)
    ensures fresh(m.presStore) && fresh(m.txManager.pool)
    ensures m.Wired() && m.presStore.Valid() && m.presStore.clock == 0
    ensures m.presStore.heard == map[] && m.presStore.cuts == map[] && m.txManager.pool.db == T.EMPTY
  {
    var pool := new Executor(T.EMPTY);
    var tx := new TxManager(pool, ServicesTxKey);
    var convs := new ConversationRepo(pool);
    var parts := new ParticipantRepo(pool);
    var session := new SessionService(parts, tx);
    var presence := new RedisPresenceStore();
    m := new ManagerService(convs, presence, session, tx);
  }

  const NO_TICK_FAULTS := Ticks(t => Fine, t => Fine, t => NO_TX_FAULTS)

  const BACKGROUND := Context(map[])

  /**
   A user connects, the heartbeat starts some delay later and runs without failing syncs until a close frame
   ends the connection, so that nobody marks the session as left. Whoever the user was, and whatever the phase
   of the syncs: a return within a minute, less the delay, never mints a new identity, and gives the same one
   if the user has no other.
   */
  method ReturnInTime(
      m: ManagerService, ctx: Context, user: string, c: Uuid,
      forceNew: bool, id: Uuid, at: Time, connect: ConnectFaults,
      start: Time, stop: Time, tie: bool, ticks: Ticks, id': Uuid, now: Time, again: StartFaults)
      returns (first: Result<(Uuid, bool), Error>, r: Result<Session, Error>)
    requires m.Wired() && PostgresTxKey !in ctx.values && Keyed(m.txManager.pool.db)
    requires m.presStore.Valid() && m.presStore.clock <= at <= start <= stop && SyncsOk(ticks, start, stop)
    requires now <= stop + 60_000 - (start - at) && again.find == Fine
    modifies m.presStore, m.txManager.pool`db, m.txManager.pool`touched
    ensures first.Ok? && r.Ok? ==>
      && !r.value.isNew
      && ((forall p: Uuid | Active(m.txManager.pool.db.parts, user, c, p) :: p == first.value.0) ==>
            r.value.sender == first.value.0)
  {
    hide Connected;
    r := Err(Unavailable);
    first := m.HandleConnect(ctx, user, Some(c), forceNew, id, at, connect);
    if first.Err? { return; }
    var sender := first.value.0;
    m.HandleHeartbeat(ctx, sender, c, start, stop, tie, ticks);
    SeenLately(at, start, stop, tie, start - at);
    assert SeenRecently(m.txManager.pool.db.parts, user, c, now, sender);
    r := m.session.StartSession(ctx, user, c, false, id', now, again);
  }

  /** One user connects to an empty server. */
  method Alone(user: string) returns (m: ManagerService)
    requires user != ""
    ensures fresh(m.presStore) && fresh(m.txManager.pool)
    ensures m.Wired() && m.presStore.Valid() && m.presStore.clock <= 0 && Keyed(m.txManager.pool.db)
    ensures m.presStore.Heard(7) == map[] && m.presStore.CutOf(7).None?
    ensures var db := m.txManager.pool.db;
      && 7 in db.convs && db.msgs == map[] && db.parts.Keys == {1}
      && Active(db.parts, user, 7, 1) && db.parts[1].lastSeen == 0
  {
    hide Connected;
    m := Boot();
    assert m.Deserted(7, 0);
    var first := m.HandleConnect(BACKGROUND, user, Some(7), false, 1, 0, NO_CONNECT_FAULTS);
    assert first.Ok? && first.value.0 == 1;
    assert m.txManager.pool.db.parts.Keys == {1};
  }

  /**
   The minute is exact: for every longer absence there is such a life, with no delay and no failure at
   all, after which the user is given a new identity although the old one never left.
   */
  method ReturnTooLate(absence: Time) returns (old_: Uuid, parts: map<Uuid, T.Participant>, r: Result<Session, Error>)
    requires absence > 60_000
    ensures Active(parts, "u", 7, old_) && r.Ok? && r.value.isNew && r.value.sender != old_
  {
    var m := Alone("u");
    m.HandleHeartbeat(BACKGROUND, 1, 7, 0, SYNC, false, NO_TICK_FAULTS);
    old_, parts := 1, m.txManager.pool.db.parts;
    assert parts.Keys == {1} && parts[1].lastSeen == SeenAt(0, 0, SYNC, false) == 0;
    var now := SYNC + absence;
    assert forall p: Uuid :: !SeenRecently(parts, "u", 7, now, p);
    r := m.session.StartSession(BACKGROUND, "u", 7, false, 2, now, NO_START_FAULTS);
  }

  /** Two users connect to an empty server and are together in one conversation. */
  method Together() returns (m: ManagerService)
    ensures fresh(m.presStore) && fresh(m.txManager.pool)
    ensures m.Wired() && m.presStore.Valid() && m.presStore.clock <= 0 && Keyed(m.txManager.pool.db)
    ensures m.presStore.Heard(7) == map[] && m.presStore.CutOf(7).None?
    ensures var db := m.txManager.pool.db;
      && 7 in db.convs && db.msgs == map[] && db.parts.Keys == {1, 2}
      && Active(db.parts, "a", 7, 1) && Active(db.parts, "b", 7, 2)
  {
    hide Connected;
    m := Alone("a");
    assert m.Deserted(7, 0);
    var b := m.HandleConnect(BACKGROUND, "b", Some(7), false, 2, 0, NO_CONNECT_FAULTS);
    assert b.Ok? && b.value.0 == 2;
    assert m.txManager.pool.db.parts.Keys == {1, 2};
  }

  /** The connection of one of them breaks before the first beat. */
  method OneLeaves() returns (m: ManagerService, before: T.Db)
    ensures fresh(m.presStore) && fresh(m.txManager.pool)
    ensures m.Wired() && m.presStore.Valid() && m.presStore.clock <= 1000 && Keyed(m.txManager.pool.db)
    ensures m.presStore.Heard(7) == map[] && m.presStore.CutOf(7).None?
    ensures Active(before.parts, "b", 7, 2)
    ensures m.txManager.pool.db.parts == map[] && 7 !in m.txManager.pool.db.convs
  {
    hide Looked;
    m := Together();
    before := m.txManager.pool.db;
    assert m.Deserted(7, 1000);
    var left := m.HandleDisconnect(BACKGROUND, 1, 7, 1000, NO_LEAVE_FAULTS);
    assert left.Ok?;
  }

  /**
   Two users are connected. The connection of one breaks before the first beat, and the conversation is
   deleted under the other. Both heartbeats go on; from then on a third user cannot connect, although
   nothing fails.
   */
  method DeletedUnderOthers()
    returns (before: T.Db, after: T.Db, second: Uuid, third: Result<(Uuid, bool), Error>)
    ensures Active(before.parts, "b", 7, second)
    ensures second !in after.parts && 7 !in after.convs
    ensures third.Err?
  {
    hide Connected;
    var m;
    m, before := OneLeaves();
    second, after := 2, m.txManager.pool.db;
    m.Beat(1, 7, 30_000, Fine, Fine);
    m.Beat(2, 7, 30_000, Fine, Fine);
    assert m.presStore.Heard(7) == map[1 := 30_000, 2 := 30_000];
    assert 2 in Online(m.presStore.Heard(7), 31_500);
    third := m.HandleConnect(BACKGROUND, "c", Some(7), false, 3, 31_500, NO_CONNECT_FAULTS);
  }

  /** One user connects, beats once, and a second later the connection breaks. */
  method LeftAlone() returns (m: ManagerService, r: Result<(), Error>)
    ensures fresh(m.presStore) && fresh(m.txManager.pool)
    ensures m.Wired() && m.presStore.Valid() && m.presStore.clock <= 31_000 && Keyed(m.txManager.pool.db)
    ensures m.presStore.Heard(7) == map[1 := 30_000] && m.presStore.CutOf(7).None?
    ensures var db := m.txManager.pool.db;
      && r.Ok? && 7 in db.convs && db.parts.Keys == {1}
      && db.parts[1].user == "u" && db.parts[1].conv == 7 && db.parts[1].leftAt == Some(31_000)
  {
    m := Alone("u");
    m.HandleHeartbeat(BACKGROUND, 1, 7, 0, 31_000, false, NO_TICK_FAULTS);
    assert m.presStore.Heard(7) == map[1 := 30_000];
    assert 1 in Online(m.presStore.Heard(7), 31_000);
    r := m.HandleDisconnect(BACKGROUND, 1, 7, 31_000, NO_LEAVE_FAULTS);
  }

  /**
   The other way round: the only user's connection breaks a second after a beat. The user is marked as
   left, nothing fails, and nobody is left, but the conversation stays.
   */
  method LastLeaves() returns (r: Result<(), Error>, after: T.Db)
    ensures r.Ok? && 7 in after.convs
    ensures after.parts.Keys == {1} && after.parts[1].leftAt.Some?
  {
    var m;
    m, r := LeftAlone();
    after := m.txManager.pool.db;
  }

  /** That user is back with a new identity. */
  method BackAgain()
    returns (m: ManagerService, first: Result<(), Error>, r: Result<(Uuid, bool), Error>)
    ensures fresh(m.presStore) && fresh(m.txManager.pool)
    ensures m.Wired() && m.presStore.Valid() && m.presStore.clock <= 32_000 && Keyed(m.txManager.pool.db)
    ensures m.presStore.Heard(7) == map[1 := 30_000] && m.presStore.CutOf(7).None?
    ensures var db := m.txManager.pool.db;
      && first.Ok? && r == Ok((2, true)) && db.parts.Keys == {1, 2} && Active(db.parts, "u", 7, 2)
      && db.parts[1].user == "u" && db.parts[1].conv == 7 && db.parts[1].leftAt == Some(31_000)
  {
    hide Connected;
    m, first := LeftAlone();
    var parts := m.txManager.pool.db.parts;
    assert forall p: Uuid :: !SeenRecently(parts, "u", 7, 32_000, p);
    assert 1 in Online(m.presStore.Heard(7), 32_000);
    r := m.HandleConnect(BACKGROUND, "u", Some(7), false, 2, 32_000, NO_CONNECT_FAULTS);
  }

  /**
   A user who left comes back with a new identity and leaves again later: the stamp of the first leave
   does not stand in the way of the second.
   */
  method LeavesTwice()
    returns (first: Result<(), Error>, again: Result<(Uuid, bool), Error>, second: Result<(), Error>, after: T.Db)
    ensures first.Ok? && again == Ok((2, true)) && second.Ok?
    ensures after.parts.Keys == {1, 2}
    ensures after.parts[1].user == after.parts[2].user && after.parts[1].conv == after.parts[2].conv
    ensures after.parts[1].leftAt == Some(31_000) && after.parts[2].leftAt == Some(40_000)
  {
    hide Looked;
    var m;
    m, first, again := BackAgain();
    assert 1 in Online(m.presStore.Heard(7), 40_000);
    second := m.HandleDisconnect(BACKGROUND, 2, 7, 40_000, NO_LEAVE_FAULTS);
    after := m.txManager.pool.db;
  }

  /**
   It stays for as long as the process runs: the heartbeat of a connection that broke without a close frame
   is never stopped. Once it beats on whole seconds without failures, nobody's disconnect deletes the
   conversation while the lookup works.
   */
  method LeaverKeepsRoom(
      m: ManagerService, ctx: Context, sender: Uuid, c: Uuid, at: Time, leave: LeaveFaults,
      start: Time, stop: Time, tie: bool, ticks: Ticks, other: Uuid, f: LeaveFaults)
      returns (left: Result<(), Error>, ghost between: T.Db, r: Result<(), Error>)
    requires m.Wired() && PostgresTxKey !in ctx.values && Keyed(m.txManager.pool.db)
    requires m.presStore.Valid() && m.presStore.clock <= at <= start && start + BEAT < stop && start % 1000 == 0
    requires BeatsOk(ticks, start, stop) && (tie || (stop - start) % BEAT != 0)
    requires f.prune != Refused && f.range == Fine && m.presStore.CutOf(c).None?
    modifies m.presStore, m.txManager.pool`db, m.txManager.pool`touched
    ensures left.Ok? && sender in between.parts ==> between.parts[sender].leftAt.Some?
    ensures between.convs == m.txManager.pool.db.convs && between.msgs == m.txManager.pool.db.msgs
  {
    hide Looked, RedisPresenceStore.Valid, LastBeat, LastSync, HeardAt, T.DeleteBlocked;
    left := m.HandleDisconnect(ctx, sender, c, at, leave);
    between := m.txManager.pool.db;
    m.HandleHeartbeat(ctx, sender, c, start, stop, tie, ticks);
    assert sender in Online(m.presStore.Heard(c), stop);
    r := m.HandleDisconnect(ctx, other, c, stop, f);
  }
}
