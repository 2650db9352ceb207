/**
 Sessions and identities of internal/core/services/session.go, and the timing of the heartbeat that
 keeps a session resumable.
 */
module Session {
  import opened Common
  import opened Postgres
  import T = Tables

  /** A session can be resumed for three minutes after it was last seen. */
  const REJOIN: Time := 180_000

  datatype Session = Session(user: string, conv: Uuid, sender: Uuid, joinedAt: Time, isNew: bool)

  datatype StartFaults = StartFaults(begin: bool, find: Fault, create: Fault, commit: Fault)

  const NO_START_FAULTS := StartFaults(true, Fine, Fine, Fine)

  predicate SeenRecently(parts: map<Uuid, T.Participant>, user: string, c: Uuid, now: Time, p: Uuid) {
    Active(parts, user, c, p) && now - parts[p].lastSeen <= REJOIN
  }

  /** Some unleft row of this user in this conversation was seen within three minutes. */
  ghost predicate Reusable(parts: map<Uuid, T.Participant>, user: string, c: Uuid, now: Time) {
    exists p: Uuid :: SeenRecently(parts, user, c, now, p)
  }

  /** A row that ORDER BY last_seen_at DESC LIMIT 1 may return. */
  ghost predicate MostRecent(parts: map<Uuid, T.Participant>, user: string, c: Uuid, pick: Uuid) {
    && Active(parts, user, c, pick)
    && forall p: Uuid | Active(parts, user, c, p) :: parts[p].lastSeen <= parts[pick].lastSeen
  }

  /** A statement in a transaction of its own has its effect although begin, f and commit happen to them. */
  predicate Lasts(shared: bool, begin: bool, f: Fault, commit: Fault) {
    begin && f != Refused && (shared ==> f == Fine && commit != Refused)
  }

  /**
   What a call of StartSession that found the tables as db and left them as db' may answer: an unleft
   row of this user and conversation, an old one if and only if a new one is not forced, the lookup
   worked and some unleft row of the user was seen within three minutes. A new row is stored when its INSERT
   was executed, with an effective transaction also answered and committed. Only the choice among rows seen
   equally recently is open.
   */
  ghost predicate Started(
      shared: bool, db: T.Db, db': T.Db, user: string, c: Uuid, forceNew: bool, id: Uuid, now: Time, f: StartFaults,
      r: Result<Session, Error>)
  {
    var mint := forceNew || f.find != Fine || !Reusable(db.parts, user, c, now);
    var fits := id != NIL && id !in db.parts && c in db.convs;
    var row := T.Participant(user, c, now, now, None);
    && db' == (if c != NIL && mint && fits && Lasts(shared, f.begin, f.create, f.commit)
               then db.(parts := db.parts[id := row]) else db)
    && (r.Ok? <==> c != NIL && f.begin && f.commit == Fine && (mint ==> fits && f.create == Fine))
    && (r.Ok? ==>
          && r.value.user == user && r.value.conv == c && r.value.isNew == mint
          && r.value.sender in db'.parts && r.value.joinedAt == db'.parts[r.value.sender].joinedAt
          && (if mint then r.value.sender == id
              else SeenRecently(db.parts, user, c, now, r.value.sender)
                   && MostRecent(db.parts, user, c, r.value.sender)))
  }

  /** A most recently seen unleft row decides for all of them. */
  lemma MostRecentDecides(parts: map<Uuid, T.Participant>, user: string, c: Uuid, now: Time, best: Uuid)
    requires MostRecent(parts, user, c, best)
    ensures Reusable(parts, user, c, now) <==> SeenRecently(parts, user, c, now, best)
  {
  }

  /** The period of the syncs. */
  const SYNC: Time := 120_000

  /** How many sync ticks a heartbeat serves; a tick at the very end is served if tie says so. */
  function Syncs(start: Time, stop: Time, tie: bool): nat
    requires start <= stop
  {
    var n := (stop - start) / SYNC;
    if n > 0 && start + SYNC * n == stop && !tie then n - 1 else n
  }

  /** When a session that was seen at seen was last seen after such a heartbeat. */
  function SeenAt(seen: Time, start: Time, stop: Time, tie: bool): Time
    requires start <= stop
  {
    var n := Syncs(start, stop, tie);
    if n == 0 then seen else start + SYNC * n
  }

  /** A heartbeat never leaves a session unseen for longer than 120 seconds, plus the delay of its start. */
  lemma SeenLately(seen: Time, start: Time, stop: Time, tie: bool, delay: nat)
    requires start <= stop && start - delay <= seen <= start
    ensures stop - SYNC - delay <= SeenAt(seen, start, stop, tie) <= stop
  {
  }

  /** The session that heartbeats from start to stop, begun d after it was last seen, leaves behind. */
  function Beaten(parts: map<Uuid, T.Participant>, id: Uuid, d: nat, start: Time, stop: Time, tie: bool)
    : map<Uuid, T.Participant>
    requires id in parts && start <= stop
  {
    parts[id := parts[id].(lastSeen := SeenAt(start - d, start, stop, tie))]
  }

  /** After this heartbeat and absence the user's session can be resumed. */
  ghost predicate Resumable(
      parts: map<Uuid, T.Participant>, user: string, c: Uuid, id: Uuid, d: nat, absence: Time,
      start: Time, stop: Time, tie: bool)
  {
    id in parts && start <= stop ==>
      Reusable(Beaten(parts, id, d, start, stop, tie), user, c, stop + absence)
  }

  /**
   A user whose only unleft row this is gets it back after every heartbeat, whenever it started and
   stopped, if and only if the absence and the delay between connect and heartbeat together are at most
   a minute.
   */
  lemma ResumableIff(parts: map<Uuid, T.Participant>, user: string, c: Uuid, id: Uuid, d: nat, absence: Time)
    requires Active(parts, user, c, id) && forall p: Uuid | Active(parts, user, c, p) :: p == id
    ensures
      (forall start, stop, tie {:trigger Resumable(parts, user, c, id, d, absence, start, stop, tie)} ::
         Resumable(parts, user, c, id, d, absence, start, stop, tie))
      <==> absence + d <= 60_000
  {
    if absence + d <= 60_000 {
      forall start, stop, tie ensures Resumable(parts, user, c, id, d, absence, start, stop, tie) {
        if start <= stop {
          SeenLately(start - d, start, stop, tie, d);
          assert SeenRecently(Beaten(parts, id, d, start, stop, tie), user, c, stop + absence, id);
        }
      }
    } else {
      var after := Beaten(parts, id, d, 0, SYNC, false);
      var now := SYNC + absence;
      forall p: Uuid ensures !SeenRecently(after, user, c, now, p) {
        assert Active(after, user, c, p) ==> Active(parts, user, c, p);
      }
      assert !Resumable(parts, user, c, id, d, absence, 0, SYNC, false);
    }
  }

  /** The row is there, has not left, and no other row of the user left at this moment. */
  predicate MayLeave(db: T.Db, id: Uuid, now: Time) {
    && id != NIL && id in db.parts && db.parts[id].leftAt.None?
    && forall q | q in db.parts && q != id ::
         db.parts[q].user != db.parts[id].user || db.parts[q].conv != db.parts[id].conv
         || db.parts[q].leftAt != Some(now)
  }

  function Left(db: T.Db, id: Uuid, now: Time): T.Db
    requires id in db.parts
  {
    db.(parts := db.parts[id := db.parts[id].(lastSeen := now, leftAt := Some(now))])
  }

  function Seen(db: T.Db, id: Uuid, now: Time): T.Db
    requires id in db.parts
  {
    db.(parts := db.parts[id := db.parts[id].(lastSeen := now)])
  }

  class SessionService {
    const repo: ParticipantRepo
    const txManager: TxManager

    constructor (repo: ParticipantRepo, txManager: TxManager)
      ensures this.repo == repo && this.txManager == txManager
    {
      this.repo, this.txManager := repo, txManager;
    }

    /**
     Looks only at a most recently seen unleft row, which amounts to the plain rule of Started.
     */
    method StartSession(
        ctx: Context, user: string, c: Uuid, forceNew: bool, id: Uuid, now: Time, f: StartFaults)
        returns (r: Result<Session, Error>)
      requires repo.pool == txManager.pool && PostgresTxKey !in ctx.values
      modifies repo.pool`db, repo.pool`touched
      ensures Started(txManager.Shared(), old(repo.pool.db), repo.pool.db, user, c, forceNew, id, now, f, r)
    {
      if !f.begin { return Err(Unavailable); }
      var tx, txCtx := txManager.Begin(ctx);
      var session: Option<Session> := None;
      if !forceNew {
        var found := repo.FindRecentParticipant(txCtx, user, c, f.find);
        if found.Ok? && found.value.Some? {
          var p := found.value.value;
          var row := GetExecutor(txCtx, repo.pool).db.parts[p];
          MostRecentDecides(GetExecutor(txCtx, repo.pool).db.parts, user, c, now, p);
          if now - row.lastSeen <= REJOIN && row.leftAt.None? {
            session := Some(Session(user, c, p, row.joinedAt, false));
          }
        }
      }
      if session.None? {
        var created := repo.CreateParticipant(txCtx, id, T.Participant(user, c, now, now, None), f.create);
        if created.Err? { return Err(created.error); }
        session := Some(Session(user, c, id, now, true));
      }
      var committed := txManager.Commit(tx, f.commit);
      if !committed { return Err(Unavailable); }
      return Ok(session.value);
    }

    /**
     MarkLeft in a transaction. Success means that all of it went through. A failed stop leaves the row as it
     was, except that as-run the statement has its effect whenever it was executed, and with an effective
     transaction when the commit was.
     */
    method StopSession(ctx: Context, id: Uuid, now: Time, begin: bool, f: Fault, commit: Fault)
        returns (r: Result<(), Error>)
      requires repo.pool == txManager.pool && PostgresTxKey !in ctx.values
      modifies repo.pool`db, repo.pool`touched
      ensures var db := old(repo.pool.db);
        && (r.Ok? <==> MayLeave(db, id, now) && begin && f == Fine && commit == Fine)
        && repo.pool.db ==
             if MayLeave(db, id, now) && Lasts(txManager.Shared(), begin, f, commit) then Left(db, id, now) else db
    {
      if !begin { return Err(Unavailable); }
      var tx, txCtx := txManager.Begin(ctx);
      r := repo.MarkLeft(txCtx, id, now, f);
      if r.Err? { return; }
      var committed := txManager.Commit(tx, commit);
      if !committed { return Err(Unavailable); }
    }

    /** UpdatePresence in a transaction, with the same exceptions. */
    method SessionSync(ctx: Context, id: Uuid, now: Time, begin: bool, f: Fault, commit: Fault)
        returns (r: Result<(), Error>)
      requires repo.pool == txManager.pool && PostgresTxKey !in ctx.values
      modifies repo.pool`db, repo.pool`touched
      ensures var db := old(repo.pool.db);
        && (r.Ok? <==> id != NIL && id in db.parts && begin && f == Fine && commit == Fine)
        && repo.pool.db ==
             if id != NIL && id in db.parts && Lasts(txManager.Shared(), begin, f, commit) then Seen(db, id, now)
             else db
    {
      if !begin { return Err(Unavailable); }
      var tx, txCtx := txManager.Begin(ctx);
      r := repo.UpdatePresence(txCtx, id, now, f);
      if r.Err? { return; }
      var committed := txManager.Commit(tx, commit);
      if !committed { return Err(Unavailable); }
    }
  }
}
