/**
 Executors, transactions and the message and conversation repositories of internal/plugins/postgres,
 with TxManager of internal/core/services. An executor is a *sql.DB or a *sql.Tx: the tables its
 statements run on.
 */
module Postgres {
  import opened Common
  import opened Handling
  import opened History
  import T = Tables

  class Executor {
    var db: T.Db
    /** a statement has changed db; an idle transaction has nothing to commit */
    var touched: bool

    constructor (db: T.Db)
      ensures this.db == db && !touched
    {
      this.db, touched := db, false;
    }
  }

  /** The two package-private key types, both written txKeyType in the source. */
  datatype CtxKey = ServicesTxKey | PostgresTxKey

  datatype Context = Context(values: map<CtxKey, Executor>)

  /** Statements join the transaction only when it is stored under the key of package postgres. */
  function GetExecutor(ctx: Context, pool: Executor): Executor {
    if PostgresTxKey in ctx.values then ctx.values[PostgresTxKey] else pool
  }

  /** The transaction that package services puts into the context is never found; the intended key is. */
  lemma ServicesKeyIsNeverFound(ctx: Context, pool: Executor, tx: Executor)
    ensures GetExecutor(Context(ctx.values[ServicesTxKey := tx]), pool) == GetExecutor(ctx, pool)
    ensures GetExecutor(Context(ctx.values[PostgresTxKey := tx]), pool) == tx
  {
  }

  /** TxManager; WithTx is Begin, the callback, then Commit or nothing (Rollback). */
  class TxManager {
    const pool: Executor
    const key: CtxKey

    constructor (pool: Executor, key: CtxKey)
      ensures this.pool == pool && this.key == key
    {
      this.pool, this.key := pool, key;
    }

    /** Statements of the callback join the transaction. */
    predicate Shared() { key == PostgresTxKey }

    method Begin(ctx: Context) returns (tx: Executor, ctx': Context)
      ensures fresh(tx) && tx.db == pool.db && !tx.touched
      ensures ctx' == Context(ctx.values[key := tx])
    {
      tx := new Executor(pool.db);
      ctx' := Context(ctx.values[key := tx]);
    }

    method Commit(tx: Executor, f: Fault) returns (ok: bool)
      requires tx != pool
      modifies pool`db
      ensures pool.db == (if tx.touched && f != Refused then tx.db else old(pool.db))
      ensures ok <==> f == Fine
    {
      if tx.touched && f != Refused { pool.db := tx.db; }
      ok := f == Fine;
    }
  }

  // ------------------------------------------------------------------ messages

  class MessageRepo {
    const pool: Executor

    constructor (pool: Executor)
      ensures this.pool == pool
    {
      this.pool := pool;
    }

    method SaveWithSequence(ctx: Context, msg: Message, now: Time, draw: Fault, insert: Fault)
        returns (r: Result<nat, Error>)
      modifies GetExecutor(ctx, pool)`db, GetExecutor(ctx, pool)`touched
      ensures var exec := GetExecutor(ctx, pool);
        && (exec.db, r) == Save(old(exec.db), msg, now, draw, insert)
        && (exec.db == old(exec.db) || exec.touched)
    {
      if msg.conv == NIL { return Err(InvalidConversationID); }
      var exec := GetExecutor(ctx, pool);
      if draw == Refused { return Err(Unavailable); }
      var bumped := T.BumpCounter(exec.db, msg.conv);
      if bumped.None? { return Err(if draw == Fine then SequenceNotInitialized else Unavailable); }
      exec.db, exec.touched := bumped.value, true;
      if draw == ReplyLost { return Err(Unavailable); }
      var n := exec.db.counters[msg.conv];
      if insert == Refused { return Err(Unavailable); }
      var stored := T.InsertMessage(exec.db, msg.id, T.Row(msg.conv, msg.sender, n, msg.text, now));
      match stored
      case Err(e) => return Err(Sql(e));
      case Ok(db) =>
        exec.db := db;
        return if insert == Fine then Ok(n) else Err(Unavailable);
    }

    /** The rows of the last minute, all of them and nothing else, in the order of their numbers. */
    method GetVisibleMessages(ctx: Context, c: Uuid, now: Time, f: Fault) returns (r: Result<seq<Shown>, Error>)
      ensures c == NIL ==> r == Err(InvalidConversationID)
      ensures c != NIL && f != Fine ==> r == Err(Unavailable)
      ensures c != NIL && f == Fine ==>
        && var db := GetExecutor(ctx, pool).db;
        && r.Ok? && IsWindow(db, c, now, Ids(r.value))
        && (forall x | x in r.value :: x.id in db.msgs && x.row == db.msgs[x.id])
        && forall m :: m in Ids(r.value) <==>
             m in db.msgs && db.msgs[m].conv == c && db.msgs[m].createdAt >= now - 60_000
    {
      if c == NIL { return Err(InvalidConversationID); }
      var db := GetExecutor(ctx, pool).db;
      if f != Fine { return Err(Unavailable); }
      var msgs: seq<Shown> := [];
      assert InOrder(msgs);
      hide InOrder, Ids, IsWindow;
      var todo := set m | m in db.msgs && InWindow(db, c, now, m);
      while todo != {}
        invariant forall m | m in todo :: InWindow(db, c, now, m) && m !in Ids(msgs)
        invariant forall m | InWindow(db, c, now, m) :: m in todo || m in Ids(msgs)
        invariant forall x | x in msgs :: InWindow(db, c, now, x.id) && x.row == db.msgs[x.id]
        invariant forall x, m | x in msgs && m in todo :: x.row.seqNo <= db.msgs[m].seqNo
        invariant InOrder(msgs)
        decreases todo
      {
        LeastExists(db, todo);
        var m :| m in todo && forall n | n in todo :: db.msgs[m].seqNo <= db.msgs[n].seqNo;
        ghost var before := msgs;
        msgs := msgs + [Shown(m, db.msgs[m])];
        OneMore(before, Shown(m, db.msgs[m]), msgs);
        todo := todo - {m};
      }
      OrderedWindow(db, c, now, msgs);
      WindowIsMinute(db, c, now, Ids(msgs));
      return Ok(msgs);
    }
  }

  // ------------------------------------------------------------------ conversations

  class ConversationRepo {
    const pool: Executor

    constructor (pool: Executor)
      ensures this.pool == pool
    {
      this.pool := pool;
    }

    /**
     Creates the conversation and its counter unless they are there, each when its statement is executed: f, g
     and h are the fates of the INSERT, of the SELECT that follows for an existing conversation, and of the
     INSERT of the counter. An existing counter, row or participant is left as it is.
     */
    method CreateConversation(ctx: Context, c: Uuid, now: Time, f: Fault, g: Fault, h: Fault)
        returns (r: Result<Time, Error>)
      modifies GetExecutor(ctx, pool)`db, GetExecutor(ctx, pool)`touched
      ensures var db, db' := old(GetExecutor(ctx, pool).db), GetExecutor(ctx, pool).db;
        && var known := c != NIL && f == Fine && (c in db.convs ==> g == Fine);
        && db' == db.(convs := db'.convs, counters := db'.counters)
        && db'.convs == (if c != NIL && f != Refused && c !in db.convs then db.convs[c := now] else db.convs)
        && db'.counters ==
             (if known && h != Refused && c !in db.counters then db.counters[c := 0] else db.counters)
        && (c == NIL ==> r == Err(InvalidConversationID))
        && (r.Ok? <==> known && h == Fine)
        && (r.Ok? ==> c in db'.convs && r.value == db'.convs[c])
    {
      if c == NIL { return Err(InvalidConversationID); }
      var exec := GetExecutor(ctx, pool);
      if f == Refused { return Err(Unavailable); }
      var isNew := c !in exec.db.convs;
      exec.db, exec.touched := T.InsertConversation(exec.db, c, now), true;
      if f == ReplyLost { return Err(Unavailable); }
      if !isNew && g != Fine { return Err(Unavailable); }
      var createdAt := exec.db.convs[c];
      if h == Refused { return Err(Unavailable); }
      var counted := T.InsertCounter(exec.db, c);
      match counted
      case Err(e) => return Err(Sql(e));
      case Ok(db) =>
        exec.db := db;
        return if h == Fine then Ok(createdAt) else Err(Unavailable);
    }

    /** Deletes the conversation with everything that hangs on it, and nothing else. */
    method DeleteConversation(ctx: Context, c: Uuid, f: Fault) returns (r: Result<(), Error>)
      modifies GetExecutor(ctx, pool)`db, GetExecutor(ctx, pool)`touched
      ensures var db, db' := old(GetExecutor(ctx, pool).db), GetExecutor(ctx, pool).db;
        && (c == NIL ==> r == Err(InvalidConversationID))
        && var blocked := exists m | m in db.msgs ::
             db.msgs[m].conv != c && db.msgs[m].sender in db.parts && db.parts[db.msgs[m].sender].conv == c;
        && (c == NIL || f == Refused || blocked || c !in db.convs ==> db' == db)
        && (r.Ok? ==> c in db.convs)
        && (c != NIL && f != Refused && !T.DeleteBlocked(db, c) ==> db' == T.DeleteConversation(db, c).value)
        && (c != NIL && f == Fine && c !in db.convs ==> r == Err(ConversationNotFound))
        && (r == Err(Sql(ForeignKeyViolation)) <==> c != NIL && f != Refused && c in db.convs && blocked)
        && (c != NIL && f != Refused && c in db.convs && !blocked ==>
              && (r.Ok? <==> f == Fine)
              && c !in db'.convs && c !in db'.counters
              && (forall d | d != c :: (d in db'.convs <==> d in db.convs) && (d in db'.counters <==> d in db.counters))
              && (forall d | d in db'.counters :: db'.counters[d] == db.counters[d])
              && (forall p :: p in db'.parts <==> p in db.parts && db.parts[p].conv != c)
              && (forall p | p in db'.parts :: db'.parts[p] == db.parts[p])
              && (forall m :: m in db'.msgs <==> m in db.msgs && db.msgs[m].conv != c)
              && (forall m | m in db'.msgs :: db'.msgs[m] == db.msgs[m]))
    {
      if c == NIL { return Err(InvalidConversationID); }
      var exec := GetExecutor(ctx, pool);
      if f == Refused { return Err(Unavailable); }
      var found := c in exec.db.convs;
      var deleted := T.DeleteConversation(exec.db, c);
      match deleted
      case Err(e) => return Err(Sql(e));
      case Ok(db) =>
        exec.db, exec.touched := db, true;
        if f == ReplyLost { return Err(Unavailable); }
        return if found then Ok(()) else Err(ConversationNotFound);
    }
  }

  // ------------------------------------------------------------------ participants

  /** An unleft row of this user in this conversation. */
  predicate Active(parts: map<Uuid, T.Participant>, user: string, c: Uuid, id: Uuid) {
    id in parts && parts[id].user == user && parts[id].conv == c && parts[id].leftAt.None?
  }

  class ParticipantRepo {
    const pool: Executor

    constructor (pool: Executor)
      ensures this.pool == pool
    {
      this.pool := pool;
    }

    /** A most recently seen unleft row, or none if there is no unleft row. */
    method FindRecentParticipant(ctx: Context, user: string, c: Uuid, f: Fault)
        returns (r: Result<Option<Uuid>, Error>)
      ensures c == NIL ==> r == Err(InvalidConversationID)
      ensures c != NIL && f != Fine ==> r == Err(Unavailable)
      ensures c != NIL && f == Fine ==>
        && var parts := GetExecutor(ctx, pool).db.parts;
        && r.Ok?
        && (r.value.None? <==>
              forall p | p in parts :: parts[p].user != user || parts[p].conv != c || parts[p].leftAt.Some?)
        && (r.value.Some? ==>
              && Active(parts, user, c, r.value.value)
              && forall p: Uuid | Active(parts, user, c, p) :: parts[p].lastSeen <= parts[r.value.value].lastSeen)
    {
      if c == NIL { return Err(InvalidConversationID); }
      var parts := GetExecutor(ctx, pool).db.parts;
      if f != Fine { return Err(Unavailable); }
      var best: Option<Uuid> := None;
      var todo := set p | p in parts && Active(parts, user, c, p);
      while todo != {}
        invariant forall p | p in todo :: Active(parts, user, c, p)
        invariant best.Some? ==> Active(parts, user, c, best.value)
        invariant forall p: Uuid | Active(parts, user, c, p) ::
          p in todo || (best.Some? && parts[p].lastSeen <= parts[best.value].lastSeen)
        decreases todo
      {
        var p :| p in todo;
        if best.None? || parts[p].lastSeen > parts[best.value].lastSeen { best := Some(p); }
        todo := todo - {p};
      }
      return Ok(best);
    }

    /** Adds one row; every other row stays as it is. */
    method CreateParticipant(ctx: Context, id: Uuid, p: T.Participant, f: Fault) returns (r: Result<(), Error>)
      modifies GetExecutor(ctx, pool)`db, GetExecutor(ctx, pool)`touched
      ensures var db, db' := old(GetExecutor(ctx, pool).db), GetExecutor(ctx, pool).db;
        && (db' == db || GetExecutor(ctx, pool).touched)
        && (id == NIL ==> r == Err(InvalidParticipantID))
        && (id != NIL && p.conv == NIL ==> r == Err(InvalidConversationID))
        && var sent := id != NIL && p.conv != NIL && f != Refused;
        && (r == Err(Sql(UniqueViolation)) <==> sent && id in db.parts)
        && (r == Err(Sql(ForeignKeyViolation)) <==> sent && id !in db.parts && p.conv !in db.convs)
        && var done := sent && id !in db.parts && p.conv in db.convs;
        && (r.Ok? <==> done && f == Fine)
        && db' == if done then db.(parts := db.parts[id := p]) else db
    {
      if id == NIL { return Err(InvalidParticipantID); }
      if p.conv == NIL { return Err(InvalidConversationID); }
      var exec := GetExecutor(ctx, pool);
      if f == Refused { return Err(Unavailable); }
      match T.InsertParticipant(exec.db, id, p)
      case Err(e) => return Err(Sql(e));
      case Ok(db) =>
        exec.db, exec.touched := db, true;
        return if f == Fine then Ok(()) else Err(Unavailable);
    }

    /** Refreshes last_seen_at, of rows that have left as well; nothing else changes. */
    method UpdatePresence(ctx: Context, id: Uuid, now: Time, f: Fault) returns (r: Result<(), Error>)
      modifies GetExecutor(ctx, pool)`db, GetExecutor(ctx, pool)`touched
      ensures var db, db' := old(GetExecutor(ctx, pool).db), GetExecutor(ctx, pool).db;
        && (db' == db || GetExecutor(ctx, pool).touched)
        && (id == NIL ==> r == Err(InvalidParticipantID))
        && (id != NIL && f == Fine && id !in db.parts ==> r == Err(ParticipantNotFound))
        && var done := id != NIL && f != Refused && id in db.parts;
        && (r.Ok? <==> done && f == Fine)
        && db' == if done then db.(parts := db.parts[id := db.parts[id].(lastSeen := now)]) else db
    {
      if id == NIL { return Err(InvalidParticipantID); }
      var exec := GetExecutor(ctx, pool);
      if f == Refused { return Err(Unavailable); }
      match T.TouchParticipant(exec.db, id, now)
      case None => return Err(if f == Fine then ParticipantNotFound else Unavailable);
      case Some(db) =>
        exec.db, exec.touched := db, true;
        return if f == Fine then Ok(()) else Err(Unavailable);
    }

    /**
     Leaves for good. It fails on a row that has already left, and on one whose user has another row
     in the conversation that left at the very same moment.
     */
    method MarkLeft(ctx: Context, id: Uuid, now: Time, f: Fault) returns (r: Result<(), Error>)
      modifies GetExecutor(ctx, pool)`db, GetExecutor(ctx, pool)`touched
      ensures var db, db' := old(GetExecutor(ctx, pool).db), GetExecutor(ctx, pool).db;
        && (db' == db || GetExecutor(ctx, pool).touched)
        && (id == NIL ==> r == Err(InvalidParticipantID))
        && var there := id != NIL && f != Refused && id in db.parts && db.parts[id].leftAt.None?;
        && (id != NIL && f == Fine && !there ==> r == Err(ParticipantNotFound))
        && var taken := there && exists q | q in db.parts && q != id ::
             db.parts[q].user == db.parts[id].user && db.parts[q].conv == db.parts[id].conv
             && db.parts[q].leftAt == Some(now);
        && (r == Err(Sql(UniqueViolation)) <==> taken)
        && var done := there && !taken;
        && (r.Ok? <==> done && f == Fine)
        && db' == if done then db.(parts := db.parts[id := db.parts[id].(lastSeen := now, leftAt := Some(now))]) else db
    {
      if id == NIL { return Err(InvalidParticipantID); }
      var exec := GetExecutor(ctx, pool);
      if f == Refused { return Err(Unavailable); }
      match T.LeaveParticipant(exec.db, id, now)
      case Err(e) => return Err(Sql(e));
      case Ok(None) => return Err(if f == Fine then ParticipantNotFound else Unavailable);
      case Ok(Some(db)) =>
        exec.db, exec.touched := db, true;
        return if f == Fine then Ok(()) else Err(Unavailable);
    }
  }
}
