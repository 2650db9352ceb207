/**
 The Postgres tables of migrations/0001_init_chat_schema.up.sql, with the SQL statements of the
 repositories as functions on them. Each statement is atomic; keys, uniqueness, foreign keys and
 cascades are those of the schema.
 */
module Tables {
  import opened Common

  datatype Participant = Participant(
    user: string, conv: Uuid, joinedAt: Time, lastSeen: Time, leftAt: Option<Time>)

  datatype Row = Row(conv: Uuid, sender: Uuid, seqNo: nat, text: string, createdAt: Time)

  datatype Db = Db(
    convs: map<Uuid, Time>,
    counters: map<Uuid, nat>,
    parts: map<Uuid, Participant>,
    msgs: map<Uuid, Row>)

  const EMPTY := Db(map[], map[], map[], map[])

  /** INSERT INTO conversations ... ON CONFLICT DO NOTHING */
  function InsertConversation(db: Db, c: Uuid, now: Time): Db {
    if c in db.convs then db else db.(convs := db.convs[c := now])
  }

  /** INSERT INTO conversation_sequences (c, 0) ON CONFLICT DO NOTHING */
  function InsertCounter(db: Db, c: Uuid): Result<Db, SqlError> {
    if c == NIL then Err(CheckViolation)
    else if c in db.counters then Ok(db)
    else if c !in db.convs then Err(ForeignKeyViolation)
    else Ok(db.(counters := db.counters[c := 0]))
  }

  /**
   True when messages of another conversation refer to a participant of c. messages.sender_id
   has no cascade, so such a message makes the deletion of c fail.
   */
  predicate DeleteBlocked(db: Db, c: Uuid) {
    exists m | m in db.msgs ::
      && db.msgs[m].conv != c
      && db.msgs[m].sender in db.parts
      && db.parts[db.msgs[m].sender].conv == c
  }

  /** DELETE FROM conversations WHERE id = c, with its three cascades. */
  function DeleteConversation(db: Db, c: Uuid): Result<Db, SqlError> {
    if c in db.convs && DeleteBlocked(db, c) then Err(ForeignKeyViolation)
    else if c !in db.convs then Ok(db)
    else Ok(Db(
      db.convs - {c},
      db.counters - {c},
      map p | p in db.parts && db.parts[p].conv != c :: db.parts[p],
      map m | m in db.msgs && db.msgs[m].conv != c :: db.msgs[m]))
  }

  /** UPDATE conversation_sequences SET last_seq = last_seq + 1 ... RETURNING last_seq */
  function BumpCounter(db: Db, c: Uuid): Option<Db> {
    if c in db.counters then Some(db.(counters := db.counters[c := db.counters[c] + 1])) else None
  }

  predicate SeqTaken(db: Db, c: Uuid, n: nat) {
    exists m | m in db.msgs :: db.msgs[m].conv == c && db.msgs[m].seqNo == n
  }

  /** INSERT INTO messages: primary key, UNIQUE (conversation_id, seq), then the foreign keys. */
  function InsertMessage(db: Db, id: Uuid, row: Row): Result<Db, SqlError> {
    if id in db.msgs || SeqTaken(db, row.conv, row.seqNo) then Err(UniqueViolation)
    else if row.conv !in db.convs || row.sender !in db.parts then Err(ForeignKeyViolation)
    else Ok(db.(msgs := db.msgs[id := row]))
  }

  /** INSERT INTO conversation_participants (NULL left_at values never clash) */
  function InsertParticipant(db: Db, id: Uuid, p: Participant): Result<Db, SqlError> {
    if id in db.parts then Err(UniqueViolation)
    else if p.conv !in db.convs then Err(ForeignKeyViolation)
    else Ok(db.(parts := db.parts[id := p]))
  }

  /** UPDATE conversation_participants SET last_seen_at = now() WHERE id = $1 */
  function TouchParticipant(db: Db, id: Uuid, now: Time): Option<Db> {
    if id in db.parts then Some(db.(parts := db.parts[id := db.parts[id].(lastSeen := now)])) else None
  }

  /** Another row of the same user and conversation already carries this left_at stamp. */
  predicate LeftAtTaken(db: Db, id: Uuid, now: Time)
    requires id in db.parts
  {
    exists q | q in db.parts && q != id ::
      && db.parts[q].user == db.parts[id].user
      && db.parts[q].conv == db.parts[id].conv
      && db.parts[q].leftAt == Some(now)
  }

  /**
   UPDATE conversation_participants SET left_at = now(), last_seen_at = now()
   WHERE id = $1 AND left_at IS NULL. Ok(None) means that no row matched.
   */
  function LeaveParticipant(db: Db, id: Uuid, now: Time): Result<Option<Db>, SqlError> {
    if id !in db.parts || db.parts[id].leftAt.Some? then Ok(None)
    else if LeftAtTaken(db, id, now) then Err(UniqueViolation)
    else Ok(Some(db.(parts := db.parts[id := db.parts[id].(lastSeen := now, leftAt := Some(now))])))
  }
}
