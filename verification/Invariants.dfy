/** What every reachable state of the pipeline satisfies, one predicate per concern. */
module Invariants {
  import opened Common
  import opened Machine
  import T = Tables
  import S = Streams

  /** Streams are well formed and carry only payloads of their own conversation's participants. */
  ghost predicate StreamsOk(streams: map<Uuid, S.Stream>, minted: map<Uuid, Mint>) {
    forall c | c in streams ::
      && S.WellFormed(streams[c])
      && forall id: nat {:trigger PayloadOk(streams[c].log[id], c, minted)} | id < |streams[c].log| ::
           PayloadOk(streams[c].log[id], c, minted)
  }

  ghost predicate PayloadOk(p: S.Payload, c: Uuid, minted: map<Uuid, Mint>) {
    p.conv == c && p.sender in minted && minted[p.sender].conv == c
  }

  ghost predicate HandledBy(jobs: seq<Job>, i: nat, c: Uuid, id: nat) {
    i < |jobs| && jobs[i].conv == c && jobs[i].entry == id && jobs[i].stored
  }

  /** Some job stored the row of entry id of conversation c. */
  ghost predicate Handled(jobs: seq<Job>, c: Uuid, id: nat) {
    exists i :: HandledBy(jobs, i, c, id)
  }

  /** Later invocations handle later entries. */
  ghost predicate InOrder(a: Job, b: Job) {
    a.conv == b.conv ==> a.entry < b.entry
  }

  /** Every job handles a delivered entry, no two the same one, and only stored entries are acknowledged. */
  ghost predicate JobsOk(streams: map<Uuid, S.Stream>, jobs: seq<Job>) {
    && (forall i {:trigger JobOk(streams, jobs[i])} | 0 <= i < |jobs| :: JobOk(streams, jobs[i]))
    && (forall i, j {:trigger InOrder(jobs[i], jobs[j])} | 0 <= i < j < |jobs| :: InOrder(jobs[i], jobs[j]))
    && (forall c, id {:trigger Handled(jobs, c, id)} | c in streams && id in streams[c].acked ::
          Handled(jobs, c, id))
  }

  ghost predicate JobOk(streams: map<Uuid, S.Stream>, j: Job) {
    && j.conv in streams
    && var st := streams[j.conv];
    && j.entry < st.cursor <= |st.log|
    && j.payload == st.log[j.entry]
    && (j.entry in st.pending || j.entry in st.acked)
    && (j.pc == AtXDel ==> j.entry in st.acked)
  }

  /** What each program point knows about the number and the row. */
  ghost predicate PcOk(shared: bool, j: Job) {
    && (j.tx.Some? <==> shared && (j.pc == AtInsert || j.pc == AtCommit))
    && (j.pc == AtBegin || j.pc == AtDraw ==> j.num.None? && !j.stored)
    && (j.pc == AtInsert ==> !j.stored && (j.num.Some? <==> !shared))
    && (j.pc == AtCommit ==> (j.stored <==> !shared) && (j.num.Some? <==> !shared))
    && (j.pc == AtBroadcast || j.pc == AtSendAck || j.pc == AtXAck || j.pc == AtXDel ==> j.stored)
    && (j.stored ==> j.num.Some?)
    && (shared && j.num.Some? ==> j.stored)
  }

  ghost predicate PcsOk(shared: bool, jobs: seq<Job>) {
    forall i {:trigger PcOk(shared, jobs[i])} | 0 <= i < |jobs| :: PcOk(shared, jobs[i])
  }

  /** A participant row lives in exactly the life of the conversation in which it was inserted. */
  ghost predicate LivesOk(db: T.Db, minted: map<Uuid, Mint>, lives: map<Uuid, nat>) {
    && (forall p | p in db.parts ::
          && db.parts[p].conv in db.convs
          && p in minted
          && minted[p] == Mint(db.parts[p].conv, Life(lives, db.parts[p].conv)))
    && (forall c | c in db.counters :: c in db.convs)
    && (forall m | m in db.msgs ::
          && db.msgs[m].conv in db.convs
          && db.msgs[m].sender in db.parts
          && db.parts[db.msgs[m].sender].conv == db.msgs[m].conv)
    && (forall p | p in minted :: minted[p].life <= Life(lives, minted[p].conv))
  }

  /** A number is drawn in no earlier life than the sender's, and in no later life than the present. */
  ghost predicate DrawLifeOk(j: Job, d: Draw, minted: map<Uuid, Mint>, lives: map<Uuid, nat>) {
    && j.payload.sender in minted
    && minted[j.payload.sender].life <= d.life <= Life(lives, j.conv)
  }

  ghost predicate SenderOk(j: Job, minted: map<Uuid, Mint>, lives: map<Uuid, nat>) {
    && PayloadOk(j.payload, j.conv, minted)
    && (j.num.Some? ==> DrawLifeOk(j, j.num.value, minted, lives))
  }

  ghost predicate SendersOk(jobs: seq<Job>, minted: map<Uuid, Mint>, lives: map<Uuid, nat>) {
    forall i {:trigger SenderOk(jobs[i], minted, lives)} | 0 <= i < |jobs| :: SenderOk(jobs[i], minted, lives)
  }

  ghost predicate Holds(jobs: seq<Job>, i: nat, c: Uuid, life: nat, n: nat) {
    i < |jobs| && jobs[i].conv == c && jobs[i].num == Some(Draw(life, n))
  }

  /** Some job took number n of the present life of c. */
  ghost predicate Handed(jobs: seq<Job>, lives: map<Uuid, nat>, c: Uuid, n: nat) {
    exists i :: Holds(jobs, i, c, Life(lives, c), n)
  }

  ghost predicate NumberOk(j: Job, counters: map<Uuid, nat>, lives: map<Uuid, nat>) {
    j.num.Some? ==>
      && var d := j.num.value;
      && 1 <= d.seqNo
      && d.life <= Life(lives, j.conv)
      && (d.life == Life(lives, j.conv) ==> j.conv in counters && d.seqNo <= counters[j.conv])
  }

  ghost predicate RowOk(m: Uuid, row: T.Row, jobs: seq<Job>, lives: map<Uuid, nat>) {
    && m < |jobs|
    && jobs[m].stored
    && jobs[m].num == Some(Draw(Life(lives, row.conv), row.seqNo))
    && row == RowOf(jobs[m], row.seqNo, row.createdAt)
  }

  ghost predicate OtherNumber(a: Job, b: Job) {
    a.conv == b.conv && a.num.Some? ==> a.num != b.num
  }

  /** A stored row of the present life has not gone away. */
  ghost predicate RowThere(i: nat, j: Job, msgs: map<Uuid, T.Row>, lives: map<Uuid, nat>) {
    j.stored && j.num.Some? && j.num.value.life == Life(lives, j.conv) ==> i in msgs
  }

  /** The numbers of the current life are handed out once each, and rows are stored with them. */
  ghost predicate NumbersOk(
    jobs: seq<Job>, counters: map<Uuid, nat>, msgs: map<Uuid, T.Row>, lives: map<Uuid, nat>)
  {
    && (forall i {:trigger NumberOk(jobs[i], counters, lives)} | 0 <= i < |jobs| ::
          NumberOk(jobs[i], counters, lives))
    && (forall i, j {:trigger OtherNumber(jobs[i], jobs[j])} | 0 <= i < j < |jobs| ::
          OtherNumber(jobs[i], jobs[j]))
    && (forall c, n: nat {:trigger Handed(jobs, lives, c, n)} | c in counters && 1 <= n <= counters[c] ::
          Handed(jobs, lives, c, n))
    && (forall m {:trigger RowOk(m, msgs[m], jobs, lives)} | m in msgs :: RowOk(m, msgs[m], jobs, lives))
    && (forall i {:trigger RowThere(i, jobs[i], msgs, lives)} | 0 <= i < |jobs| ::
          RowThere(i, jobs[i], msgs, lives))
  }

  ghost predicate TxHeld(
    i: nat, j: Job, locks: map<Uuid, nat>, counters: map<Uuid, nat>, parts: map<Uuid, T.Participant>,
    lives: map<Uuid, nat>)
  {
    j.tx.Some? ==>
      && j.conv in locks && locks[j.conv] == i
      && j.conv in counters
      && j.tx.value == Draw(Life(lives, j.conv), counters[j.conv] + 1)
      && (j.pc == AtCommit ==> j.payload.sender in parts)
  }

  ghost predicate LockOwned(c: Uuid, i: nat, jobs: seq<Job>) {
    i < |jobs| && jobs[i].conv == c && jobs[i].tx.Some?
  }

  /** Open transactions hold the counter lock and the next number; locks belong to open transactions. */
  ghost predicate TxOk(
    jobs: seq<Job>, locks: map<Uuid, nat>, counters: map<Uuid, nat>, parts: map<Uuid, T.Participant>,
    lives: map<Uuid, nat>)
  {
    && (forall i {:trigger TxHeld(i, jobs[i], locks, counters, parts, lives)} | 0 <= i < |jobs| ::
          TxHeld(i, jobs[i], locks, counters, parts, lives))
    && (forall c {:trigger LockOwned(c, locks[c], jobs)} | c in locks :: LockOwned(c, locks[c], jobs))
  }

  ghost predicate ChatOk(jobs: seq<Job>, k: nat, conn: Conn, chat: Chat) {
    && chat.job < |jobs|
    && var j := jobs[chat.job];
    && j.conv == conn.conv
    && j.num == Some(chat.num)
    && chat.sender == j.payload.sender != conn.sender
    && k in j.served
    && j.stored
  }

  ghost predicate ConnOk(jobs: seq<Job>, k: nat, conn: Conn) {
    && conn.taken <= |conn.accepted| <= conn.taken + CHANNEL
    && (forall x {:trigger ChatOk(jobs, k, conn, conn.accepted[x])} | 0 <= x < |conn.accepted| ::
          ChatOk(jobs, k, conn, conn.accepted[x]))
    && (forall x, y | 0 <= x < y < |conn.accepted| :: conn.accepted[x].job != conn.accepted[y].job)
  }

  ghost predicate ConnsOk(jobs: seq<Job>, conns: map<nat, Conn>) {
    forall k {:trigger ConnOk(jobs, k, conns[k])} | k in conns :: ConnOk(jobs, k, conns[k])
  }

  ghost predicate AckOk(jobs: seq<Job>, a: Ack) {
    && a.job < |jobs|
    && var j := jobs[a.job];
    && (j.pc == AtXAck || j.pc == AtXDel || j.pc == Halted)
    && j.stored
    && j.num == Some(a.num)
    && a.sender == j.payload.sender
    && a.clientMsgId == j.payload.clientMsgId
  }

  ghost predicate AcksOk(jobs: seq<Job>, acks: seq<Ack>) {
    && (forall x {:trigger AckOk(jobs, acks[x])} | 0 <= x < |acks| :: AckOk(jobs, acks[x]))
    && (forall x, y | 0 <= x < y < |acks| :: acks[x].job != acks[y].job)
  }

  predicate Before(a: Draw, b: Draw) {
    a.life < b.life || (a.life == b.life && a.seqNo < b.seqNo)
  }

  /** An earlier job of the same conversation has ended, with an earlier number. */
  ghost predicate Earlier(a: Job, b: Job) {
    a.conv == b.conv ==>
      && a.pc == Halted
      && (a.num.Some? && b.num.Some? ==> Before(a.num.value, b.num.value))
  }

  predicate Saving(j: Job) { j.pc == AtDraw || j.tx.Some? }

  ghost predicate RowsInTime(msgs: map<Uuid, T.Row>, m: Uuid, n: Uuid)
    requires m in msgs && n in msgs
  {
    m < n && msgs[m].conv == msgs[n].conv ==> msgs[m].createdAt <= msgs[n].createdAt
  }

  /** The running transaction began after every row of its conversation was written. */
  ghost predicate BeganAfter(j: Job, row: T.Row) {
    Saving(j) && row.conv == j.conv ==> row.createdAt <= j.began
  }

  /** With one handler at a time per stream, numbers and rows follow the stream's order. */
  ghost predicate SerialOk(jobs: seq<Job>, msgs: map<Uuid, T.Row>, now: Time) {
    && (forall i, j {:trigger Earlier(jobs[i], jobs[j])} | 0 <= i < j < |jobs| :: Earlier(jobs[i], jobs[j]))
    && (forall m | m in msgs :: msgs[m].createdAt <= now)
    && (forall m, n {:trigger RowsInTime(msgs, m, n)} | m in msgs && n in msgs :: RowsInTime(msgs, m, n))
    && (forall i {:trigger Saving(jobs[i])} | 0 <= i < |jobs| :: Saving(jobs[i]) ==> jobs[i].began <= now)
    && (forall i, m {:trigger BeganAfter(jobs[i], msgs[m])} | 0 <= i < |jobs| && m in msgs ::
          BeganAfter(jobs[i], msgs[m]))
  }

  /** With one handler at a time per stream, each connection is served in job order. */
  ghost predicate ServedInOrder(conns: map<nat, Conn>) {
    forall k, x, y | k in conns && 0 <= x < y < |conns[k].accepted| ::
      conns[k].accepted[x].job < conns[k].accepted[y].job
  }

  ghost predicate Inv(cfg: Config, s: Sys) {
    && StreamsOk(s.streams, s.minted)
    && JobsOk(s.streams, s.jobs)
    && PcsOk(cfg.shared, s.jobs)
    && LivesOk(s.db, s.minted, s.lives)
    && SendersOk(s.jobs, s.minted, s.lives)
    && NumbersOk(s.jobs, s.db.counters, s.db.msgs, s.lives)
    && TxOk(s.jobs, s.locks, s.db.counters, s.db.parts, s.lives)
    && ConnsOk(s.jobs, s.conns)
    && AcksOk(s.jobs, s.acks)
    && (cfg.serial ==> SerialOk(s.jobs, s.db.msgs, s.now) && ServedInOrder(s.conns))
  }

  lemma InitInv(cfg: Config)
    ensures Inv(cfg, INIT)
  {
  }
}
