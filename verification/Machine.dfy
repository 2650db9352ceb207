/**
 The message pipeline as a state machine: publishers, any number of worker loops, conversation
 creation and deletion, sessions and connections, all interleaved. One step is one Redis command,
 one SQL statement or one local effect. A step that is not enabled leaves the state as it is, so
 every sequence of steps is a run.
 */
module Machine {
  import opened Common
  import T = Tables
  import S = Streams

  /**
   shared: repository statements join the transaction that TxManager.WithTx opened (the intention).
   When it is false every statement commits by itself (what the two distinct context keys produce).
   serial: at most one handler at a time works on a stream.
   */
  datatype Config = Config(shared: bool, serial: bool)

  /** A number drawn from a conversation's counter, with the life of the conversation it belongs to. */
  datatype Draw = Draw(life: nat, seqNo: nat)

  datatype Pc =
    | AtBegin | AtDraw | AtInsert | AtCommit | AtBroadcast | AtSendAck | AtXAck | AtXDel | Halted

  /**
   One invocation of ConversationWorker.ProcessMessage. tx is the number seen inside an open
   transaction; num is the number taken from the committed counter; stored records that the row
   was committed; served are the connections the broadcast has reached.
   */
  datatype Job = Job(
    conv: Uuid, entry: nat, payload: S.Payload, pc: Pc, began: Time,
    tx: Option<Draw>, num: Option<Draw>, stored: bool, served: set<nat>)

  datatype Chat = Chat(job: nat, sender: Uuid, num: Draw)

  /** accepted: frames put on the channel so far; taken: how many of them writeLoop has written. */
  datatype Conn = Conn(conv: Uuid, sender: Uuid, accepted: seq<Chat>, taken: nat)

  datatype Ack = Ack(job: nat, sender: Uuid, clientMsgId: string, num: Draw)

  /** Conversation and life in which a participant row was inserted. */
  datatype Mint = Mint(conv: Uuid, life: nat)

  /**
   jobs is the sequence of all handler invocations so far and acks that of all persisted acks.
   lives counts the deletions of each conversation and minted remembers every participant row
   ever inserted. locks says which job holds the row lock on a conversation's counter.
   */
  datatype Sys = Sys(
    db: T.Db, streams: map<Uuid, S.Stream>, jobs: seq<Job>, acks: seq<Ack>, conns: map<nat, Conn>,
    locks: map<Uuid, nat>, lives: map<Uuid, nat>, minted: map<Uuid, Mint>, now: Time)

  const INIT := Sys(T.EMPTY, map[], [], [], map[], map[], map[], map[], 0)

  const CHANNEL := 256

  function Life(lives: map<Uuid, nat>, c: Uuid): nat {
    if c in lives then lives[c] else 0
  }

  function StreamOf(streams: map<Uuid, S.Stream>, c: Uuid): S.Stream {
    if c in streams then streams[c] else S.EMPTY
  }

  predicate Busy(jobs: seq<Job>, c: Uuid) {
    exists i | 0 <= i < |jobs| :: jobs[i].conv == c && jobs[i].pc != Halted
  }

  predicate At(s: Sys, i: nat, pc: Pc) {
    i < |s.jobs| && s.jobs[i].pc == pc
  }

  datatype Step =
    | Tick(d: nat)
    | Publish(sender: Uuid, text: string, clientMsgId: string, evict: nat)
    | CreateGroup(c: Uuid)
    | Deliver(c: Uuid, received: bool)
    | Begin(i: nat, ok: bool)
    | DrawNumber(i: nat, f: Fault)
    | InsertRow(i: nat, f: Fault)
    | Commit(i: nat, f: Fault)
    | SendTo(i: nat, k: nat)
    | EndBroadcast(i: nat)
    | SendAck(i: nat)
    | XAck(i: nat, f: Fault)
    | XDel(i: nat, f: Fault)
    | Crash(i: nat)
    | Open(k: nat, sender: Uuid)
    | Write(k: nat)
    | CreateConv(c: Uuid)
    | CreateCounter(c: Uuid)
    | DeleteConv(c: Uuid)
    | Join(id: Uuid, user: string, c: Uuid)
    | Sync(id: Uuid)
    | Leave(id: Uuid)

  // ------------------------------------------------------------------ stream side

  function SetJob(s: Sys, i: nat, j: Job): Sys
    requires i < |s.jobs|
  {
    s.(jobs := s.jobs[i := j])
  }

  function DoPublish(s: Sys, sender: Uuid, text: string, clientMsgId: string, evict: nat): (r: Sys)
    ensures r == s.(streams := r.streams)
  {
    if sender !in s.minted then s
    else
      var c := s.minted[sender].conv;
      var p := S.Payload(clientMsgId, c, sender, text, s.now);
      s.(streams := s.streams[c := S.XAdd(StreamOf(s.streams, c), p, evict)])
  }

  function DoCreateGroup(s: Sys, c: Uuid): (r: Sys)
    ensures r == s.(streams := r.streams)
  {
    s.(streams := s.streams[c := S.XGroupCreate(StreamOf(s.streams, c))])
  }

  /** XREADGROUP moves the entry to the pending list even when the reader never gets the reply. */
  function DoDeliver(cfg: Config, s: Sys, c: Uuid, received: bool): (r: Sys)
    ensures r == s.(streams := r.streams, jobs := r.jobs)
  {
    if c !in s.streams || (cfg.serial && Busy(s.jobs, c)) then s
    else match S.XReadGroup(s.streams[c])
      case None => s
      case Some((st, id)) =>
        var s' := s.(streams := s.streams[c := st]);
        if received && id < |st.log| then
          s'.(jobs := s.jobs + [Job(c, id, st.log[id], AtBegin, 0, None, None, false, {})])
        else s'
  }

  // ------------------------------------------------------------------ the save transaction

  function Halt(s: Sys, i: nat): Sys
    requires i < |s.jobs|
  {
    SetJob(s, i, s.jobs[i].(pc := Halted))
  }

  /** Ends the job, rolling back its transaction: the counter lock goes, nothing else changes. */
  function Abort(s: Sys, i: nat): Sys
    requires i < |s.jobs|
  {
    var j := s.jobs[i];
    var s' := SetJob(s, i, j.(pc := Halted, tx := None));
    if j.tx.Some? then s'.(locks := s.locks - {j.conv}) else s'
  }

  function DoBegin(s: Sys, i: nat, ok: bool): (r: Sys)
    ensures r == s.(jobs := r.jobs)
  {
    if !At(s, i, AtBegin) then s
    else if ok then SetJob(s, i, s.jobs[i].(pc := AtDraw, began := s.now))
    else Halt(s, i)
  }

  function DoDraw(cfg: Config, s: Sys, i: nat, f: Fault): (r: Sys)
    ensures r == s.(jobs := r.jobs, locks := r.locks, db := s.db.(counters := r.db.counters))
  {
    if !At(s, i, AtDraw) then s
    else
      var j := s.jobs[i];
      var c := j.conv;
      if cfg.shared && c in s.locks then s
      else if f == Refused || c !in s.db.counters then Halt(s, i)
      else
        var d := Draw(Life(s.lives, c), s.db.counters[c] + 1);
        if cfg.shared then
          if f == ReplyLost then Halt(s, i)
          else SetJob(s, i, j.(pc := AtInsert, tx := Some(d))).(locks := s.locks[c := i])
        else
          SetJob(s, i, j.(pc := if f == Fine then AtInsert else Halted, num := Some(d)))
            .(db := T.BumpCounter(s.db, c).value)
  }

  /** The row a job inserts with number n at time t. */
  function RowOf(j: Job, n: nat, t: Time): T.Row {
    T.Row(j.conv, j.payload.sender, n, j.payload.text, t)
  }

  function DoInsert(cfg: Config, s: Sys, i: nat, f: Fault): (r: Sys)
    ensures r == s.(jobs := r.jobs, locks := r.locks, db := s.db.(msgs := r.db.msgs))
  {
    if !At(s, i, AtInsert) then s
    else
      var j := s.jobs[i];
      if cfg.shared then
        // now() is the start of the transaction
        if f == Fine && j.tx.Some?
           && T.InsertMessage(s.db, i, RowOf(j, j.tx.value.seqNo, j.began)).Ok?
        then SetJob(s, i, j.(pc := AtCommit))
        else Abort(s, i)
      else if f == Refused || j.num.None? then Halt(s, i)
      else match T.InsertMessage(s.db, i, RowOf(j, j.num.value.seqNo, s.now))
        case Err(_) => Halt(s, i)
        case Ok(db) =>
          SetJob(s, i, j.(pc := if f == Fine then AtCommit else Halted, stored := true)).(db := db)
  }

  function DoCommit(cfg: Config, s: Sys, i: nat, f: Fault): (r: Sys)
    ensures r == s.(jobs := r.jobs, locks := r.locks, db := s.db.(counters := r.db.counters, msgs := r.db.msgs))
  {
    if !At(s, i, AtCommit) then s
    else
      var j := s.jobs[i];
      var next := if f == Fine then AtBroadcast else Halted;
      if !cfg.shared then SetJob(s, i, j.(pc := next))
      else if f == Refused || j.tx.None? then Abort(s, i)
      else
        var n := j.tx.value.seqNo;
        SetJob(s, i, j.(pc := next, tx := None, num := j.tx, stored := true)).(
          locks := s.locks - {j.conv},
          db := s.db.(counters := s.db.counters[j.conv := n],
                      msgs := s.db.msgs[i := RowOf(j, n, j.began)]))
  }

  // ------------------------------------------------------------------ after the save

  /** Registry.Broadcast reaches one connection of the room; a full channel makes it wait. */
  function DoSendTo(s: Sys, i: nat, k: nat): (r: Sys)
    ensures r == s.(jobs := r.jobs, conns := r.conns)
  {
    if !At(s, i, AtBroadcast) || k !in s.conns || s.jobs[i].num.None? then s
    else
      var j, conn := s.jobs[i], s.conns[k];
      if conn.conv != j.conv || conn.sender == j.payload.sender || k in j.served
         || |conn.accepted| >= conn.taken + CHANNEL
      then s
      else
        SetJob(s, i, j.(served := j.served + {k})).(
          conns := s.conns[k := conn.(accepted :=
            conn.accepted + [Chat(i, j.payload.sender, j.num.value)])])
  }

  function DoEndBroadcast(s: Sys, i: nat): (r: Sys)
    ensures r == s.(jobs := r.jobs)
  {
    if !At(s, i, AtBroadcast) then s else SetJob(s, i, s.jobs[i].(pc := AtSendAck))
  }

  function DoSendAck(s: Sys, i: nat): (r: Sys)
    ensures r == s.(jobs := r.jobs, acks := r.acks)
  {
    if !At(s, i, AtSendAck) || s.jobs[i].num.None? then s
    else
      var j := s.jobs[i];
      SetJob(s, i, j.(pc := AtXAck)).(acks :=
        s.acks + [Ack(i, j.payload.sender, j.payload.clientMsgId, j.num.value)])
  }

  function DoXAck(s: Sys, i: nat, f: Fault): (r: Sys)
    ensures r == s.(jobs := r.jobs, streams := r.streams)
  {
    if !At(s, i, AtXAck) then s
    else if f == Refused then Halt(s, i)
    else
      var j := s.jobs[i];
      SetJob(s, i, j.(pc := if f == Fine then AtXDel else Halted)).(
        streams := s.streams[j.conv := S.XAck(StreamOf(s.streams, j.conv), j.entry)])
  }

  function DoXDel(s: Sys, i: nat, f: Fault): (r: Sys)
    ensures r == s.(jobs := r.jobs, streams := r.streams)
  {
    if !At(s, i, AtXDel) then s
    else if f == Refused then Halt(s, i)
    else
      var j := s.jobs[i];
      Halt(s, i).(streams := s.streams[j.conv := S.XDel(StreamOf(s.streams, j.conv), j.entry)])
  }

  /** The worker process stops: an open transaction is rolled back. */
  function DoCrash(s: Sys, i: nat): (r: Sys)
    ensures r == s.(jobs := r.jobs, locks := r.locks)
  {
    if i >= |s.jobs| then s else Abort(s, i)
  }

  // ------------------------------------------------------------------ connections

  function DoOpen(s: Sys, k: nat, sender: Uuid): (r: Sys)
    ensures r == s.(conns := r.conns)
  {
    if k in s.conns || sender !in s.minted then s
    else s.(conns := s.conns[k := Conn(s.minted[sender].conv, sender, [], 0)])
  }

  function DoWrite(s: Sys, k: nat): (r: Sys)
    ensures r == s.(conns := r.conns)
  {
    if k !in s.conns || s.conns[k].taken >= |s.conns[k].accepted| then s
    else s.(conns := s.conns[k := s.conns[k].(taken := s.conns[k].taken + 1)])
  }

  // ------------------------------------------------------------------ conversations and participants

  function DoCreateCounter(s: Sys, c: Uuid): (r: Sys)
    ensures r == s.(db := s.db.(counters := r.db.counters))
  {
    match T.InsertCounter(s.db, c)
    case Ok(db) => s.(db := db)
    case Err(_) => s
  }

  /** A transaction holding the counter row makes the cascading delete wait. */
  function DoDeleteConv(s: Sys, c: Uuid): (r: Sys)
    ensures r == s.(db := r.db, lives := r.lives)
  {
    if c !in s.db.convs || c in s.locks then s
    else match T.DeleteConversation(s.db, c)
      case Err(_) => s
      case Ok(db) => s.(db := db, lives := s.lives[c := Life(s.lives, c) + 1])
  }

  /** Participant ids are fresh UUIDs. */
  function DoJoin(s: Sys, id: Uuid, user: string, c: Uuid): (r: Sys)
    ensures r == s.(db := s.db.(parts := r.db.parts), minted := r.minted)
  {
    if id in s.minted then s
    else match T.InsertParticipant(s.db, id, T.Participant(user, c, s.now, s.now, None))
      case Err(_) => s
      case Ok(db) => s.(db := db, minted := s.minted[id := Mint(c, Life(s.lives, c))])
  }

  function DoSync(s: Sys, id: Uuid): (r: Sys)
    ensures r == s.(db := s.db.(parts := r.db.parts))
  {
    match T.TouchParticipant(s.db, id, s.now)
    case None => s
    case Some(db) => s.(db := db)
  }

  function DoLeave(s: Sys, id: Uuid): (r: Sys)
    ensures r == s.(db := s.db.(parts := r.db.parts))
  {
    match T.LeaveParticipant(s.db, id, s.now)
    case Ok(Some(db)) => s.(db := db)
    case _ => s
  }

  /** The steps of a running handler. */
  predicate OfHandler(step: Step) {
    step.Begin? || step.DrawNumber? || step.InsertRow? || step.Commit? || step.SendTo? || step.EndBroadcast?
    || step.SendAck? || step.XAck? || step.XDel? || step.Crash?
  }

  function DoHandler(cfg: Config, s: Sys, step: Step): Sys
    requires OfHandler(step)
  {
    match step
    case Begin(i, ok) => DoBegin(s, i, ok)
    case DrawNumber(i, f) => DoDraw(cfg, s, i, f)
    case InsertRow(i, f) => DoInsert(cfg, s, i, f)
    case Commit(i, f) => DoCommit(cfg, s, i, f)
    case SendTo(i, k) => DoSendTo(s, i, k)
    case EndBroadcast(i) => DoEndBroadcast(s, i)
    case SendAck(i) => DoSendAck(s, i)
    case XAck(i, f) => DoXAck(s, i, f)
    case XDel(i, f) => DoXDel(s, i, f)
    case Crash(i) => DoCrash(s, i)
  }

  function DoOther(cfg: Config, s: Sys, step: Step): Sys
    requires !OfHandler(step)
  {
    match step
    case Tick(d) => s.(now := s.now + d)
    case Publish(sender, text, m, evict) => DoPublish(s, sender, text, m, evict)
    case CreateGroup(c) => DoCreateGroup(s, c)
    case Deliver(c, received) => DoDeliver(cfg, s, c, received)
    case Open(k, sender) => DoOpen(s, k, sender)
    case Write(k) => DoWrite(s, k)
    case CreateConv(c) => if c == NIL then s else s.(db := T.InsertConversation(s.db, c, s.now))
    case CreateCounter(c) => DoCreateCounter(s, c)
    case DeleteConv(c) => DoDeleteConv(s, c)
    case Join(id, user, c) => DoJoin(s, id, user, c)
    case Sync(id) => DoSync(s, id)
    case Leave(id) => DoLeave(s, id)
  }

  function Do(cfg: Config, s: Sys, step: Step): Sys {
    if OfHandler(step) then DoHandler(cfg, s, step) else DoOther(cfg, s, step)
  }

  /** The state after a sequence of steps. */
  function Run(cfg: Config, s: Sys, steps: seq<Step>): Sys
    decreases |steps|
  {
    if steps == [] then s else Run(cfg, Do(cfg, s, steps[0]), steps[1..])
  }

  lemma {:induction false} RunAppend(cfg: Config, s: Sys, a: seq<Step>, b: seq<Step>)
    ensures Run(cfg, s, a + b) == Run(cfg, Run(cfg, s, a), b)
    decreases |a|
  {
    if a == [] {
      assert a + b == b;
    } else {
      assert (a + b)[0] == a[0] && (a + b)[1..] == a[1..] + b;
      RunAppend(cfg, Do(cfg, s, a[0]), a[1..], b);
    }
  }
}
