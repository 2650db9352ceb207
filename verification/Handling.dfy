/**
 What one uninterrupted execution of the save path, the handler and the consumer loop does to the
 tables and to the stream, as functions of the faults met on the way; and that every such execution
 is a run of the state machine, so everything proved of all runs holds of it.
 */
module Handling {
  import opened Common
  import opened Machine
  import T = Tables
  import S = Streams

  /** The row id, sender and text of a message to be saved. */
  datatype Message = Message(id: Uuid, conv: Uuid, sender: Uuid, text: string)

  function MessageOf(p: S.Payload, id: Uuid): Message {
    Message(id, p.conv, p.sender, p.text)
  }

  /** draw and insert are the fates of the two statements of SaveWithSequence. */
  datatype SaveFaults = SaveFaults(begin: bool, draw: Fault, insert: Fault, commit: Fault)

  datatype Faults = Faults(save: SaveFaults, ack: Fault, del: Fault)

  const NO_FAULTS := Faults(SaveFaults(true, Fine, Fine, Fine), Fine, Fine)

  /** MessageRepo.SaveWithSequence on the tables its executor sees. */
  function Save(db: T.Db, m: Message, now: Time, draw: Fault, insert: Fault): (T.Db, Result<nat, Error>) {
    if m.conv == NIL then (db, Err(InvalidConversationID))
    else if draw == Refused then (db, Err(Unavailable))
    else match T.BumpCounter(db, m.conv)
      case None => (db, Err(if draw == Fine then SequenceNotInitialized else Unavailable))
      case Some(drawn) =>
        if draw == ReplyLost || insert == Refused then (drawn, Err(Unavailable))
        else
          var n := drawn.counters[m.conv];
          match T.InsertMessage(drawn, m.id, T.Row(m.conv, m.sender, n, m.text, now))
          case Err(e) => (drawn, Err(Sql(e)))
          case Ok(stored) => (stored, if insert == Fine then Ok(n) else Err(Unavailable))
  }

  /** SaveWithSequence inside TxManager.WithTx. */
  function SaveInTx(shared: bool, db: T.Db, m: Message, now: Time, f: SaveFaults): (T.Db, Result<nat, Error>) {
    if !f.begin then (db, Err(Unavailable))
    else
      var (saved, r) := Save(db, m, now, f.draw, f.insert);
      if r.Err? then (if shared then db else saved, r)
      else (if shared && f.commit == Refused then db else saved,
            if f.commit == Fine then r else Err(Unavailable))
  }

  /** ProcessMessage after the save: nothing if it failed, else XACK, then XDEL whose failure is only logged. */
  function Settled(saved: bool, st: S.Stream, entry: nat, ack: Fault, del: Fault): (S.Stream, bool) {
    if !saved || ack == Refused then (st, false)
    else
      var acked := S.XAck(st, entry);
      if ack == ReplyLost then (acked, false)
      else (if del == Refused then acked else S.XDel(acked, entry), true)
  }

  /** ConversationWorker.ProcessMessage: save, then acknowledge, then delete. */
  function Handle(shared: bool, db: T.Db, st: S.Stream, entry: nat, m: Message, now: Time, f: Faults)
    : (T.Db, S.Stream, bool)
  {
    var (db', r) := SaveInTx(shared, db, m, now, f.save);
    var (st', ok) := Settled(r.Ok?, st, entry, f.ack, f.del);
    (db', st', ok)
  }

  /** One iteration of the consumer loop: the fate of XREADGROUP and of the handler it may start. */
  datatype Round = Round(read: Fault, id: Uuid, now: Time, faults: Faults)

  function OneRound(shared: bool, db: T.Db, st: S.Stream, r: Round): (T.Db, S.Stream) {
    if r.read == Refused then (db, st)
    else match S.XReadGroup(st)
      case None => (db, st)
      case Some((st', entry)) =>
        if r.read == ReplyLost || entry >= |st'.log| then (db, st')
        else
          var (db', st'', _) := Handle(shared, db, st', entry, MessageOf(st'.log[entry], r.id), r.now, r.faults);
          (db', st'')
  }

  /** The consumer loop of SubscribeToStream until its context is done. */
  function Loop(shared: bool, db: T.Db, st: S.Stream, rounds: seq<Round>): (T.Db, S.Stream)
    decreases |rounds|
  {
    if rounds == [] then (db, st)
    else
      var (db', st') := OneRound(shared, db, st, rounds[0]);
      Loop(shared, db', st', rounds[1..])
  }

  // ------------------------------------------------------------------ what a save means

  /** No row of c has the number n. */
  ghost predicate FreeNumber(db: T.Db, c: Uuid, n: nat) {
    forall x | x in db.msgs && db.msgs[x].conv == c :: db.msgs[x].seqNo != n
  }

  /**
   What a save comes to. Its UPDATE finds the counter, and its INSERT, when both statements are executed and
   the first is answered, stores the row with the number after last_seq if and only if neither the id nor the
   number is taken and conversation and sender exist. The save succeeds if and only if the row is stored and
   everything is answered. With autocommit the tables keep whatever was executed, a number without its row
   included; with an effective transaction they keep number and row together, if the INSERT was answered and
   the commit executed, or nothing. Errors name their causes.
   */
  lemma SaveMeaning(shared: bool, db: T.Db, m: Message, now: Time, f: SaveFaults)
    ensures
      var (db', r) := SaveInTx(shared, db, m, now, f);
      var sent := f.begin && m.conv != NIL && f.draw != Refused;
      var drawn := sent && m.conv in db.counters;
      var n := if drawn then db.counters[m.conv] + 1 else 0;
      var executed := drawn && f.draw == Fine && f.insert != Refused;
      var clash := m.id in db.msgs || !FreeNumber(db, m.conv, n);
      var dangling := m.conv !in db.convs || m.sender !in db.parts;
      var stored := executed && !clash && !dangling;
      var counted := db.(counters := db.counters[m.conv := n]);
      var whole := counted.(msgs := db.msgs[m.id := T.Row(m.conv, m.sender, n, m.text, now)]);
      && (r.Ok? <==> stored && f.insert == Fine && f.commit == Fine)
      && (r.Ok? ==> r.value == n)
      && db' == (if shared then (if stored && f.insert == Fine && f.commit != Refused then whole else db)
                 else if stored then whole else if drawn then counted else db)
      && (r == Err(InvalidConversationID) <==> f.begin && m.conv == NIL)
      && (r == Err(SequenceNotInitialized) <==> sent && f.draw == Fine && m.conv !in db.counters)
      && (r == Err(Sql(UniqueViolation)) <==> executed && clash)
      && (r == Err(Sql(ForeignKeyViolation)) <==> executed && !clash && dangling)
  {
  }

  // ------------------------------------------------------------------ executions are runs

  lemma RunCons(cfg: Config, s: Sys, step: Step, rest: seq<Step>)
    ensures Run(cfg, s, [step] + rest) == Run(cfg, Do(cfg, s, step), rest)
  {
    assert ([step] + rest)[1..] == rest;
  }

  /** The machine state after one save. */
  function AfterSave(cfg: Config, s: Sys, i: nat, f: SaveFaults): Sys {
    DoCommit(cfg, DoInsert(cfg, DoDraw(cfg, DoBegin(s, i, f.begin), i, f.draw), i, f.insert), i, f.commit)
  }

  function SaveSteps(i: nat, f: SaveFaults): seq<Step> {
    [Begin(i, f.begin)] + ([DrawNumber(i, f.draw)] + ([InsertRow(i, f.insert)] + ([Commit(i, f.commit)] + [])))
  }

  lemma SaveStepsRun(cfg: Config, s: Sys, i: nat, f: SaveFaults, rest: seq<Step>)
    ensures Run(cfg, s, SaveSteps(i, f) + rest) == Run(cfg, AfterSave(cfg, s, i, f), rest)
  {
    RunAppend(cfg, s, SaveSteps(i, f), rest);
    var s1 := Do(cfg, s, Begin(i, f.begin));
    var s2 := Do(cfg, s1, DrawNumber(i, f.draw));
    var s3 := Do(cfg, s2, InsertRow(i, f.insert));
    RunCons(cfg, s3, Commit(i, f.commit), []);
    RunCons(cfg, s2, InsertRow(i, f.insert), [Commit(i, f.commit)] + []);
    RunCons(cfg, s1, DrawNumber(i, f.draw), [InsertRow(i, f.insert)] + ([Commit(i, f.commit)] + []));
    RunCons(cfg, s, Begin(i, f.begin),
      [DrawNumber(i, f.draw)] + ([InsertRow(i, f.insert)] + ([Commit(i, f.commit)] + [])));
  }

  /** A handler that has just received its entry, with no transaction open on the conversation's counter. */
  ghost predicate Ready(cfg: Config, s: Sys, i: nat) {
    && At(s, i, AtBegin)
    && var j := s.jobs[i];
    && j.payload.conv == j.conv != NIL
    && j.conv !in s.locks
  }

  ghost predicate SameJob(a: Job, b: Job) {
    b.conv == a.conv && b.entry == a.entry && b.payload == a.payload && b.served == a.served
  }

  /** s' is s after a save by job i that left the tables db and had result r. */
  ghost predicate SavedTo(s: Sys, i: nat, s': Sys, db: T.Db, r: Result<nat, Error>)
    requires i < |s.jobs|
  {
    && |s'.jobs| == |s.jobs|
    && s' == s.(db := db, jobs := s.jobs[i := s'.jobs[i]])
    && SameJob(s.jobs[i], s'.jobs[i])
    && s'.jobs[i].pc == (if r.Ok? then AtBroadcast else Halted)
    && (r.Ok? ==> s'.jobs[i].num.Some? && s'.jobs[i].num.value.seqNo == r.value)
  }

  lemma HaltedStays(cfg: Config, s: Sys, i: nat, f: SaveFaults)
    requires At(s, i, Halted)
    ensures DoDraw(cfg, s, i, f.draw) == s && DoInsert(cfg, s, i, f.insert) == s && DoCommit(cfg, s, i, f.commit) == s
  {
  }

  /** The INSERT and the commit of a job that holds number n. */
  lemma InsertAndCommit(cfg: Config, s: Sys, i: nat, n: nat, f: SaveFaults)
    requires !cfg.shared && At(s, i, AtInsert) && s.jobs[i].num.Some? && s.jobs[i].num.value.seqNo == n
    ensures
      var j := s.jobs[i];
      var s' := DoCommit(cfg, DoInsert(cfg, s, i, f.insert), i, f.commit);
      var stored := T.InsertMessage(s.db, i, RowOf(j, n, s.now));
      SavedTo(s, i, s',
        if f.insert == Refused || stored.Err? then s.db else stored.value,
        if f.insert == Fine && f.commit == Fine && stored.Ok? then Ok(n) else Err(Unavailable))
  {
    var s1 := DoInsert(cfg, s, i, f.insert);
    InsertOnce(cfg, s, i, n, f.insert);
    if s1.jobs[i].pc == Halted {
      HaltedStays(cfg, s1, i, f);
    } else {
      CommitOnce(cfg, s1, i, f.commit);
    }
  }

  lemma InsertOnce(cfg: Config, s: Sys, i: nat, n: nat, f: Fault)
    requires !cfg.shared && At(s, i, AtInsert) && s.jobs[i].num.Some? && s.jobs[i].num.value.seqNo == n
    ensures
      var s' := DoInsert(cfg, s, i, f);
      var stored := T.InsertMessage(s.db, i, RowOf(s.jobs[i], n, s.now));
      && |s'.jobs| == |s.jobs| && SameJob(s.jobs[i], s'.jobs[i]) && s'.jobs[i].num == s.jobs[i].num
      && s' == s.(db := if f == Refused || stored.Err? then s.db else stored.value, jobs := s.jobs[i := s'.jobs[i]])
      && s'.jobs[i].pc == (if f == Fine && stored.Ok? then AtCommit else Halted)
  {
  }

  lemma CommitOnce(cfg: Config, s: Sys, i: nat, f: Fault)
    requires !cfg.shared && At(s, i, AtCommit)
    ensures
      var s' := DoCommit(cfg, s, i, f);
      && |s'.jobs| == |s.jobs| && SameJob(s.jobs[i], s'.jobs[i]) && s'.jobs[i].num == s.jobs[i].num
      && s' == s.(jobs := s.jobs[i := s'.jobs[i]])
      && s'.jobs[i].pc == (if f == Fine then AtBroadcast else Halted)
  {
  }

  lemma SavedThen(s: Sys, i: nat, s1: Sys, s2: Sys, db: T.Db, r: Result<nat, Error>)
    requires i < |s.jobs| && |s1.jobs| == |s.jobs| && SameJob(s.jobs[i], s1.jobs[i])
    requires s1 == s.(jobs := s.jobs[i := s1.jobs[i]])
    requires SavedTo(s1, i, s2, db, r)
    ensures SavedTo(s, i, s2, db, r)
  {
  }

  /** A job that has begun at the present moment and holds nothing yet. */
  ghost predicate Begun(cfg: Config, s: Sys, i: nat) {
    && At(s, i, AtDraw)
    && var j := s.jobs[i];
    && j.payload.conv == j.conv != NIL && j.began == s.now
    && j.conv !in s.locks
  }

  function FromDraw(cfg: Config, s: Sys, i: nat, f: SaveFaults): Sys {
    DoCommit(cfg, DoInsert(cfg, DoDraw(cfg, s, i, f.draw), i, f.insert), i, f.commit)
  }

  lemma AloneDraw(cfg: Config, s: Sys, i: nat, f: Fault)
    requires !cfg.shared && At(s, i, AtDraw)
    ensures
      var s' := DoDraw(cfg, s, i, f);
      var j := s.jobs[i];
      && |s'.jobs| == |s.jobs| && SameJob(j, s'.jobs[i])
      && s' == s.(db := if f != Refused && j.conv in s.db.counters then T.BumpCounter(s.db, j.conv).value else s.db,
                  jobs := s.jobs[i := s'.jobs[i]])
      && (if f == Fine && j.conv in s.db.counters then
            && s'.jobs[i].pc == AtInsert && s'.jobs[i].num.Some?
            && s'.jobs[i].num.value.seqNo == s.db.counters[j.conv] + 1
          else s'.jobs[i].pc == Halted)
  {
  }

  lemma AloneSave(cfg: Config, s: Sys, i: nat, f: SaveFaults)
    requires Begun(cfg, s, i) && !cfg.shared && f.begin
    ensures
      var (db, r) := SaveInTx(false, s.db, MessageOf(s.jobs[i].payload, i), s.now, f);
      SavedTo(s, i, FromDraw(cfg, s, i, f), db, r)
  {
    var j := s.jobs[i];
    var s2 := DoDraw(cfg, s, i, f.draw);
    AloneDraw(cfg, s, i, f.draw);
    if f.draw == Fine && j.conv in s.db.counters {
      var n := s.db.counters[j.conv] + 1;
      InsertAndCommit(cfg, s2, i, n, f);
      SaveResult(s, i, s2, FromDraw(cfg, s, i, f), n, f);
    } else {
      HaltedStays(cfg, s2, i, f);
      NoDraw(false, s.db, MessageOf(j.payload, i), s.now, f);
    }
  }

  /** The result of a save whose UPDATE gives no number. */
  lemma NoDraw(shared: bool, db: T.Db, m: Message, now: Time, f: SaveFaults)
    requires f.begin && m.conv != NIL && (f.draw != Fine || m.conv !in db.counters)
    ensures
      var (db', r) := SaveInTx(shared, db, m, now, f);
      && r.Err?
      && db' == if shared || f.draw == Refused || m.conv !in db.counters then db else T.BumpCounter(db, m.conv).value
  {
  }

  lemma SaveResult(s: Sys, i: nat, s2: Sys, s4: Sys, n: nat, f: SaveFaults)
    requires i < |s.jobs| && |s2.jobs| == |s.jobs| && SameJob(s.jobs[i], s2.jobs[i])
    requires f.begin && f.draw == Fine && s.jobs[i].payload.conv == s.jobs[i].conv != NIL
    requires s.jobs[i].conv in s.db.counters && n == s.db.counters[s.jobs[i].conv] + 1
    requires s2 == s.(db := T.BumpCounter(s.db, s.jobs[i].conv).value, jobs := s.jobs[i := s2.jobs[i]])
    requires
      var stored := T.InsertMessage(s2.db, i, RowOf(s2.jobs[i], n, s2.now));
      SavedTo(s2, i, s4,
        if f.insert == Refused || stored.Err? then s2.db else stored.value,
        if f.insert == Fine && f.commit == Fine && stored.Ok? then Ok(n) else Err(Unavailable))
    ensures
      var (db, r) := SaveInTx(false, s.db, MessageOf(s.jobs[i].payload, i), s.now, f);
      SavedTo(s, i, s4, db, r)
  {
    var p := s.jobs[i].payload;
    assert RowOf(s2.jobs[i], n, s2.now) == T.Row(s.jobs[i].conv, p.sender, n, p.text, s.now);
  }

  // The same under an effective transaction.

  lemma SharedDraw(cfg: Config, s: Sys, i: nat, f: Fault)
    requires cfg.shared && At(s, i, AtDraw) && s.jobs[i].conv !in s.locks
    ensures
      var s' := DoDraw(cfg, s, i, f);
      var j := s.jobs[i];
      && |s'.jobs| == |s.jobs| && SameJob(j, s'.jobs[i]) && s'.jobs[i].began == j.began
      && (if f == Fine && j.conv in s.db.counters then
            && s' == s.(locks := s.locks[j.conv := i], jobs := s.jobs[i := s'.jobs[i]])
            && s'.jobs[i].pc == AtInsert && s'.jobs[i].tx.Some?
            && s'.jobs[i].tx.value.seqNo == s.db.counters[j.conv] + 1
          else s' == s.(jobs := s.jobs[i := s'.jobs[i]]) && s'.jobs[i].pc == Halted)
  {
  }

  lemma SharedInsert(cfg: Config, s: Sys, i: nat, n: nat, f: Fault)
    requires cfg.shared && At(s, i, AtInsert) && s.jobs[i].tx.Some? && s.jobs[i].tx.value.seqNo == n
    ensures
      var j := s.jobs[i];
      var s' := DoInsert(cfg, s, i, f);
      var good := f == Fine && T.InsertMessage(s.db, i, RowOf(j, n, j.began)).Ok?;
      && |s'.jobs| == |s.jobs|
      && s' == (if good then SetJob(s, i, j.(pc := AtCommit))
                else SetJob(s, i, j.(pc := Halted, tx := None)).(locks := s.locks - {j.conv}))
  {
  }

  lemma SharedCommit(cfg: Config, s: Sys, i: nat, n: nat, f: Fault)
    requires cfg.shared && At(s, i, AtCommit) && s.jobs[i].tx.Some? && s.jobs[i].tx.value.seqNo == n
    ensures
      var j := s.jobs[i];
      var s' := DoCommit(cfg, s, i, f);
      && |s'.jobs| == |s.jobs| && SameJob(j, s'.jobs[i])
      && s' == s.(
           db := if f != Refused then s.db.(counters := s.db.counters[j.conv := n],
                                            msgs := s.db.msgs[i := RowOf(j, n, j.began)]) else s.db,
           locks := s.locks - {j.conv}, jobs := s.jobs[i := s'.jobs[i]])
      && s'.jobs[i].pc == (if f == Fine then AtBroadcast else Halted)
      && (f == Fine ==> s'.jobs[i].num == j.tx)
  {
  }

  /** The INSERT and the commit of an open transaction that sees number n. */
  /** s' is s after job i has ended its transaction, with these tables. */
  ghost predicate TxEnded(s: Sys, s': Sys, i: nat, n: nat, good: bool, f: Fault)
    requires i < |s.jobs|
  {
    var j := s.jobs[i];
    && |s'.jobs| == |s.jobs| && SameJob(j, s'.jobs[i])
    && s' == s.(
         db := if good && f != Refused
               then s.db.(counters := s.db.counters[j.conv := n], msgs := s.db.msgs[i := RowOf(j, n, j.began)])
               else s.db,
         locks := s.locks - {j.conv}, jobs := s.jobs[i := s'.jobs[i]])
    && s'.jobs[i].pc == (if good && f == Fine then AtBroadcast else Halted)
    && (good && f == Fine ==> s'.jobs[i].num.Some? && s'.jobs[i].num.value.seqNo == n)
  }

  lemma InsertedThenCommit(cfg: Config, s: Sys, i: nat, n: nat, f: Fault, s1: Sys, s': Sys)
    requires cfg.shared && At(s, i, AtInsert) && s.jobs[i].tx.Some? && s.jobs[i].tx.value.seqNo == n
    requires s1 == SetJob(s, i, s.jobs[i].(pc := AtCommit)) && s' == DoCommit(cfg, s1, i, f)
    ensures TxEnded(s, s', i, n, true, f)
  {
    SharedCommit(cfg, s1, i, n, f);
    assert s'.jobs == s.jobs[i := s'.jobs[i]];
  }

  lemma SharedInsertAndCommit(cfg: Config, s: Sys, i: nat, n: nat, f: SaveFaults, s1: Sys, s': Sys)
    requires cfg.shared && At(s, i, AtInsert) && s.jobs[i].tx.Some? && s.jobs[i].tx.value.seqNo == n
    requires s1 == DoInsert(cfg, s, i, f.insert) && s' == DoCommit(cfg, s1, i, f.commit)
    ensures
      var good := f.insert == Fine && T.InsertMessage(s.db, i, RowOf(s.jobs[i], n, s.jobs[i].began)).Ok?;
      TxEnded(s, s', i, n, good, f.commit)
  {
    SharedInsert(cfg, s, i, n, f.insert);
    if f.insert == Fine && T.InsertMessage(s.db, i, RowOf(s.jobs[i], n, s.jobs[i].began)).Ok? {
      InsertedThenCommit(cfg, s, i, n, f.commit, s1, s');
    } else {
      HaltedStays(cfg, s1, i, f);
      AbortEnds(s, i, n, f.commit, s');
    }
  }

  lemma AbortEnds(s: Sys, i: nat, n: nat, f: Fault, s': Sys)
    requires i < |s.jobs|
    requires s' == SetJob(s, i, s.jobs[i].(pc := Halted, tx := None)).(locks := s.locks - {s.jobs[i].conv})
    ensures TxEnded(s, s', i, n, false, f)
  {
  }

  lemma SharedFinish(cfg: Config, s: Sys, i: nat, f: SaveFaults, n: nat, s2: Sys, s4: Sys)
    requires Begun(cfg, s, i) && cfg.shared && f.begin && f.draw == Fine
    requires s.jobs[i].conv in s.db.counters && n == s.db.counters[s.jobs[i].conv] + 1
    requires |s2.jobs| == |s.jobs| && SameJob(s.jobs[i], s2.jobs[i]) && s2.jobs[i].began == s.now
    requires s2 == s.(locks := s.locks[s.jobs[i].conv := i], jobs := s.jobs[i := s2.jobs[i]])
    requires s2.jobs[i].pc == AtInsert && s2.jobs[i].tx.Some? && s2.jobs[i].tx.value.seqNo == n
    requires s4 == DoCommit(cfg, DoInsert(cfg, s2, i, f.insert), i, f.commit)
    ensures
      var (db, r) := SaveInTx(true, s.db, MessageOf(s.jobs[i].payload, i), s.now, f);
      SavedTo(s, i, s4, db, r)
  {
    SharedInsertAndCommit(cfg, s2, i, n, f, DoInsert(cfg, s2, i, f.insert), s4);
    assert s2.locks - {s.jobs[i].conv} == s.locks;
    assert RowOf(s2.jobs[i], n, s.now) == RowOf(s.jobs[i], n, s.now);
    SharedResult(s, i, f, n);
  }

  lemma SharedSave(cfg: Config, s: Sys, i: nat, f: SaveFaults)
    requires Begun(cfg, s, i) && cfg.shared && f.begin
    ensures
      var (db, r) := SaveInTx(true, s.db, MessageOf(s.jobs[i].payload, i), s.now, f);
      SavedTo(s, i, FromDraw(cfg, s, i, f), db, r)
  {
    var j := s.jobs[i];
    var s2 := DoDraw(cfg, s, i, f.draw);
    SharedDraw(cfg, s, i, f.draw);
    if f.draw == Fine && j.conv in s.db.counters {
      SharedFinish(cfg, s, i, f, s.db.counters[j.conv] + 1, s2, FromDraw(cfg, s, i, f));
    } else {
      HaltedStays(cfg, s2, i, f);
      NoDraw(true, s.db, MessageOf(j.payload, i), s.now, f);
    }
  }

  /** What SaveInTx gives when the draw succeeds under an effective transaction. */
  lemma SharedResult(s: Sys, i: nat, f: SaveFaults, n: nat)
    requires i < |s.jobs| && s.jobs[i].payload.conv == s.jobs[i].conv != NIL
    requires f.begin && f.draw == Fine && s.jobs[i].conv in s.db.counters
    requires n == s.db.counters[s.jobs[i].conv] + 1
    ensures
      var j := s.jobs[i];
      var (db, r) := SaveInTx(true, s.db, MessageOf(j.payload, i), s.now, f);
      var row := RowOf(j, n, s.now);
      var good := f.insert == Fine && T.InsertMessage(s.db, i, row).Ok?;
      && db == (if good && f.commit != Refused
                then s.db.(counters := s.db.counters[j.conv := n], msgs := s.db.msgs[i := row]) else s.db)
      && (r.Ok? <==> good && f.commit == Fine)
      && (r.Ok? ==> r.value == n)
  {
  }

  /** SaveInTx is what the four machine steps of a save do when nothing comes between them. */
  lemma SaveIsARun(cfg: Config, s: Sys, i: nat, f: SaveFaults, rest: seq<Step>)
    requires Ready(cfg, s, i)
    ensures
      var (db, r) := SaveInTx(cfg.shared, s.db, MessageOf(s.jobs[i].payload, i), s.now, f);
      && SavedTo(s, i, AfterSave(cfg, s, i, f), db, r)
      && Run(cfg, s, SaveSteps(i, f) + rest) == Run(cfg, AfterSave(cfg, s, i, f), rest)
  {
    SaveStepsRun(cfg, s, i, f, rest);
    var s1 := DoBegin(s, i, f.begin);
    if !f.begin {
      HaltedStays(cfg, s1, i, f);
    } else {
      var (db, r) := SaveInTx(cfg.shared, s.db, MessageOf(s.jobs[i].payload, i), s.now, f);
      if cfg.shared { SharedSave(cfg, s1, i, f); } else { AloneSave(cfg, s1, i, f); }
      SavedThen(s, i, s1, AfterSave(cfg, s, i, f), db, r);
    }
  }
}
