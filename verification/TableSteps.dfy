/** Conversations, participants and time: the remaining steps keep the invariant. */
module TableSteps {
  import opened Common
  import opened Machine
  import opened Invariants
  import opened Preservation
  import opened JobSteps
  import opened StreamSteps
  import T = Tables

  lemma TickOk(cfg: Config, s: Sys, d: nat)
    requires Inv(cfg, s)
    ensures Inv(cfg, s.(now := s.now + d))
  {
  }

  lemma CreateConvOk(cfg: Config, s: Sys, c: Uuid)
    requires Inv(cfg, s)
    ensures Inv(cfg, s.(db := T.InsertConversation(s.db, c, s.now)))
  {
    LivesConvs(s.db, T.InsertConversation(s.db, c, s.now).convs, s.minted, s.lives);
  }

  lemma LivesConvs(db: T.Db, convs: map<Uuid, Time>, minted: map<Uuid, Mint>, lives: map<Uuid, nat>)
    requires LivesOk(db, minted, lives) && db.convs.Keys <= convs.Keys
    ensures LivesOk(db.(convs := convs), minted, lives)
  {
  }

  // ------------------------------------------------------------------ the counter row

  lemma CreateCounterOk(cfg: Config, s: Sys, c: Uuid)
    requires Inv(cfg, s)
    ensures Inv(cfg, DoCreateCounter(s, c))
  {
    hide StreamsOk, JobsOk, PcsOk, SendersOk, NumbersOk, TxOk, ConnsOk, AcksOk, SerialOk, ServedInOrder;
    if c !in s.db.counters && c in s.db.convs && c != NIL {
      var counters := s.db.counters[c := 0];
      FreshCounter(s.jobs, c, s.db.counters, s.db.msgs, s.lives);
      FreshCounterTx(s.jobs, s.locks, c, s.db.counters, s.db.parts, s.lives);
      assert LivesOk(s.db.(counters := counters), s.minted, s.lives);
    }
  }

  lemma FreshCounter(jobs: seq<Job>, c: Uuid, counters: map<Uuid, nat>, msgs: map<Uuid, T.Row>, lives: map<Uuid, nat>)
    requires NumbersOk(jobs, counters, msgs, lives) && c !in counters
    ensures NumbersOk(jobs, counters[c := 0], msgs, lives)
  {
    var counters' := counters[c := 0];
    forall x | 0 <= x < |jobs| ensures NumberOk(jobs[x], counters', lives) {
      assert NumberOk(jobs[x], counters, lives);
    }
    forall d, n: nat | d in counters' && 1 <= n <= counters'[d] ensures Handed(jobs, lives, d, n) {
      assert d in counters && n <= counters[d];
    }
  }

  lemma FreshCounterTx(jobs: seq<Job>, locks: map<Uuid, nat>, c: Uuid, counters: map<Uuid, nat>,
                       parts: map<Uuid, T.Participant>, lives: map<Uuid, nat>)
    requires TxOk(jobs, locks, counters, parts, lives) && c !in counters
    ensures TxOk(jobs, locks, counters[c := 0], parts, lives)
  {
    forall x | 0 <= x < |jobs| ensures TxHeld(x, jobs[x], locks, counters[c := 0], parts, lives) {
      assert TxHeld(x, jobs[x], locks, counters, parts, lives);
    }
  }

  // ------------------------------------------------------------------ DELETE FROM conversations

  /** Messages only refer to participants of their own conversation, so the delete goes through. */
  lemma DeleteNotBlocked(db: T.Db, minted: map<Uuid, Mint>, lives: map<Uuid, nat>, c: Uuid)
    requires LivesOk(db, minted, lives)
    ensures !T.DeleteBlocked(db, c)
  {
  }

  lemma DeleteConvOk(cfg: Config, s: Sys, c: Uuid)
    requires Inv(cfg, s)
    ensures Inv(cfg, DoDeleteConv(s, c))
  {
    hide StreamsOk, JobsOk, PcsOk, SendersOk, NumbersOk, TxOk, ConnsOk, AcksOk, SerialOk, ServedInOrder, LivesOk;
    if c in s.db.convs && c !in s.locks {
      DeleteNotBlocked(s.db, s.minted, s.lives, c);
      var db := T.DeleteConversation(s.db, c).value;
      var lives := s.lives[c := Life(s.lives, c) + 1];
      DeletedLives(s.db, db, s.minted, s.lives, lives, c);
      DeletedSenders(s.jobs, s.minted, s.lives, lives, c);
      DeletedNumbers(s.jobs, s.db, db, s.lives, lives, c);
      DeletedTx(s.jobs, s.locks, s.minted, s.db, db, s.lives, lives, c);
      if cfg.serial { FewerRows(s.jobs, s.db.msgs, db.msgs, s.now); }
    }
  }

  lemma DeletedLives(db: T.Db, db': T.Db, minted: map<Uuid, Mint>,
                     lives: map<Uuid, nat>, lives': map<Uuid, nat>, c: Uuid)
    requires LivesOk(db, minted, lives) && c in db.convs
    requires T.DeleteConversation(db, c).Ok? && db' == T.DeleteConversation(db, c).value
    requires lives' == lives[c := Life(lives, c) + 1]
    ensures LivesOk(db', minted, lives')
  {
  }

  lemma DeletedSenders(jobs: seq<Job>, minted: map<Uuid, Mint>, lives: map<Uuid, nat>, lives': map<Uuid, nat>, c: Uuid)
    requires SendersOk(jobs, minted, lives) && lives' == lives[c := Life(lives, c) + 1]
    ensures SendersOk(jobs, minted, lives')
  {
    forall x | 0 <= x < |jobs| ensures SenderOk(jobs[x], minted, lives') {
      assert SenderOk(jobs[x], minted, lives);
    }
  }

  lemma DeletedNumbers(jobs: seq<Job>, db: T.Db, db': T.Db, lives: map<Uuid, nat>, lives': map<Uuid, nat>, c: Uuid)
    requires NumbersOk(jobs, db.counters, db.msgs, lives) && c in db.convs
    requires T.DeleteConversation(db, c).Ok? && db' == T.DeleteConversation(db, c).value
    requires lives' == lives[c := Life(lives, c) + 1]
    ensures NumbersOk(jobs, db'.counters, db'.msgs, lives')
  {
    forall x | 0 <= x < |jobs|
      ensures NumberOk(jobs[x], db'.counters, lives')
      ensures RowThere(x, jobs[x], db'.msgs, lives')
    {
      assert NumberOk(jobs[x], db.counters, lives) && RowThere(x, jobs[x], db.msgs, lives);
      if x in db.msgs { assert RowOk(x, db.msgs[x], jobs, lives); }
    }
    forall m | m in db'.msgs ensures RowOk(m, db'.msgs[m], jobs, lives') {
      assert RowOk(m, db.msgs[m], jobs, lives);
    }
    forall d, n: nat | d in db'.counters && 1 <= n <= db'.counters[d] ensures Handed(jobs, lives', d, n) {
      assert Handed(jobs, lives, d, n);
      var x :| Holds(jobs, x, d, Life(lives, d), n);
      assert Holds(jobs, x, d, Life(lives', d), n);
    }
  }

  lemma DeletedTx(jobs: seq<Job>, locks: map<Uuid, nat>, minted: map<Uuid, Mint>, db: T.Db, db': T.Db,
                  lives: map<Uuid, nat>, lives': map<Uuid, nat>, c: Uuid)
    requires TxOk(jobs, locks, db.counters, db.parts, lives) && SendersOk(jobs, minted, lives)
    requires LivesOk(db, minted, lives) && c in db.convs && c !in locks
    requires T.DeleteConversation(db, c).Ok? && db' == T.DeleteConversation(db, c).value
    requires lives' == lives[c := Life(lives, c) + 1]
    ensures TxOk(jobs, locks, db'.counters, db'.parts, lives')
  {
    forall x | 0 <= x < |jobs| ensures TxHeld(x, jobs[x], locks, db'.counters, db'.parts, lives') {
      assert TxHeld(x, jobs[x], locks, db.counters, db.parts, lives);
      assert SenderOk(jobs[x], minted, lives);
    }
  }

  lemma FewerRows(jobs: seq<Job>, msgs: map<Uuid, T.Row>, msgs': map<Uuid, T.Row>, now: Time)
    requires SerialOk(jobs, msgs, now)
    requires forall m | m in msgs' :: m in msgs && msgs'[m] == msgs[m]
    ensures SerialOk(jobs, msgs', now)
  {
    forall m, n | m in msgs' && n in msgs' ensures RowsInTime(msgs', m, n) {
      assert RowsInTime(msgs, m, n);
    }
    forall x, m | 0 <= x < |jobs| && m in msgs' ensures BeganAfter(jobs[x], msgs'[m]) {
      assert BeganAfter(jobs[x], msgs[m]);
    }
  }

  // ------------------------------------------------------------------ participants

  lemma PartsGrow(jobs: seq<Job>, locks: map<Uuid, nat>, counters: map<Uuid, nat>,
                  parts: map<Uuid, T.Participant>, parts': map<Uuid, T.Participant>, lives: map<Uuid, nat>)
    requires TxOk(jobs, locks, counters, parts, lives) && parts.Keys <= parts'.Keys
    ensures TxOk(jobs, locks, counters, parts', lives)
  {
    forall x | 0 <= x < |jobs| ensures TxHeld(x, jobs[x], locks, counters, parts', lives) {
      assert TxHeld(x, jobs[x], locks, counters, parts, lives);
    }
  }

  lemma MintedGrows(s: Sys, id: Uuid, mint: Mint)
    requires id !in s.minted
    requires StreamsOk(s.streams, s.minted) && SendersOk(s.jobs, s.minted, s.lives)
    ensures StreamsOk(s.streams, s.minted[id := mint]) && SendersOk(s.jobs, s.minted[id := mint], s.lives)
  {
    var minted := s.minted[id := mint];
    forall c | c in s.streams
      ensures forall x: nat {:trigger PayloadOk(s.streams[c].log[x], c, minted)}
                | x < |s.streams[c].log| :: PayloadOk(s.streams[c].log[x], c, minted)
    {
      forall x: nat | x < |s.streams[c].log| ensures PayloadOk(s.streams[c].log[x], c, minted) {
        assert PayloadOk(s.streams[c].log[x], c, s.minted);
      }
    }
    forall x | 0 <= x < |s.jobs| ensures SenderOk(s.jobs[x], minted, s.lives) {
      assert SenderOk(s.jobs[x], s.minted, s.lives);
    }
  }

  lemma JoinOk(cfg: Config, s: Sys, id: Uuid, user: string, c: Uuid)
    requires Inv(cfg, s)
    ensures Inv(cfg, DoJoin(s, id, user, c))
  {
    var p := T.Participant(user, c, s.now, s.now, None);
    if id !in s.minted && T.InsertParticipant(s.db, id, p).Ok? {
      MintedGrows(s, id, Mint(c, Life(s.lives, c)));
      PartsGrow(s.jobs, s.locks, s.db.counters, s.db.parts, s.db.parts[id := p], s.lives);
      JoinLives(s.db, id, p, s.minted, s.lives);
    }
  }

  lemma JoinLives(db: T.Db, id: Uuid, p: T.Participant, minted: map<Uuid, Mint>, lives: map<Uuid, nat>)
    requires LivesOk(db, minted, lives) && id !in minted && p.conv in db.convs
    ensures LivesOk(db.(parts := db.parts[id := p]), minted[id := Mint(p.conv, Life(lives, p.conv))], lives)
  {
  }

  lemma PartUpdate(cfg: Config, s: Sys, id: Uuid, p: T.Participant)
    requires Inv(cfg, s) && id in s.db.parts && p.conv == s.db.parts[id].conv
    ensures Inv(cfg, s.(db := s.db.(parts := s.db.parts[id := p])))
  {
    PartsGrow(s.jobs, s.locks, s.db.counters, s.db.parts, s.db.parts[id := p], s.lives);
    UpdateLives(s.db, id, p, s.minted, s.lives);
  }

  lemma UpdateLives(db: T.Db, id: Uuid, p: T.Participant, minted: map<Uuid, Mint>, lives: map<Uuid, nat>)
    requires LivesOk(db, minted, lives) && id in db.parts && p.conv == db.parts[id].conv
    ensures LivesOk(db.(parts := db.parts[id := p]), minted, lives)
  {
  }

  lemma SyncOk(cfg: Config, s: Sys, id: Uuid)
    requires Inv(cfg, s)
    ensures Inv(cfg, DoSync(s, id))
  {
    if id in s.db.parts { PartUpdate(cfg, s, id, DoSync(s, id).db.parts[id]); }
  }

  lemma LeaveOk(cfg: Config, s: Sys, id: Uuid)
    requires Inv(cfg, s)
    ensures Inv(cfg, DoLeave(s, id))
  {
    var s' := DoLeave(s, id);
    if s' != s { PartUpdate(cfg, s, id, s'.db.parts[id]); }
  }

  // ------------------------------------------------------------------ every step, every run

  lemma HandlerStepOk(cfg: Config, s: Sys, step: Step)
    requires Inv(cfg, s) && OfHandler(step)
    ensures Inv(cfg, DoHandler(cfg, s, step))
  {
    hide Inv;
    match step
    case Begin(i, ok) => BeginOk(cfg, s, i, ok);
    case DrawNumber(i, f) => DrawOk(cfg, s, i, f);
    case InsertRow(i, f) => InsertOk(cfg, s, i, f);
    case Commit(i, f) => CommitOk(cfg, s, i, f);
    case SendTo(i, k) => SendToOk(cfg, s, i, k);
    case EndBroadcast(i) => EndBroadcastOk(cfg, s, i);
    case SendAck(i) => SendAckOk(cfg, s, i);
    case XAck(i, f) => XAckOk(cfg, s, i, f);
    case XDel(i, f) => XDelOk(cfg, s, i, f);
    case Crash(i) => if i < |s.jobs| { AbortOk(cfg, s, i); }
  }

  predicate OfTables(step: Step) {
    step.CreateConv? || step.CreateCounter? || step.DeleteConv? || step.Join? || step.Sync? || step.Leave?
  }

  lemma TableStepOk(cfg: Config, s: Sys, step: Step)
    requires Inv(cfg, s) && OfTables(step)
    ensures Inv(cfg, DoOther(cfg, s, step))
  {
    hide Inv;
    match step
    case CreateConv(c) => CreateConvOk(cfg, s, c);
    case CreateCounter(c) => CreateCounterOk(cfg, s, c);
    case DeleteConv(c) => DeleteConvOk(cfg, s, c);
    case Join(id, user, c) => JoinOk(cfg, s, id, user, c);
    case Sync(id) => SyncOk(cfg, s, id);
    case Leave(id) => LeaveOk(cfg, s, id);
  }

  lemma OtherStepOk(cfg: Config, s: Sys, step: Step)
    requires Inv(cfg, s) && !OfHandler(step) && !OfTables(step)
    ensures Inv(cfg, DoOther(cfg, s, step))
  {
    hide Inv;
    match step
    case Tick(d) => TickOk(cfg, s, d);
    case Publish(sender, text, m, evict) => PublishOk(cfg, s, sender, text, m, evict);
    case CreateGroup(c) => CreateGroupOk(cfg, s, c);
    case Deliver(c, received) => DeliverOk(cfg, s, c, received);
    case Open(k, sender) => OpenOk(cfg, s, k, sender);
    case Write(k) => WriteOk(cfg, s, k);
  }

  lemma StepOk(cfg: Config, s: Sys, step: Step)
    requires Inv(cfg, s)
    ensures Inv(cfg, Do(cfg, s, step))
  {
    hide Inv;
    if OfHandler(step) { HandlerStepOk(cfg, s, step); }
    else if OfTables(step) { TableStepOk(cfg, s, step); }
    else { OtherStepOk(cfg, s, step); }
  }

  /** Whatever the interleaving, the invariant holds in every state that can be reached. */
  lemma {:induction false} RunOk(cfg: Config, s: Sys, steps: seq<Step>)
    requires Inv(cfg, s)
    ensures Inv(cfg, Run(cfg, s, steps))
    decreases |steps|
  {
    hide Inv;
    if steps != [] {
      StepOk(cfg, s, steps[0]);
      RunOk(cfg, Do(cfg, s, steps[0]), steps[1..]);
    }
  }
}
