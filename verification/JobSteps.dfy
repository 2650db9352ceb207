/** The steps of a handler keep the invariant. */
module JobSteps {
  import opened Common
  import opened Machine
  import opened Invariants
  import opened Preservation
  import T = Tables

  lemma JobFacts(cfg: Config, s: Sys, i: nat)
    requires Inv(cfg, s) && i < |s.jobs|
    ensures JobOk(s.streams, s.jobs[i]) && PcOk(cfg.shared, s.jobs[i])
    ensures SenderOk(s.jobs[i], s.minted, s.lives)
    ensures NumberOk(s.jobs[i], s.db.counters, s.lives)
    ensures TxHeld(i, s.jobs[i], s.locks, s.db.counters, s.db.parts, s.lives)
  {
  }

  lemma BeginOk(cfg: Config, s: Sys, i: nat, ok: bool)
    requires Inv(cfg, s)
    ensures Inv(cfg, DoBegin(s, i, ok))
  {
    hide Inv;
    if At(s, i, AtBegin) {
      JobFacts(cfg, s, i);
      if ok { MoveOk(cfg, s, i, s.jobs[i].(pc := AtDraw, began := s.now)); }
      else { HaltOk(cfg, s, i); }
    }
  }

  // ------------------------------------------------------------------ UPDATE ... RETURNING last_seq

  lemma DrawOk(cfg: Config, s: Sys, i: nat, f: Fault)
    requires Inv(cfg, s)
    ensures Inv(cfg, DoDraw(cfg, s, i, f))
  {
    hide Inv;
    var s' := DoDraw(cfg, s, i, f);
    if s' != s {
      var j := s.jobs[i];
      JobFacts(cfg, s, i);
      if s' == Halt(s, i) {
        HaltOk(cfg, s, i);
      } else if cfg.shared {
        LockOk(cfg, s, i, j, s'.jobs[i]);
      } else {
        BumpOk(cfg, s, i, j, s'.jobs[i]);
      }
    }
  }

  lemma LockOk(cfg: Config, s: Sys, i: nat, j: Job, j': Job)
    requires Inv(cfg, s) && cfg.shared && At(s, i, AtDraw) && j == s.jobs[i]
    requires j.conv !in s.locks && j.conv in s.db.counters
    requires j' == j.(pc := AtInsert, tx := Some(Draw(Life(s.lives, j.conv), s.db.counters[j.conv] + 1)))
    ensures Inv(cfg, SetJob(s, i, j').(locks := s.locks[j.conv := i]))
  {
    hide StreamsOk, JobsOk, PcsOk, LivesOk, SendersOk, NumbersOk, TxOk, ConnsOk, AcksOk, SerialOk, ServedInOrder;
    JobFacts(cfg, s, i);
    JobsFrame(s.streams, s.jobs, i, j');
    PcsFrame(cfg.shared, s.jobs, i, j');
    SendersFrame(s.jobs, i, j', s.minted, s.lives);
    NumbersFrame(s.jobs, i, j', s.db.counters, s.db.msgs, s.lives);
    TxAcquire(s.jobs, i, j', s.locks, s.db.counters, s.db.parts, s.lives);
    ConnsFrame(s.jobs, i, j', s.conns);
    AcksFrame(s.jobs, i, j', s.acks);
    if cfg.serial { SerialFrame(s.jobs, i, j', s.db.msgs, s.now); }
  }

  /** As-run no transaction is ever open. */
  lemma NoTransactions(cfg: Config, s: Sys)
    requires Inv(cfg, s) && !cfg.shared
    ensures s.locks == map[]
    ensures forall i | 0 <= i < |s.jobs| :: s.jobs[i].tx.None?
  {
    assert forall i | 0 <= i < |s.jobs| :: PcOk(cfg.shared, s.jobs[i]) ==> s.jobs[i].tx.None?;
    assert forall c | c in s.locks :: !LockOwned(c, s.locks[c], s.jobs);
  }

  lemma TxNone(jobs: seq<Job>, i: nat, j: Job, counters: map<Uuid, nat>,
               parts: map<Uuid, T.Participant>, lives: map<Uuid, nat>)
    requires i < |jobs| && j.tx.None? && forall x | 0 <= x < |jobs| :: jobs[x].tx.None?
    ensures TxOk(jobs[i := j], map[], counters, parts, lives)
  {
  }

  lemma LivesCounter(db: T.Db, counters: map<Uuid, nat>, minted: map<Uuid, Mint>, lives: map<Uuid, nat>)
    requires LivesOk(db, minted, lives) && counters.Keys == db.counters.Keys
    ensures LivesOk(db.(counters := counters), minted, lives)
  {
  }

  lemma BumpOk(cfg: Config, s: Sys, i: nat, j: Job, j': Job)
    requires Inv(cfg, s) && !cfg.shared && At(s, i, AtDraw) && j == s.jobs[i] && j.conv in s.db.counters
    requires j'.pc == AtInsert || j'.pc == Halted
    requires j' == j.(pc := j'.pc, num := Some(Draw(Life(s.lives, j.conv), s.db.counters[j.conv] + 1)))
    ensures Inv(cfg, SetJob(s, i, j').(db :=
              s.db.(counters := s.db.counters[j.conv := s.db.counters[j.conv] + 1])))
  {
    hide StreamsOk, JobsOk, PcsOk, LivesOk, SendersOk, NumbersOk, TxOk, ConnsOk, AcksOk, SerialOk, ServedInOrder;
    JobFacts(cfg, s, i);
    NoTransactions(cfg, s);
    SenderLife(s, j);
    LivesCounter(s.db, s.db.counters[j.conv := s.db.counters[j.conv] + 1], s.minted, s.lives);
    JobsFrame(s.streams, s.jobs, i, j');
    PcsFrame(cfg.shared, s.jobs, i, j');
    SendersFrame(s.jobs, i, j', s.minted, s.lives);
    NumbersDraw(s.jobs, i, j', s.db.counters, s.db.msgs, s.lives);
    TxNone(s.jobs, i, j', s.db.counters[j.conv := s.db.counters[j.conv] + 1], s.db.parts, s.lives);
    ConnsFrame(s.jobs, i, j', s.conns);
    AcksFrame(s.jobs, i, j', s.acks);
    if cfg.serial { SerialDraw(s.jobs, i, j', s.db.counters, s.db.msgs, s.lives, s.now); }
  }

  lemma SenderLife(s: Sys, j: Job)
    requires LivesOk(s.db, s.minted, s.lives) && SenderOk(j, s.minted, s.lives)
    ensures j.payload.sender in s.minted && s.minted[j.payload.sender].life <= Life(s.lives, j.conv)
  {
  }

  // ------------------------------------------------------------------ INSERT INTO messages

  /** No stored row has the number that a job is about to insert. */
  lemma NumberIsFree(cfg: Config, s: Sys, i: nat, d: Draw)
    requires Inv(cfg, s) && i < |s.jobs| && !s.jobs[i].stored
    requires s.jobs[i].num == Some(d) || s.jobs[i].tx == Some(d)
    requires d.life == Life(s.lives, s.jobs[i].conv)
    ensures i !in s.db.msgs && !T.SeqTaken(s.db, s.jobs[i].conv, d.seqNo)
  {
    JobFacts(cfg, s, i);
    RowsOfJobs(s.jobs, s.db.counters, s.db.msgs, s.lives);
    forall m | m in s.db.msgs && s.db.msgs[m].conv == s.jobs[i].conv ensures s.db.msgs[m].seqNo != d.seqNo {
      assert RowOk(m, s.db.msgs[m], s.jobs, s.lives);
      assert NumberOk(s.jobs[m], s.db.counters, s.lives);
      assert m < i ==> OtherNumber(s.jobs[m], s.jobs[i]);
      assert i < m ==> OtherNumber(s.jobs[i], s.jobs[m]);
    }
  }

  /**
   The INSERT of a drawn number succeeds exactly when the sender's participant row still exists,
   and then the number belongs to the present life of the conversation.
   */
  lemma InsertSucceedsIff(cfg: Config, s: Sys, i: nat, t: Time)
    requires Inv(cfg, s) && At(s, i, AtInsert)
    ensures
      var j := s.jobs[i];
      var d := if cfg.shared then j.tx else j.num;
      && d.Some?
      && (T.InsertMessage(s.db, i, RowOf(j, d.value.seqNo, t)).Ok? <==> j.payload.sender in s.db.parts)
      && (j.payload.sender in s.db.parts ==> d.value.life == Life(s.lives, j.conv))
  {
    var j := s.jobs[i];
    JobFacts(cfg, s, i);
    if j.payload.sender in s.db.parts {
      NumberIsFree(cfg, s, i, if cfg.shared then j.tx.value else j.num.value);
    }
  }

  lemma InsertOk(cfg: Config, s: Sys, i: nat, f: Fault)
    requires Inv(cfg, s)
    ensures Inv(cfg, DoInsert(cfg, s, i, f))
  {
    hide Inv;
    if At(s, i, AtInsert) {
      if cfg.shared { InsertInTx(cfg, s, i, f); } else { InsertAlone(cfg, s, i, f); }
    }
  }

  lemma InsertInTx(cfg: Config, s: Sys, i: nat, f: Fault)
    requires Inv(cfg, s) && cfg.shared && At(s, i, AtInsert)
    ensures Inv(cfg, DoInsert(cfg, s, i, f))
  {
    hide Inv;
    var j := s.jobs[i];
    JobFacts(cfg, s, i);
    InsertSucceedsIff(cfg, s, i, j.began);
    if f == Fine && j.payload.sender in s.db.parts {
      MoveOk(cfg, s, i, j.(pc := AtCommit));
      assert DoInsert(cfg, s, i, f) == SetJob(s, i, j.(pc := AtCommit));
    } else {
      AbortOk(cfg, s, i);
      assert DoInsert(cfg, s, i, f) == Abort(s, i);
    }
  }

  lemma InsertAlone(cfg: Config, s: Sys, i: nat, f: Fault)
    requires Inv(cfg, s) && !cfg.shared && At(s, i, AtInsert)
    ensures Inv(cfg, DoInsert(cfg, s, i, f))
  {
    hide Inv;
    var s' := DoInsert(cfg, s, i, f);
    var j := s.jobs[i];
    JobFacts(cfg, s, i);
    InsertSucceedsIff(cfg, s, i, s.now);
    if f == Refused || j.payload.sender !in s.db.parts {
      HaltOk(cfg, s, i);
    } else {
      StoreOk(cfg, s, i, j, s'.jobs[i], s'.db.msgs[i]);
    }
  }

  lemma SenderConv(s: Sys, j: Job)
    requires LivesOk(s.db, s.minted, s.lives) && SenderOk(j, s.minted, s.lives) && j.payload.sender in s.db.parts
    ensures s.db.parts[j.payload.sender].conv == j.conv
  {
  }

  lemma LivesStore(db: T.Db, i: nat, row: T.Row, minted: map<Uuid, Mint>, lives: map<Uuid, nat>)
    requires LivesOk(db, minted, lives) && row.sender in db.parts && db.parts[row.sender].conv == row.conv
    ensures LivesOk(db.(msgs := db.msgs[i := row]), minted, lives)
  {
  }

  /** As-run the row is there as soon as its INSERT has run. */
  lemma StoreOk(cfg: Config, s: Sys, i: nat, j: Job, j': Job, row: T.Row)
    requires Inv(cfg, s) && !cfg.shared && At(s, i, AtInsert) && j == s.jobs[i] && j.payload.sender in s.db.parts
    requires j'.pc == AtCommit || j'.pc == Halted
    requires j' == j.(pc := j'.pc, stored := true)
    requires j.num.Some? && j.num.value.life == Life(s.lives, j.conv)
    requires row == RowOf(j, j.num.value.seqNo, s.now)
    ensures Inv(cfg, SetJob(s, i, j').(db := s.db.(msgs := s.db.msgs[i := row])))
  {
    hide StreamsOk, JobsOk, PcsOk, SendersOk, NumbersOk, TxOk, ConnsOk, AcksOk, ServedInOrder;
    JobFacts(cfg, s, i);
    NoTransactions(cfg, s);
    LivesStore(s.db, i, row, s.minted, s.lives);
    JobsFrame(s.streams, s.jobs, i, j');
    PcsFrame(cfg.shared, s.jobs, i, j');
    SendersFrame(s.jobs, i, j', s.minted, s.lives);
    NumbersStore(s.jobs, i, j', s.now, s.db.counters, s.db.msgs, s.lives);
    TxNone(s.jobs, i, j', s.db.counters, s.db.parts, s.lives);
    ConnsFrame(s.jobs, i, j', s.conns);
    AcksFrame(s.jobs, i, j', s.acks);
    if cfg.serial {
      RowsOfJobs(s.jobs, s.db.counters, s.db.msgs, s.lives);
      SerialStore(cfg.shared, s.jobs, i, s.db.msgs, row, s.now);
      SerialFlag(s.jobs, i, j', s.db.msgs[i := row], s.now);
    }
  }

  lemma SerialFlag(jobs: seq<Job>, i: nat, j: Job, msgs: map<Uuid, T.Row>, now: Time)
    requires SerialOk(jobs, msgs, now) && i < |jobs| && Keeps(jobs[i], j) && j.num == jobs[i].num
    requires (jobs[i].pc == Halted ==> j.pc == Halted) && !Saving(j)
    ensures SerialOk(jobs[i := j], msgs, now)
  {
    var jobs' := jobs[i := j];
    forall x, y | 0 <= x < y < |jobs'| ensures Earlier(jobs'[x], jobs'[y]) {
      assert Earlier(jobs[x], jobs[y]);
    }
    forall x | 0 <= x < |jobs'| ensures Saving(jobs'[x]) ==> jobs'[x].began <= now {
      assert Saving(jobs[x]) ==> jobs[x].began <= now;
    }
    forall x, m | 0 <= x < |jobs'| && m in msgs ensures BeganAfter(jobs'[x], msgs[m]) {
      assert BeganAfter(jobs[x], msgs[m]);
    }
  }

  // ------------------------------------------------------------------ COMMIT

  lemma CommitOk(cfg: Config, s: Sys, i: nat, f: Fault)
    requires Inv(cfg, s)
    ensures Inv(cfg, DoCommit(cfg, s, i, f))
  {
    hide Inv;
    var s' := DoCommit(cfg, s, i, f);
    if s' != s {
      JobFacts(cfg, s, i);
      if s' == Abort(s, i) {
        AbortOk(cfg, s, i);
      } else if cfg.shared {
        CommitTxOk(cfg, s, i, s.jobs[i], s'.jobs[i], s'.db.msgs[i], s'.db.counters[s.jobs[i].conv]);
      } else {
        MoveOk(cfg, s, i, s.jobs[i].(pc := if f == Fine then AtBroadcast else Halted));
      }
    }
  }

  /** A commit makes the drawn number and the row visible together. */
  lemma CommitTxOk(cfg: Config, s: Sys, i: nat, j: Job, j': Job, row: T.Row, n: nat)
    requires Inv(cfg, s) && cfg.shared && At(s, i, AtCommit) && j == s.jobs[i] && j.tx.Some?
    requires j'.pc == AtBroadcast || j'.pc == Halted
    requires j' == j.(pc := j'.pc, tx := None, num := j.tx, stored := true)
    requires n == j.tx.value.seqNo && row == RowOf(j, n, j.began)
    ensures Inv(cfg, SetJob(s, i, j').(
              locks := s.locks - {j.conv},
              db := s.db.(counters := s.db.counters[j.conv := n], msgs := s.db.msgs[i := row])))
  {
    hide StreamsOk, JobsOk, PcsOk, LivesOk, SendersOk, NumbersOk, TxOk, ConnsOk, AcksOk, SerialOk, ServedInOrder;
    JobFacts(cfg, s, i);
    SenderConv(s, j);
    var drawn := j'.(stored := false);
    var counters := s.db.counters[j.conv := n];
    var jobs := s.jobs[i := drawn];
    assert jobs[i := j'] == s.jobs[i := j'];
    LivesStore(s.db, i, row, s.minted, s.lives);
    LivesCounter(s.db.(msgs := s.db.msgs[i := row]), counters, s.minted, s.lives);
    SenderLife(s, j);
    JobsFrame(s.streams, s.jobs, i, j');
    PcsFrame(cfg.shared, s.jobs, i, j');
    SendersFrame(s.jobs, i, j', s.minted, s.lives);
    NumbersDraw(s.jobs, i, drawn, s.db.counters, s.db.msgs, s.lives);
    NumbersStore(jobs, i, j', j.began, counters, s.db.msgs, s.lives);
    TxRelease(s.jobs, i, j', s.locks, s.db.counters, s.db.parts, s.lives, n);
    ConnsFrame(s.jobs, i, j', s.conns);
    AcksFrame(s.jobs, i, j', s.acks);
    if cfg.serial { CommitSerial(cfg, s, i, j', row); }
  }

  lemma CommitSerial(cfg: Config, s: Sys, i: nat, j': Job, row: T.Row)
    requires Inv(cfg, s) && cfg.serial && At(s, i, AtCommit) && s.jobs[i].tx.Some?
    requires Keeps(s.jobs[i], j') && (j'.pc == Halted || j'.pc == AtBroadcast) && j'.tx.None? && j'.stored
    requires j'.num == s.jobs[i].tx && row.conv == j'.conv && row.createdAt == s.jobs[i].began
    ensures SerialOk(s.jobs[i := j'], s.db.msgs[i := row], s.now)
  {
    hide StreamsOk, JobsOk, LivesOk, SendersOk, NumbersOk, TxOk, ConnsOk, AcksOk, SerialOk, ServedInOrder;
    var j := s.jobs[i];
    JobFacts(cfg, s, i);
    var drawn := j.(pc := AtBroadcast, tx := None, num := j.tx);
    var open_ := j'.(pc := AtBroadcast);
    SerialDraw(s.jobs, i, drawn, s.db.counters, s.db.msgs, s.lives, s.now);
    SerialFlag(s.jobs[i := drawn], i, open_, s.db.msgs, s.now);
    assert s.jobs[i := drawn][i := open_] == s.jobs[i := open_];
    PcsFrame(cfg.shared, s.jobs, i, open_);
    CommitRows(s, i);
    SerialStore(cfg.shared, s.jobs[i := open_], i, s.db.msgs, row, s.now);
    SerialFlag(s.jobs[i := open_], i, j', s.db.msgs[i := row], s.now);
    assert s.jobs[i := open_][i := j'] == s.jobs[i := j'];
  }

  lemma CommitRows(s: Sys, i: nat)
    requires SerialOk(s.jobs, s.db.msgs, s.now) && NumbersOk(s.jobs, s.db.counters, s.db.msgs, s.lives)
    requires i < |s.jobs| && Saving(s.jobs[i])
    ensures s.jobs[i].began <= s.now
    ensures forall m | m in s.db.msgs :: m < |s.jobs| && s.jobs[m].conv == s.db.msgs[m].conv
    ensures forall m | m in s.db.msgs && s.db.msgs[m].conv == s.jobs[i].conv ::
              s.db.msgs[m].createdAt <= s.jobs[i].began
  {
    RowsOfJobs(s.jobs, s.db.counters, s.db.msgs, s.lives);
    forall m | m in s.db.msgs && s.db.msgs[m].conv == s.jobs[i].conv
      ensures s.db.msgs[m].createdAt <= s.jobs[i].began
    {
      assert BeganAfter(s.jobs[i], s.db.msgs[m]);
    }
  }
}
