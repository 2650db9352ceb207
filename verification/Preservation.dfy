/**
 How each part of the invariant carries over when one job changes: first changes that leave the
 job's number and row alone, then drawing a number and storing a row.
 */
module Preservation {
  import opened Common
  import opened Machine
  import opened Invariants
  import T = Tables
  import S = Streams

  // ------------------------------------------------------------------ one job moves on

  /** What a job never changes, and never loses once it has it. */
  ghost predicate Keeps(a: Job, b: Job) {
    && b.conv == a.conv && b.entry == a.entry && b.payload == a.payload
    && (a.num.Some? ==> b.num == a.num) && (a.stored ==> b.stored) && a.served <= b.served
  }

  ghost predicate SameSave(a: Job, b: Job) {
    Keeps(a, b) && b.num == a.num && b.stored == a.stored
  }

  lemma JobsFrame(streams: map<Uuid, S.Stream>, jobs: seq<Job>, i: nat, j: Job)
    requires JobsOk(streams, jobs) && i < |jobs| && Keeps(jobs[i], j)
    requires JobOk(streams, j)
    ensures JobsOk(streams, jobs[i := j])
  {
    var jobs' := jobs[i := j];
    forall x | 0 <= x < |jobs'| ensures JobOk(streams, jobs'[x]) {
      assert JobOk(streams, jobs[x]);
    }
    forall x, y | 0 <= x < y < |jobs'| ensures InOrder(jobs'[x], jobs'[y]) {
      assert InOrder(jobs[x], jobs[y]);
    }
    forall c, id | c in streams && id in streams[c].acked ensures Handled(jobs', c, id) {
      assert Handled(jobs, c, id);
      var x :| HandledBy(jobs, x, c, id);
      assert HandledBy(jobs', x, c, id);
    }
  }

  lemma PcsFrame(shared: bool, jobs: seq<Job>, i: nat, j: Job)
    requires PcsOk(shared, jobs) && i < |jobs| && PcOk(shared, j)
    ensures PcsOk(shared, jobs[i := j])
  {
    var jobs' := jobs[i := j];
    forall x | 0 <= x < |jobs'| ensures PcOk(shared, jobs'[x]) {
      assert PcOk(shared, jobs[x]);
    }
  }

  lemma SendersFrame(jobs: seq<Job>, i: nat, j: Job, minted: map<Uuid, Mint>, lives: map<Uuid, nat>)
    requires SendersOk(jobs, minted, lives) && i < |jobs| && Keeps(jobs[i], j)
    requires j.num.Some? && jobs[i].num.None? ==> DrawLifeOk(j, j.num.value, minted, lives)
    ensures SendersOk(jobs[i := j], minted, lives)
  {
    var jobs' := jobs[i := j];
    forall x | 0 <= x < |jobs'| ensures SenderOk(jobs'[x], minted, lives) {
      assert SenderOk(jobs[x], minted, lives);
    }
  }

  lemma HandedFrame(jobs: seq<Job>, i: nat, j: Job, lives: map<Uuid, nat>, c: Uuid, n: nat)
    requires i < |jobs| && Keeps(jobs[i], j) && Handed(jobs, lives, c, n)
    ensures Handed(jobs[i := j], lives, c, n)
  {
    var x :| Holds(jobs, x, c, Life(lives, c), n);
    assert Holds(jobs[i := j], x, c, Life(lives, c), n);
  }

  lemma NumbersFrame(jobs: seq<Job>, i: nat, j: Job,
                     counters: map<Uuid, nat>, msgs: map<Uuid, T.Row>, lives: map<Uuid, nat>)
    requires NumbersOk(jobs, counters, msgs, lives) && i < |jobs| && SameSave(jobs[i], j)
    ensures NumbersOk(jobs[i := j], counters, msgs, lives)
  {
    var jobs' := jobs[i := j];
    forall c, n: nat | c in counters && 1 <= n <= counters[c] ensures Handed(jobs', lives, c, n) {
      HandedFrame(jobs, i, j, lives, c, n);
    }
    forall m | m in msgs ensures RowOk(m, msgs[m], jobs', lives) {
      assert RowOk(m, msgs[m], jobs, lives);
    }
    forall x | 0 <= x < |jobs'|
      ensures NumberOk(jobs'[x], counters, lives)
      ensures RowThere(x, jobs'[x], msgs, lives)
    {
      assert NumberOk(jobs[x], counters, lives) && RowThere(x, jobs[x], msgs, lives);
    }
    forall x, y | 0 <= x < y < |jobs'| ensures OtherNumber(jobs'[x], jobs'[y]) {
      assert OtherNumber(jobs[x], jobs[y]);
    }
  }

  lemma ConnsFrame(jobs: seq<Job>, i: nat, j: Job, conns: map<nat, Conn>)
    requires ConnsOk(jobs, conns) && i < |jobs| && Keeps(jobs[i], j)
    ensures ConnsOk(jobs[i := j], conns)
  {
    var jobs' := jobs[i := j];
    forall k | k in conns ensures ConnOk(jobs', k, conns[k]) {
      assert ConnOk(jobs, k, conns[k]);
      forall x | 0 <= x < |conns[k].accepted| ensures ChatOk(jobs', k, conns[k], conns[k].accepted[x]) {
        assert ChatOk(jobs, k, conns[k], conns[k].accepted[x]);
      }
    }
  }

  lemma AcksFrame(jobs: seq<Job>, i: nat, j: Job, acks: seq<Ack>)
    requires AcksOk(jobs, acks) && i < |jobs| && Keeps(jobs[i], j)
    requires jobs[i].pc == AtXAck || jobs[i].pc == AtXDel || jobs[i].pc == Halted ==>
               j.pc == AtXAck || j.pc == AtXDel || j.pc == Halted
    ensures AcksOk(jobs[i := j], acks)
  {
    forall x | 0 <= x < |acks| ensures AckOk(jobs[i := j], acks[x]) {
      assert AckOk(jobs, acks[x]);
    }
  }

  lemma TxFrame(jobs: seq<Job>, i: nat, j: Job, locks: map<Uuid, nat>, counters: map<Uuid, nat>,
                parts: map<Uuid, T.Participant>, lives: map<Uuid, nat>)
    requires TxOk(jobs, locks, counters, parts, lives) && i < |jobs| && j.conv == jobs[i].conv
    requires j.tx == jobs[i].tx
    requires j.pc == AtCommit && j.tx.Some? ==> j.payload.sender in parts
    ensures TxOk(jobs[i := j], locks, counters, parts, lives)
  {
    var jobs' := jobs[i := j];
    forall x | 0 <= x < |jobs'| ensures TxHeld(x, jobs'[x], locks, counters, parts, lives) {
      assert TxHeld(x, jobs[x], locks, counters, parts, lives);
    }
    forall c | c in locks ensures LockOwned(c, locks[c], jobs') {
      assert LockOwned(c, locks[c], jobs);
    }
  }

  /** The transaction of job i ends; if it commits, the counter moves on. */
  lemma TxRelease(jobs: seq<Job>, i: nat, j: Job, locks: map<Uuid, nat>, counters: map<Uuid, nat>,
                  parts: map<Uuid, T.Participant>, lives: map<Uuid, nat>, n: nat)
    requires TxOk(jobs, locks, counters, parts, lives) && i < |jobs| && j.conv == jobs[i].conv
    requires jobs[i].tx.Some? && j.tx.None?
    ensures TxOk(jobs[i := j], locks - {j.conv}, counters, parts, lives)
    ensures TxOk(jobs[i := j], locks - {j.conv}, counters[j.conv := n], parts, lives)
  {
    var jobs' := jobs[i := j];
    assert TxHeld(i, jobs[i], locks, counters, parts, lives);
    forall x | 0 <= x < |jobs'|
      ensures TxHeld(x, jobs'[x], locks - {j.conv}, counters, parts, lives)
      ensures TxHeld(x, jobs'[x], locks - {j.conv}, counters[j.conv := n], parts, lives)
    {
      assert TxHeld(x, jobs[x], locks, counters, parts, lives);
    }
    forall c | c in locks - {j.conv} ensures LockOwned(c, (locks - {j.conv})[c], jobs') {
      assert LockOwned(c, locks[c], jobs);
    }
  }

  /** Job i opens a transaction on a counter nobody holds. */
  lemma TxAcquire(jobs: seq<Job>, i: nat, j: Job, locks: map<Uuid, nat>, counters: map<Uuid, nat>,
                  parts: map<Uuid, T.Participant>, lives: map<Uuid, nat>)
    requires TxOk(jobs, locks, counters, parts, lives) && i < |jobs| && j.conv == jobs[i].conv
    requires j.conv !in locks && j.conv in counters && j.pc == AtInsert
    requires j.tx == Some(Draw(Life(lives, j.conv), counters[j.conv] + 1))
    ensures TxOk(jobs[i := j], locks[j.conv := i], counters, parts, lives)
  {
    var jobs', locks' := jobs[i := j], locks[j.conv := i];
    forall x | 0 <= x < |jobs'| ensures TxHeld(x, jobs'[x], locks', counters, parts, lives) {
      assert TxHeld(x, jobs[x], locks, counters, parts, lives);
    }
    forall c | c in locks' ensures LockOwned(c, locks'[c], jobs') {
      if c != j.conv { assert LockOwned(c, locks[c], jobs); }
    }
  }

  lemma SerialFrame(jobs: seq<Job>, i: nat, j: Job, msgs: map<Uuid, T.Row>, now: Time)
    requires SerialOk(jobs, msgs, now) && i < |jobs| && SameSave(jobs[i], j)
    requires jobs[i].pc == Halted ==> j.pc == Halted
    requires Saving(j) ==> j.began == now || (j.began == jobs[i].began && Saving(jobs[i]))
    ensures SerialOk(jobs[i := j], msgs, now)
  {
    var jobs' := jobs[i := j];
    assert Saving(jobs[i]) ==> jobs[i].began <= now;
    forall x, y | 0 <= x < y < |jobs'| ensures Earlier(jobs'[x], jobs'[y]) {
      assert Earlier(jobs[x], jobs[y]);
    }
    forall x | 0 <= x < |jobs'| ensures Saving(jobs'[x]) ==> jobs'[x].began <= now {
      assert Saving(jobs[x]) ==> jobs[x].began <= now;
    }
    forall x, m | 0 <= x < |jobs'| && m in msgs ensures BeganAfter(jobs'[x], msgs[m]) {
      assert BeganAfter(jobs[x], msgs[m]);
    }
  }

  /** A job that moves without touching its transaction. */
  lemma MoveOk(cfg: Config, s: Sys, i: nat, j: Job)
    requires Inv(cfg, s) && i < |s.jobs| && SameSave(s.jobs[i], j)
    requires PcOk(cfg.shared, j) && JobOk(s.streams, j)
    requires j.tx == s.jobs[i].tx
    requires j.pc == AtCommit && j.tx.Some? ==> j.payload.sender in s.db.parts
    requires s.jobs[i].pc != Halted
    requires s.jobs[i].pc == AtXAck || s.jobs[i].pc == AtXDel ==> j.pc == AtXDel || j.pc == Halted
    requires j.pc == AtDraw || j.tx.Some? ==>
               (j.pc == AtDraw && j.began == s.now) || (j.tx.Some? && j.began == s.jobs[i].began)
    ensures Inv(cfg, SetJob(s, i, j))
  {
    hide StreamsOk, JobsOk, PcsOk, LivesOk, SendersOk, NumbersOk, TxOk, ConnsOk, AcksOk, SerialOk, ServedInOrder;
    JobsFrame(s.streams, s.jobs, i, j);
    PcsFrame(cfg.shared, s.jobs, i, j);
    SendersFrame(s.jobs, i, j, s.minted, s.lives);
    NumbersFrame(s.jobs, i, j, s.db.counters, s.db.msgs, s.lives);
    TxFrame(s.jobs, i, j, s.locks, s.db.counters, s.db.parts, s.lives);
    ConnsFrame(s.jobs, i, j, s.conns);
    AcksFrame(s.jobs, i, j, s.acks);
    if cfg.serial { SerialFrame(s.jobs, i, j, s.db.msgs, s.now); }
  }

  lemma HaltOk(cfg: Config, s: Sys, i: nat)
    requires Inv(cfg, s) && i < |s.jobs| && s.jobs[i].tx.None?
    ensures Inv(cfg, Halt(s, i))
  {
    hide StreamsOk, LivesOk, SendersOk, NumbersOk, TxOk, ConnsOk, AcksOk, SerialOk, ServedInOrder;
    assert JobOk(s.streams, s.jobs[i]) && PcOk(cfg.shared, s.jobs[i]);
    if s.jobs[i].pc == Halted {
      assert s.jobs[i := s.jobs[i].(pc := Halted)] == s.jobs;
      assert Halt(s, i) == s;
    } else {
      MoveOk(cfg, s, i, s.jobs[i].(pc := Halted));
    }
  }

  lemma AbortOk(cfg: Config, s: Sys, i: nat)
    requires Inv(cfg, s) && i < |s.jobs|
    ensures Inv(cfg, Abort(s, i))
  {
    var j := s.jobs[i];
    if j.tx.None? {
      assert Abort(s, i) == Halt(s, i);
      HaltOk(cfg, s, i);
    } else {
      var j' := j.(pc := Halted, tx := None);
      assert JobOk(s.streams, s.jobs[i]) && PcOk(cfg.shared, s.jobs[i]);
      JobsFrame(s.streams, s.jobs, i, j');
      PcsFrame(cfg.shared, s.jobs, i, j');
      SendersFrame(s.jobs, i, j', s.minted, s.lives);
      NumbersFrame(s.jobs, i, j', s.db.counters, s.db.msgs, s.lives);
      TxRelease(s.jobs, i, j', s.locks, s.db.counters, s.db.parts, s.lives, 0);
      ConnsFrame(s.jobs, i, j', s.conns);
      AcksFrame(s.jobs, i, j', s.acks);
      if cfg.serial { SerialFrame(s.jobs, i, j', s.db.msgs, s.now); }
    }
  }

  // ------------------------------------------------------------------ drawing and storing

  /** Job i takes the next number. */
  lemma NumbersDraw(jobs: seq<Job>, i: nat, j: Job,
                    counters: map<Uuid, nat>, msgs: map<Uuid, T.Row>, lives: map<Uuid, nat>)
    requires NumbersOk(jobs, counters, msgs, lives) && i < |jobs| && Keeps(jobs[i], j)
    requires jobs[i].num.None? && !jobs[i].stored && !j.stored && j.conv in counters
    requires j.num == Some(Draw(Life(lives, j.conv), counters[j.conv] + 1))
    ensures NumbersOk(jobs[i := j], counters[j.conv := counters[j.conv] + 1], msgs, lives)
  {
    var jobs' := jobs[i := j];
    var counters' := counters[j.conv := counters[j.conv] + 1];
    forall c, n: nat | c in counters' && 1 <= n <= counters'[c] ensures Handed(jobs', lives, c, n) {
      if c == j.conv && n == counters'[c] {
        assert Holds(jobs', i, c, Life(lives, c), n);
      } else {
        HandedFrame(jobs, i, j, lives, c, n);
      }
    }
    forall m | m in msgs ensures RowOk(m, msgs[m], jobs', lives) {
      assert RowOk(m, msgs[m], jobs, lives);
    }
    forall x | 0 <= x < |jobs'|
      ensures NumberOk(jobs'[x], counters', lives)
      ensures RowThere(x, jobs'[x], msgs, lives)
    {
      assert NumberOk(jobs[x], counters, lives) && RowThere(x, jobs[x], msgs, lives);
    }
    forall x, y | 0 <= x < y < |jobs'| ensures OtherNumber(jobs'[x], jobs'[y]) {
      assert OtherNumber(jobs[x], jobs[y]);
      assert NumberOk(jobs[x], counters, lives) && NumberOk(jobs[y], counters, lives);
    }
  }

  /** Job i stores the row with the number it holds. */
  lemma NumbersStore(jobs: seq<Job>, i: nat, j: Job, t: Time,
                     counters: map<Uuid, nat>, msgs: map<Uuid, T.Row>, lives: map<Uuid, nat>)
    requires NumbersOk(jobs, counters, msgs, lives) && i < |jobs| && Keeps(jobs[i], j)
    requires jobs[i].num.Some? && j.stored && jobs[i].num.value.life == Life(lives, j.conv)
    ensures NumbersOk(jobs[i := j], counters, msgs[i := RowOf(j, j.num.value.seqNo, t)], lives)
  {
    var jobs' := jobs[i := j];
    var msgs' := msgs[i := RowOf(j, j.num.value.seqNo, t)];
    forall c, n: nat | c in counters && 1 <= n <= counters[c] ensures Handed(jobs', lives, c, n) {
      HandedFrame(jobs, i, j, lives, c, n);
    }
    forall m | m in msgs' ensures RowOk(m, msgs'[m], jobs', lives) {
      if m != i { assert RowOk(m, msgs[m], jobs, lives); }
    }
    forall x | 0 <= x < |jobs'|
      ensures NumberOk(jobs'[x], counters, lives)
      ensures RowThere(x, jobs'[x], msgs', lives)
    {
      assert NumberOk(jobs[x], counters, lives) && RowThere(x, jobs[x], msgs, lives);
    }
    forall x, y | 0 <= x < y < |jobs'| ensures OtherNumber(jobs'[x], jobs'[y]) {
      assert OtherNumber(jobs[x], jobs[y]);
    }
  }

  lemma RowsOfJobs(jobs: seq<Job>, counters: map<Uuid, nat>, msgs: map<Uuid, T.Row>, lives: map<Uuid, nat>)
    requires NumbersOk(jobs, counters, msgs, lives)
    ensures forall m | m in msgs :: m < |jobs| && jobs[m].conv == msgs[m].conv && jobs[m].stored
  {
    forall m | m in msgs ensures m < |jobs| && jobs[m].conv == msgs[m].conv && jobs[m].stored {
      assert RowOk(m, msgs[m], jobs, lives);
    }
  }

  /** In serial mode a fresh number of job i follows every number of its conversation. */
  lemma SerialDraw(jobs: seq<Job>, i: nat, j: Job, counters: map<Uuid, nat>, msgs: map<Uuid, T.Row>,
                   lives: map<Uuid, nat>, now: Time)
    requires SerialOk(jobs, msgs, now) && NumbersOk(jobs, counters, msgs, lives)
    requires i < |jobs| && Keeps(jobs[i], j) && jobs[i].pc != Halted
    requires !Saving(j) && j.conv in counters
    requires j.num == Some(Draw(Life(lives, j.conv), counters[j.conv] + 1))
    ensures SerialOk(jobs[i := j], msgs, now)
  {
    var jobs' := jobs[i := j];
    forall x, y | 0 <= x < y < |jobs'| ensures Earlier(jobs'[x], jobs'[y]) {
      assert Earlier(jobs[x], jobs[y]);
      assert NumberOk(jobs[x], counters, lives);
    }
    forall x | 0 <= x < |jobs'| ensures Saving(jobs'[x]) ==> jobs'[x].began <= now {
      assert Saving(jobs[x]) ==> jobs[x].began <= now;
    }
    forall x, m | 0 <= x < |jobs'| && m in msgs ensures BeganAfter(jobs'[x], msgs[m]) {
      assert BeganAfter(jobs[x], msgs[m]);
    }
  }

  /** In serial mode the row of the running job is the newest of its conversation. */
  lemma SerialStore(shared: bool, jobs: seq<Job>, i: nat, msgs: map<Uuid, T.Row>, row: T.Row, now: Time)
    requires SerialOk(jobs, msgs, now) && PcsOk(shared, jobs) && i < |jobs| && jobs[i].pc != Halted
    requires forall m | m in msgs :: m < |jobs| && jobs[m].conv == msgs[m].conv
    requires row.conv == jobs[i].conv && row.createdAt <= now && !Saving(jobs[i])
    requires forall m | m in msgs && msgs[m].conv == row.conv :: msgs[m].createdAt <= row.createdAt
    ensures SerialOk(jobs, msgs[i := row], now)
  {
    var msgs' := msgs[i := row];
    forall x | 0 <= x < |jobs| && x != i && jobs[x].conv == jobs[i].conv
      ensures x < i && jobs[x].pc == Halted && jobs[x].tx.None?
    {
      assert PcOk(shared, jobs[x]);
      assert x < i ==> Earlier(jobs[x], jobs[i]);
      assert i < x ==> Earlier(jobs[i], jobs[x]);
    }
    forall m, n | m in msgs' && n in msgs' ensures RowsInTime(msgs', m, n) {
      if m != i && n != i { assert RowsInTime(msgs, m, n); }
    }
    forall x, m | 0 <= x < |jobs| && m in msgs' ensures BeganAfter(jobs[x], msgs'[m]) {
      if m != i { assert BeganAfter(jobs[x], msgs[m]); }
    }
  }
}
