/**
 The promises of the message pipeline, for every run from the empty system: every interleaving of
 publishers, workers, crashes, deletions and re-creations of conversations.
 */
module PipelineTheorems {
  import opened Common
  import opened Machine
  import opened Invariants
  import opened Moves
  import opened TableSteps
  import JobSteps
  import T = Tables

  function Reached(cfg: Config, steps: seq<Step>): Sys {
    Run(cfg, INIT, steps)
  }

  lemma ReachedOk(cfg: Config, steps: seq<Step>)
    ensures Inv(cfg, Reached(cfg, steps))
  {
    InitInv(cfg);
    RunOk(cfg, INIT, steps);
  }

  // ------------------------------------------------------------------ at most once

  ghost predicate SameEntry(a: Job, b: Job) { a.conv == b.conv && a.entry == b.entry }

  /**
   With any number of overlapping consumers and crashes, an entry reaches a handler at most once,
   and so gives at most one row and at most one persisted ack.
   */
  lemma AtMostOnce(cfg: Config, steps: seq<Step>)
    ensures
      var s := Reached(cfg, steps);
      && (forall i, j | 0 <= i < j < |s.jobs| :: !SameEntry(s.jobs[i], s.jobs[j]))
      && (forall m, n | m in s.db.msgs && n in s.db.msgs && m != n ::
            m < |s.jobs| && n < |s.jobs| && !SameEntry(s.jobs[m], s.jobs[n]))
      && (forall x, y | 0 <= x < y < |s.acks| ::
            && s.acks[x].job < |s.jobs| && s.acks[y].job < |s.jobs|
            && !SameEntry(s.jobs[s.acks[x].job], s.jobs[s.acks[y].job]))
  {
    var s := Reached(cfg, steps);
    ReachedOk(cfg, steps);
    RowsHaveOwners(s);
    forall i, j | 0 <= i < j < |s.jobs| ensures !SameEntry(s.jobs[i], s.jobs[j]) {
      assert InOrder(s.jobs[i], s.jobs[j]);
    }
    forall x | 0 <= x < |s.acks| ensures s.acks[x].job < |s.jobs| {
      assert AckOk(s.jobs, s.acks[x]);
    }
  }

  lemma RowsHaveOwners(s: Sys)
    requires NumbersOk(s.jobs, s.db.counters, s.db.msgs, s.lives)
    ensures forall m | m in s.db.msgs :: RowOk(m, s.db.msgs[m], s.jobs, s.lives)
  {
  }

  /**
   An acknowledged entry had its row inserted by its handler; the row is still there unless the
   conversation has been deleted since.
   */
  lemma AckedOnlyAfterInsert(cfg: Config, steps: seq<Step>, c: Uuid, id: nat)
    requires var s := Reached(cfg, steps); c in s.streams && id in s.streams[c].acked
    ensures
      var s := Reached(cfg, steps);
      exists i: nat :: HandledBy(s.jobs, i, c, id) && s.jobs[i].num.Some?
        && (s.jobs[i].num.value.life == Life(s.lives, c) ==>
              i in s.db.msgs && s.db.msgs[i].seqNo == s.jobs[i].num.value.seqNo)
  {
    var s := Reached(cfg, steps);
    ReachedOk(cfg, steps);
    assert Handled(s.jobs, c, id);
    var i: nat :| HandledBy(s.jobs, i, c, id);
    assert PcOk(cfg.shared, s.jobs[i]);
    assert RowThere(i, s.jobs[i], s.db.msgs, s.lives);
    if i in s.db.msgs { assert RowOk(i, s.db.msgs[i], s.jobs, s.lives); }
  }

  /**
   A persisted ack goes to the sender of a message whose row was inserted, names that message, and
   carries the number of the row, which is still there unless the conversation has been deleted since.
   */
  lemma PersistedAckIsTrue(cfg: Config, steps: seq<Step>, x: nat)
    requires x < |Reached(cfg, steps).acks|
    ensures
      var s := Reached(cfg, steps);
      var a := s.acks[x];
      && a.job < |s.jobs|
      && var j := s.jobs[a.job];
      && j.stored && a.sender == j.payload.sender && a.clientMsgId == j.payload.clientMsgId
      && (a.num.life == Life(s.lives, j.conv) ==>
            && a.job in s.db.msgs
            && s.db.msgs[a.job] == RowOf(j, a.num.seqNo, s.db.msgs[a.job].createdAt))
  {
    var s := Reached(cfg, steps);
    ReachedOk(cfg, steps);
    var a := s.acks[x];
    assert AckOk(s.jobs, a);
    assert RowThere(a.job, s.jobs[a.job], s.db.msgs, s.lives);
    RowsHaveOwners(s);
  }

  // ------------------------------------------------------------------ numbers

  /** Job i owns number n of the present life of c. */
  ghost predicate Owns(s: Sys, i: nat, c: Uuid, n: nat) {
    Holds(s.jobs, i, c, Life(s.lives, c), n)
  }

  /** The row of job i is stored with number n. */
  ghost predicate StoredAs(s: Sys, i: nat, c: Uuid, n: nat) {
    i in s.db.msgs && s.db.msgs[i].conv == c && s.db.msgs[i].seqNo == n
  }

  /**
   The numbers 1..last_seq of the present life are partitioned: each has exactly one owner, which
   has stored its row with it, or is about to insert it, or ended without inserting.
   Every gap is one failed save.
   */
  lemma NumbersPartitioned(cfg: Config, steps: seq<Step>, c: Uuid, n: nat)
    requires var s := Reached(cfg, steps); c in s.db.counters && 1 <= n <= s.db.counters[c]
    ensures
      var s := Reached(cfg, steps);
      exists i: nat ::
        && Owns(s, i, c, n)
        && (forall h: nat :: Owns(s, h, c, n) ==> h == i)
        && (forall m | m in s.db.msgs && s.db.msgs[m].conv == c && s.db.msgs[m].seqNo == n :: m == i)
        && (StoredAs(s, i, c, n) <==> s.jobs[i].stored)
        && (!StoredAs(s, i, c, n) ==> !cfg.shared && (s.jobs[i].pc == AtInsert || s.jobs[i].pc == Halted))
  {
    hide StreamsOk, JobsOk, LivesOk, SendersOk, TxOk, ConnsOk, AcksOk, SerialOk, ServedInOrder;
    var s := Reached(cfg, steps);
    ReachedOk(cfg, steps);
    assert Handed(s.jobs, s.lives, c, n);
    var i: nat :| Holds(s.jobs, i, c, Life(s.lives, c), n);
    assert Owns(s, i, c, n);
    forall h: nat | Owns(s, h, c, n) ensures h == i {
      assert i < h ==> OtherNumber(s.jobs[i], s.jobs[h]);
      assert h < i ==> OtherNumber(s.jobs[h], s.jobs[i]);
    }
    forall m | m in s.db.msgs && s.db.msgs[m].conv == c && s.db.msgs[m].seqNo == n ensures m == i {
      assert RowOk(m, s.db.msgs[m], s.jobs, s.lives);
      assert Owns(s, m, c, n);
    }
    assert PcOk(cfg.shared, s.jobs[i]);
    assert RowThere(i, s.jobs[i], s.db.msgs, s.lives);
    if i in s.db.msgs { assert RowOk(i, s.db.msgs[i], s.jobs, s.lives); }
  }

  /** Every row of a conversation has a number between 1 and last_seq, and no two the same. */
  lemma RowsNumbered(cfg: Config, steps: seq<Step>, m: Uuid)
    requires m in Reached(cfg, steps).db.msgs
    ensures
      var s := Reached(cfg, steps);
      var row := s.db.msgs[m];
      && row.conv in s.db.counters && 1 <= row.seqNo <= s.db.counters[row.conv]
      && forall n | n in s.db.msgs && n != m && s.db.msgs[n].conv == row.conv :: s.db.msgs[n].seqNo != row.seqNo
  {
    var s := Reached(cfg, steps);
    ReachedOk(cfg, steps);
    assert RowOk(m, s.db.msgs[m], s.jobs, s.lives);
    assert NumberOk(s.jobs[m], s.db.counters, s.lives);
    forall n | n in s.db.msgs && n != m && s.db.msgs[n].conv == s.db.msgs[m].conv
      ensures s.db.msgs[n].seqNo != s.db.msgs[m].seqNo
    {
      assert RowOk(n, s.db.msgs[n], s.jobs, s.lives);
      assert m < n ==> OtherNumber(s.jobs[m], s.jobs[n]);
      assert n < m ==> OtherNumber(s.jobs[n], s.jobs[m]);
    }
  }

  /**
   With effective transactions a reader never sees a gap: the committed rows of a conversation
   carry every number from 1 to last_seq.
   */
  lemma GapFree(cfg: Config, steps: seq<Step>, c: Uuid, n: nat)
    requires cfg.shared
    requires var s := Reached(cfg, steps); c in s.db.counters && 1 <= n <= s.db.counters[c]
    ensures T.SeqTaken(Reached(cfg, steps).db, c, n)
  {
    NumbersPartitioned(cfg, steps, c, n);
    var s := Reached(cfg, steps);
    var i: nat :| Owns(s, i, c, n) && StoredAs(s, i, c, n);
  }

  lemma OnlyCommitWrites(cfg: Config, s: Sys, step: Step)
    requires cfg.shared && OfHandler(step) && !step.Commit?
    ensures Do(cfg, s, step).db == s.db
  {
    match step
    case Begin(i, ok) =>
    case DrawNumber(i, f) =>
    case InsertRow(i, f) =>
    case SendTo(i, k) =>
    case EndBroadcast(i) =>
    case SendAck(i) =>
    case XAck(i, f) =>
    case XDel(i, f) =>
    case Crash(i) =>
  }

  /**
   With effective transactions a handler changes the tables only by a commit, which appends one
   row numbered last_seq + 1: commit order is number order, and a save that fails at any point
   leaves the tables as they were.
   */
  lemma CommitAppends(cfg: Config, steps: seq<Step>, step: Step)
    requires cfg.shared && OfHandler(step) && Do(cfg, Reached(cfg, steps), step).db != Reached(cfg, steps).db
    ensures
      var s := Reached(cfg, steps);
      && step.Commit? && step.f != Refused && At(s, step.i, AtCommit)
      && var j := s.jobs[step.i];
      && j.conv in s.db.counters
      && var n := s.db.counters[j.conv] + 1;
      && step.i !in s.db.msgs
      && Do(cfg, s, step).db == s.db.(counters := s.db.counters[j.conv := n],
                                      msgs := s.db.msgs[step.i := RowOf(j, n, j.began)])
      && forall m | m in s.db.msgs && s.db.msgs[m].conv == j.conv :: s.db.msgs[m].seqNo < n
  {
    var s := Reached(cfg, steps);
    ReachedOk(cfg, steps);
    if !step.Commit? { OnlyCommitWrites(cfg, s, step); }
    CommitNumber(cfg, s, step.i);
    RowsBelowCounter(s, s.jobs[step.i].conv);
  }

  /** An open transaction that is ready to commit holds the next number and no row of it exists yet. */
  lemma CommitNumber(cfg: Config, s: Sys, i: nat)
    requires Inv(cfg, s) && cfg.shared && At(s, i, AtCommit)
    ensures
      var j := s.jobs[i];
      && j.tx.Some? && j.conv in s.db.counters && j.tx.value.seqNo == s.db.counters[j.conv] + 1
      && i !in s.db.msgs
  {
    JobSteps.JobFacts(cfg, s, i);
    JobSteps.NumberIsFree(cfg, s, i, s.jobs[i].tx.value);
  }

  lemma RowsBelowCounter(s: Sys, c: Uuid)
    requires NumbersOk(s.jobs, s.db.counters, s.db.msgs, s.lives) && c in s.db.counters
    ensures forall m | m in s.db.msgs && s.db.msgs[m].conv == c :: s.db.msgs[m].seqNo <= s.db.counters[c]
  {
    forall m | m in s.db.msgs && s.db.msgs[m].conv == c ensures s.db.msgs[m].seqNo <= s.db.counters[c] {
      assert RowOk(m, s.db.msgs[m], s.jobs, s.lives);
      assert NumberOk(s.jobs[m], s.db.counters, s.lives);
    }
  }

  /**
   As-run, an INSERT succeeds if and only if it is executed while the sender's participant row
   exists, and then its number was drawn in the present life of the conversation: a number drawn
   before the conversation was deleted and re-created is never stored.
   */
  lemma NoStaleInsert(cfg: Config, steps: seq<Step>, i: nat, f: Fault)
    requires !cfg.shared && At(Reached(cfg, steps), i, AtInsert)
    ensures
      var s := Reached(cfg, steps);
      var s' := Do(cfg, s, InsertRow(i, f));
      && (i in s'.db.msgs <==> f != Refused && s.jobs[i].payload.sender in s.db.parts)
      && (i in s'.db.msgs ==>
            && s.jobs[i].num.Some?
            && s.jobs[i].num.value.life == Life(s.lives, s.jobs[i].conv)
            && s'.db.msgs[i] == RowOf(s.jobs[i], s.jobs[i].num.value.seqNo, s.now)
            && !T.SeqTaken(s.db, s.jobs[i].conv, s.jobs[i].num.value.seqNo))
  {
    var s := Reached(cfg, steps);
    ReachedOk(cfg, steps);
    JobSteps.JobFacts(cfg, s, i);
    JobSteps.InsertSucceedsIff(cfg, s, i, s.now);
    InsertStores(cfg, s, i, f, Do(cfg, s, InsertRow(i, f)));
  }

  /** What an autocommitted INSERT of a job whose row is not there yet does to the messages. */
  lemma InsertStores(cfg: Config, s: Sys, i: nat, f: Fault, s': Sys)
    requires !cfg.shared && At(s, i, AtInsert) && s.jobs[i].num.Some? && !s.jobs[i].stored
    requires NumbersOk(s.jobs, s.db.counters, s.db.msgs, s.lives) && s' == Do(cfg, s, InsertRow(i, f))
    ensures
      var row := RowOf(s.jobs[i], s.jobs[i].num.value.seqNo, s.now);
      && (i in s'.db.msgs <==> f != Refused && T.InsertMessage(s.db, i, row).Ok?)
      && (i in s'.db.msgs ==> s'.db.msgs[i] == row)
  {
    assert i in s.db.msgs ==> RowOk(i, s.db.msgs[i], s.jobs, s.lives);
  }

  /**
   Within one life of a conversation its counter is never reset and never goes back, however often
   and however concurrently CreateConversation is called.
   */
  lemma {:induction false} CounterNeverReset(cfg: Config, s: Sys, steps: seq<Step>, c: Uuid)
    requires Inv(cfg, s)
    ensures CounterForward(s, Run(cfg, s, steps), c)
    decreases |steps|
  {
    if steps != [] {
      var s1 := Do(cfg, s, steps[0]);
      CounterStep(cfg, s, steps[0], c);
      StepOk(cfg, s, steps[0]);
      CounterNeverReset(cfg, s1, steps[1..], c);
    }
  }

  predicate CounterForward(s: Sys, s': Sys, c: Uuid) {
    && Life(s.lives, c) <= Life(s'.lives, c)
    && (Life(s'.lives, c) == Life(s.lives, c) && c in s.db.counters ==>
          c in s'.db.counters && s.db.counters[c] <= s'.db.counters[c])
  }

  lemma CounterStep(cfg: Config, s: Sys, step: Step, c: Uuid)
    requires Inv(cfg, s)
    ensures CounterForward(s, Do(cfg, s, step), c)
  {
    hide CounterForward;
    var s' := Do(cfg, s, step);
    if OfHandler(step) { HandlerCounter(cfg, s, step, s', c); } else { OtherCounter(cfg, s, step, s', c); }
  }

  lemma HandlerCounter(cfg: Config, s: Sys, step: Step, s': Sys, c: Uuid)
    requires Inv(cfg, s) && OfHandler(step) && s' == DoHandler(cfg, s, step)
    ensures CounterForward(s, s', c)
  {
    if step.Commit? {
      if step.i < |s.jobs| { JobSteps.JobFacts(cfg, s, step.i); }
      CommitCounter(cfg, s, step.i, step.f, s', c);
    } else if step.DrawNumber? {
      DrawCounter(cfg, s, step.i, step.f, s', c);
    } else {
      NoCounter(cfg, s, step, s');
      HandlerLeaves(cfg, s, step, s');
    }
  }

  lemma DrawCounter(cfg: Config, s: Sys, i: nat, f: Fault, s': Sys, c: Uuid)
    requires s' == DoDraw(cfg, s, i, f)
    ensures CounterForward(s, s', c)
  {
  }

  lemma CommitCounter(cfg: Config, s: Sys, i: nat, f: Fault, s': Sys, c: Uuid)
    requires s' == DoCommit(cfg, s, i, f)
    requires i < |s.jobs| ==> TxHeld(i, s.jobs[i], s.locks, s.db.counters, s.db.parts, s.lives)
    ensures CounterForward(s, s', c)
  {
  }

  lemma OtherCounter(cfg: Config, s: Sys, step: Step, s': Sys, c: Uuid)
    requires !OfHandler(step) && s' == DoOther(cfg, s, step)
    ensures CounterForward(s, s', c)
  {
    if step.DeleteConv? {
      DeleteCounter(s, step.c, s', c);
    } else if !step.CreateCounter? {
      assert s'.db.counters == s.db.counters && s'.lives == s.lives;
    }
  }

  lemma DeleteCounter(s: Sys, d: Uuid, s': Sys, c: Uuid)
    requires s' == DoDeleteConv(s, d)
    ensures CounterForward(s, s', c)
  {
  }

  /** Deleting a conversation is never refused because of a message of another conversation. */
  lemma DeleteGoesThrough(cfg: Config, steps: seq<Step>, c: Uuid)
    requires c in Reached(cfg, steps).db.convs
    ensures
      var s := Reached(cfg, steps);
      && T.DeleteConversation(s.db, c).Ok?
      && var db := T.DeleteConversation(s.db, c).value;
      && c !in db.convs && c !in db.counters
      && (forall m | m in db.msgs :: db.msgs[m].conv != c && db.msgs[m].sender in db.parts)
      && (forall p | p in db.parts :: db.parts[p].conv != c)
  {
    var s := Reached(cfg, steps);
    ReachedOk(cfg, steps);
    DeleteNotBlocked(s.db, s.minted, s.lives, c);
  }

  // ------------------------------------------------------------------ order

  /**
   With one handler at a time per stream, and whatever errors and restarts happen, the rows of one
   life of a conversation are numbered in the order of their stream entries, and their created_at
   stamps never go back.
   */
  lemma NumbersFollowStream(cfg: Config, steps: seq<Step>, m: Uuid, n: Uuid)
    requires cfg.serial
    requires var s := Reached(cfg, steps);
      m in s.db.msgs && n in s.db.msgs && s.db.msgs[m].conv == s.db.msgs[n].conv && m != n
    ensures
      var s := Reached(cfg, steps);
      && m < |s.jobs| && n < |s.jobs|
      && (s.jobs[m].entry < s.jobs[n].entry <==> s.db.msgs[m].seqNo < s.db.msgs[n].seqNo)
      && (s.db.msgs[m].seqNo < s.db.msgs[n].seqNo ==> s.db.msgs[m].createdAt <= s.db.msgs[n].createdAt)
  {
    var s := Reached(cfg, steps);
    ReachedOk(cfg, steps);
    assert RowOk(m, s.db.msgs[m], s.jobs, s.lives) && RowOk(n, s.db.msgs[n], s.jobs, s.lives);
    assert m < n ==> InOrder(s.jobs[m], s.jobs[n]) && Earlier(s.jobs[m], s.jobs[n]);
    assert n < m ==> InOrder(s.jobs[n], s.jobs[m]) && Earlier(s.jobs[n], s.jobs[m]);
    assert RowsInTime(s.db.msgs, m, n) && RowsInTime(s.db.msgs, n, m);
  }

  /** The frames that writeLoop has handed to the socket. */
  function Written(conn: Conn): seq<Chat>
    requires conn.taken <= |conn.accepted|
  {
    conn.accepted[..conn.taken]
  }

  /**
   What a connection is sent repeats nothing and never contains the client's own messages; what has
   reached the socket is a prefix of it, at most 256 frames behind. With one handler at a time per
   stream it is strictly ascending in (life, number).
   */
  lemma ConnectionStream(cfg: Config, steps: seq<Step>, k: nat)
    requires k in Reached(cfg, steps).conns
    ensures
      var s := Reached(cfg, steps);
      var conn := s.conns[k];
      && conn.taken <= |conn.accepted| <= conn.taken + 256
      && Written(conn) <= conn.accepted
      && (forall x | 0 <= x < |conn.accepted| ::
            && conn.accepted[x].sender != conn.sender
            && conn.accepted[x].job < |s.jobs| && s.jobs[conn.accepted[x].job].conv == conn.conv
            && s.jobs[conn.accepted[x].job].stored)
      && (forall x, y | 0 <= x < y < |conn.accepted| :: conn.accepted[x].num != conn.accepted[y].num)
      && (cfg.serial ==> forall x, y | 0 <= x < y < |conn.accepted| ::
            Before(conn.accepted[x].num, conn.accepted[y].num))
  {
    var s := Reached(cfg, steps);
    ReachedOk(cfg, steps);
    var conn := s.conns[k];
    assert ConnOk(s.jobs, k, conn);
    forall x | 0 <= x < |conn.accepted| ensures ChatOk(s.jobs, k, conn, conn.accepted[x]) { }
    forall x, y | 0 <= x < y < |conn.accepted|
      ensures conn.accepted[x].num != conn.accepted[y].num
      ensures cfg.serial ==> Before(conn.accepted[x].num, conn.accepted[y].num)
    {
      var a, b := conn.accepted[x].job, conn.accepted[y].job;
      assert ChatOk(s.jobs, k, conn, conn.accepted[x]) && ChatOk(s.jobs, k, conn, conn.accepted[y]);
      assert a < b ==> OtherNumber(s.jobs[a], s.jobs[b]);
      assert b < a ==> OtherNumber(s.jobs[b], s.jobs[a]);
      assert cfg.serial ==> a < b && Earlier(s.jobs[a], s.jobs[b]);
    }
  }

  /**
   A handler that is broadcasting can reach a connection of its conversation, other than the sender's and
   not reached before, if and only if fewer than 256 frames wait there; otherwise it waits.
   */
  lemma ReachableIff(cfg: Config, steps: seq<Step>, i: nat, k: nat)
    requires var s := Reached(cfg, steps); At(s, i, AtBroadcast) && k in s.conns
    ensures
      var s := Reached(cfg, steps);
      var s' := Do(cfg, s, SendTo(i, k));
      var j, conn := s.jobs[i], s.conns[k];
      && (s' != s <==> conn.conv == j.conv && conn.sender != j.payload.sender && k !in j.served
                       && |conn.accepted| < conn.taken + 256)
      && (s' != s ==>
            && j.num.Some?
            && s'.conns == s.conns[k := conn.(accepted := conn.accepted + [Chat(i, j.payload.sender, j.num.value)])])
  {
    var s := Reached(cfg, steps);
    ReachedOk(cfg, steps);
    assert PcOk(cfg.shared, s.jobs[i]);
    assert s.conns[k].accepted + [Chat(i, s.jobs[i].payload.sender, s.jobs[i].num.value)] != s.conns[k].accepted;
  }

  /** So many turns of writeLoop on connection k. */
  function Writes(k: nat, turns: nat): seq<Step> {
    seq(turns, t => Write(k))
  }

  lemma WriteStep(cfg: Config, s: Sys, k: nat)
    ensures Do(cfg, s, Write(k)) == DoWrite(s, k)
  {
  }

  /** writeLoop catches up: in n turns it hands over the next n accepted frames, or all there are. */
  lemma {:induction false} WritesHandOver(cfg: Config, s: Sys, k: nat, turns: nat)
    requires k in s.conns && s.conns[k].taken <= |s.conns[k].accepted|
    ensures
      var conn := s.conns[k];
      var taken := if conn.taken + turns <= |conn.accepted| then conn.taken + turns else |conn.accepted|;
      Run(cfg, s, Writes(k, turns)) == s.(conns := s.conns[k := conn.(taken := taken)])
    decreases turns
  {
    hide Do;
    var conn := s.conns[k];
    if turns > 0 {
      assert Writes(k, turns)[0] == Write(k) && Writes(k, turns)[1..] == Writes(k, turns - 1);
      var s1 := Do(cfg, s, Write(k));
      WriteStep(cfg, s, k);
      WritesHandOver(cfg, s1, k, turns - 1);
    } else {
      assert s.conns == s.conns[k := conn];
    }
  }

  // Sessions come and go beside the pipeline.

  /** Joining adds an unleft row of an existing conversation, and is refused to an id that was ever given out. */
  lemma JoinAdds(cfg: Config, s: Sys, id: Uuid, user: string, c: Uuid, s': Sys)
    requires LivesOk(s.db, s.minted, s.lives) && s' == Do(cfg, s, Join(id, user, c))
    ensures s' ==
      if id !in s.minted && c in s.db.convs then
        s.(db := s.db.(parts := s.db.parts[id := T.Participant(user, c, s.now, s.now, None)]),
           minted := s.minted[id := Mint(c, Life(s.lives, c))])
      else s
  {
    assert s' == DoJoin(s, id, user, c);
  }

  lemma SessionStep(cfg: Config, s: Sys, id: Uuid)
    ensures Do(cfg, s, Sync(id)) == DoSync(s, id) && Do(cfg, s, Leave(id)) == DoLeave(s, id)
  {
  }

  /** A sync sets last_seen_at of a row, and leaving sets left_at once. */
  lemma SyncsAndLeaves(cfg: Config, s: Sys, id: Uuid, s1: Sys, s2: Sys)
    requires s1 == Do(cfg, s, Sync(id)) && s2 == Do(cfg, s, Leave(id))
    ensures
      var parts := s.db.parts;
      && s1 == s.(db := s.db.(parts := if id in parts then parts[id := parts[id].(lastSeen := s.now)] else parts))
      && var leaves := id in parts && parts[id].leftAt.None? && forall q | q in parts && q != id ::
           parts[q].user != parts[id].user || parts[q].conv != parts[id].conv || parts[q].leftAt != Some(s.now);
      && s2 == s.(db := s.db.(
           parts := if leaves then parts[id := parts[id].(lastSeen := s.now, leftAt := Some(s.now))] else parts))
  {
    hide Do;
    SessionStep(cfg, s, id);
  }

  /**
   A handler can die anywhere. All that goes with it is its open transaction: tables, streams, acks and
   connections stay as they are, the lock on the counter is released, and nobody is ever given the entry again
   (AtMostOnce).
   */
  lemma CrashLosesTransaction(cfg: Config, steps: seq<Step>, i: nat)
    requires i < |Reached(cfg, steps).jobs|
    ensures
      var s := Reached(cfg, steps);
      var s', j := Do(cfg, s, Crash(i)), s.jobs[i];
      && s' == s.(jobs := s.jobs[i := j.(pc := Halted, tx := None)], locks := s'.locks)
      && (forall c :: c in s'.locks <==> c in s.locks && s.locks[c] != i)
      && (forall c | c in s'.locks :: s'.locks[c] == s.locks[c])
  {
    hide StreamsOk, JobsOk, PcsOk, LivesOk, SendersOk, NumbersOk, ConnsOk, AcksOk, SerialOk, ServedInOrder;
    var s := Reached(cfg, steps);
    ReachedOk(cfg, steps);
    CrashStep(cfg, s, i);
    hide Do;
    assert TxHeld(i, s.jobs[i], s.locks, s.db.counters, s.db.parts, s.lives);
    forall c | c in s.locks ensures LockOwned(c, s.locks[c], s.jobs) { }
  }

  lemma CrashStep(cfg: Config, s: Sys, i: nat)
    ensures Do(cfg, s, Crash(i)) == DoCrash(s, i)
  {
  }

  /**
   A conversation can be created again whenever it is not there, with a counter of its own, and a connection can
   be opened for everybody who was ever given a participant id, in the conversation of that id.
   */
  lemma CreationSteps(cfg: Config, s: Sys, c: Uuid, k: nat, sender: Uuid)
    ensures
      && Do(cfg, s, CreateConv(c)) == s.(db := s.db.(
           convs := if c != NIL && c !in s.db.convs then s.db.convs[c := s.now] else s.db.convs))
      && Do(cfg, s, CreateCounter(c)) == s.(db := s.db.(
           counters := if c != NIL && c in s.db.convs && c !in s.db.counters then s.db.counters[c := 0]
                       else s.db.counters))
      && Do(cfg, s, Open(k, sender)) == s.(
           conns := if k !in s.conns && sender in s.minted
                    then s.conns[k := Conn(s.minted[sender].conv, sender, [], 0)] else s.conns)
  {
    PlainSteps(cfg, s, c, k, sender);
    hide Do;
  }

  lemma PlainSteps(cfg: Config, s: Sys, c: Uuid, k: nat, sender: Uuid)
    ensures Do(cfg, s, CreateConv(c)) == if c == NIL then s else s.(db := T.InsertConversation(s.db, c, s.now))
    ensures Do(cfg, s, CreateCounter(c)) == DoCreateCounter(s, c)
    ensures Do(cfg, s, Open(k, sender)) == DoOpen(s, k, sender)
  {
  }
}
