/**
 Calm runs: runs in which, from some moment on, nothing fails for one conversation. What they keep,
 however publications, other conversations, joins, connections and the clock are interleaved.
 */
module CalmRuns {
  import opened Common
  import opened Machine
  import opened Invariants
  import opened Moves
  import opened TableSteps
  import StreamSteps
  import JobSteps
  import T = Tables
  import S = Streams

  /**
   The moment a calm run of conversation conv begins: how many jobs there have been, its last number,
   its cursor, what it had lost by then, its life and the rows in the database. tidy asks for a calm
   XDEL as well.
   */
  datatype Origin = Origin(
    conv: Uuid, jobs: nat, base: nat, from: nat, gone: set<nat>, life: nat, rows: map<Uuid, T.Row>, tidy: bool)

  function Count(counters: map<Uuid, nat>, c: Uuid): nat { if c in counters then counters[c] else 0 }

  function OriginOf(s: Sys, c: Uuid, tidy: bool): Origin {
    var st := StreamOf(s.streams, c);
    Origin(c, |s.jobs|, Count(s.db.counters, c), st.cursor, st.dropped, Life(s.lives, c), s.db.msgs, tidy)
  }

  /** Job i belongs to conversation c. */
  predicate Of(s: Sys, i: nat, c: Uuid) { i < |s.jobs| && s.jobs[i].conv == c }

  /**
   The step does no harm to c: no fault and no crash hits a handler of c before its XACK is done (its
   XDEL, if tidy), c is not deleted, and its counter is there when an entry of it is delivered.
   */
  ghost predicate Calm(s: Sys, step: Step, c: Uuid, tidy: bool) {
    match step
    case Deliver(d, received) => d == c ==> received && c in s.db.counters
    case Begin(i, ok) => Of(s, i, c) ==> ok
    case DrawNumber(i, f) => Of(s, i, c) ==> f == Fine
    case InsertRow(i, f) => Of(s, i, c) ==> f == Fine
    case Commit(i, f) => Of(s, i, c) ==> f == Fine
    case XAck(i, f) => Of(s, i, c) ==> f == Fine
    case XDel(i, f) => tidy && Of(s, i, c) ==> f != Refused
    case Crash(i) => !Of(s, i, c)
    case DeleteConv(d) => d != c
    case _ => true
  }

  ghost predicate CalmRun(cfg: Config, s: Sys, steps: seq<Step>, c: Uuid, tidy: bool)
    decreases |steps|
  {
    steps == [] || (Calm(s, steps[0], c, tidy) && CalmRun(cfg, Do(cfg, s, steps[0]), steps[1..], c, tidy))
  }

  /** Who publishes in c has a participant row. */
  predicate Present(s: Sys, step: Step, c: Uuid) {
    step.Publish? && step.sender in s.minted && s.minted[step.sender].conv == c ==> step.sender in s.db.parts
  }

  ghost predicate PresentRun(cfg: Config, s: Sys, steps: seq<Step>, c: Uuid)
    decreases |steps|
  {
    steps == [] || (Present(s, steps[0], c) && PresentRun(cfg, Do(cfg, s, steps[0]), steps[1..], c))
  }

  // ------------------------------------------------------------------ what a calm run keeps

  /** The entries from..x that were not lost before. */
  function Ids(gone: set<nat>, from: nat, x: nat): (r: seq<nat>)
    ensures forall y :: y in r <==> from <= y < x && y !in gone
    ensures forall k | 0 <= k < |r| :: from <= r[k] < x && r[k] !in gone
    decreases x
  {
    if x <= from then []
    else if x - 1 in gone then Ids(gone, from, x - 1)
    else Ids(gone, from, x - 1) + [x - 1]
  }

  /** The number that the entry x gets. */
  function NumberOf(o: Origin, x: nat): nat { o.base + |Ids(o.gone, o.from, x)| + 1 }

  ghost predicate SenderHere(log: seq<S.Payload>, parts: map<Uuid, T.Participant>, o: Origin, x: nat) {
    o.from <= x < |log| && x !in o.gone ==> log[x].sender in parts
  }

  /** The senders of everything that is still to be stored have their rows. */
  ghost predicate SendersHere(log: seq<S.Payload>, parts: map<Uuid, T.Participant>, o: Origin) {
    forall x: nat {:trigger SenderHere(log, parts, o, x)} :: SenderHere(log, parts, o, x)
  }

  predicate RowOfConv(msgs: map<Uuid, T.Row>, m: Uuid, c: Uuid) { m in msgs && msgs[m].conv == c }

  ghost predicate RowKept(msgs: map<Uuid, T.Row>, o: Origin, m: Uuid) {
    m < o.jobs ==>
      && (RowOfConv(msgs, m, o.conv) <==> RowOfConv(o.rows, m, o.conv))
      && (RowOfConv(msgs, m, o.conv) ==> msgs[m] == o.rows[m])
  }

  /** The rows of the jobs before the origin are as they were. */
  ghost predicate RowsKept(msgs: map<Uuid, T.Row>, o: Origin) {
    forall m {:trigger RowKept(msgs, o, m)} :: RowKept(msgs, o, m)
  }

  ghost predicate OldDone(j: Job, i: nat, o: Origin) {
    i < o.jobs && j.conv == o.conv ==> j.pc == Halted
  }

  ghost predicate OldHalted(jobs: seq<Job>, o: Origin) {
    && o.jobs <= |jobs|
    && forall i: nat {:trigger OldDone(jobs[i], i, o)} | i < |jobs| :: OldDone(jobs[i], i, o)
  }

  /** Nothing of what the run builds on has been taken away. */
  ghost predicate Grounded(s: Sys, o: Origin) {
    && Life(s.lives, o.conv) == o.life
    && (forall m: Uuid | RowOfConv(o.rows, m, o.conv) :: m < o.jobs)
    && o.gone <= StreamOf(s.streams, o.conv).dropped
    && SendersHere(StreamOf(s.streams, o.conv).log, s.db.parts, o)
    && RowsKept(s.db.msgs, o)
    && OldHalted(s.jobs, o)
  }

  /** A job on entry x draws the number of x, and ends only when its row is stored and its entry is done with. */
  ghost predicate Steady(j: Job, i: nat, st: S.Stream, o: Origin) {
    i >= o.jobs && j.conv == o.conv ==>
      && o.from <= j.entry < |st.log|
      && (j.num.Some? ==> j.num.value.seqNo == NumberOf(o, j.entry))
      && (j.pc == Halted ==> j.stored && j.entry in st.acked && (o.tidy ==> j.entry !in st.entries))
  }

  /** A job without a number works on the newest delivered entry, and the counter awaits it. */
  ghost predicate Undrawn(j: Job, i: nat, counters: map<Uuid, nat>, cursor: nat, o: Origin) {
    i >= o.jobs && j.conv == o.conv && j.num.None? ==>
      o.conv in counters && counters[o.conv] + 1 == NumberOf(o, j.entry) && j.entry + 1 == cursor
  }

  ghost predicate IsJob(jobs: seq<Job>, i: nat, o: Origin, x: nat) {
    o.jobs <= i < |jobs| && jobs[i].conv == o.conv && jobs[i].entry == x
  }

  ghost predicate HasJob(jobs: seq<Job>, o: Origin, x: nat) {
    exists i: nat :: IsJob(jobs, i, o, x)
  }

  ghost predicate Drawn(j: Job, i: nat, o: Origin) { i >= o.jobs && j.conv == o.conv ==> j.num.Some? }

  ghost predicate AllDrawn(jobs: seq<Job>, o: Origin) {
    forall i: nat {:trigger Drawn(jobs[i], i, o)} | i < |jobs| :: Drawn(jobs[i], i, o)
  }

  /** Jobs, numbers and deliveries of the conversation are in step. */
  ghost predicate Aligned(jobs: seq<Job>, counters: map<Uuid, nat>, st: S.Stream, o: Origin) {
    && o.from <= st.cursor
    && (forall i: nat {:trigger Steady(jobs[i], i, st, o)} | i < |jobs| :: Steady(jobs[i], i, st, o))
    && (forall i: nat {:trigger Undrawn(jobs[i], i, counters, st.cursor, o)} | i < |jobs| ::
          Undrawn(jobs[i], i, counters, st.cursor, o))
    && (forall x: nat {:trigger HasJob(jobs, o, x)} | o.from <= x < st.cursor && x !in o.gone :: HasJob(jobs, o, x))
    && (AllDrawn(jobs, o) ==> Count(counters, o.conv) + 1 == NumberOf(o, st.cursor))
  }

  /** As long as no further entry is trimmed away undelivered, everything is in step. */
  ghost predicate CalmInv(s: Sys, o: Origin) {
    && Grounded(s, o)
    && var st := StreamOf(s.streams, o.conv);
       st.dropped == o.gone ==> Aligned(s.jobs, s.db.counters, st, o)
  }

  // ------------------------------------------------------------------ the ground stays

  // ------------------------------------------------------------------ what one step does to the conversation

  /** The same for the stream: nothing is published or delivered, nothing is taken back. */
  ghost predicate SameLog(st: S.Stream, st': S.Stream) {
    && st'.log == st.log && st'.cursor == st.cursor && st'.dropped == st.dropped
    && st.acked <= st'.acked
    && forall x | x in st'.entries :: x in st.entries
  }

  lemma HandlerStream(cfg: Config, s: Sys, step: Step, s': Sys, c: Uuid)
    requires OfHandler(step) && s' == DoHandler(cfg, s, step)
    ensures SameLog(StreamOf(s.streams, c), StreamOf(s'.streams, c))
  {
    if step.XAck? {
      XAckStream(s, step.i, step.f, s', c);
    } else if step.XDel? {
      XDelStream(s, step.i, step.f, s', c);
    } else {
      assert s'.streams == s.streams;
    }
  }

  lemma XAckStream(s: Sys, i: nat, f: Fault, s': Sys, c: Uuid)
    requires s' == DoXAck(s, i, f)
    ensures SameLog(StreamOf(s.streams, c), StreamOf(s'.streams, c))
  {
  }

  lemma XDelStream(s: Sys, i: nat, f: Fault, s': Sys, c: Uuid)
    requires s' == DoXDel(s, i, f)
    ensures SameLog(StreamOf(s.streams, c), StreamOf(s'.streams, c))
  {
  }

  lemma RowStays(s: Sys, s': Sys, o: Origin, m: Uuid)
    requires Grounded(s, o) && RowsOf(s, s', m) && m < |s.jobs|
    requires m in s.db.msgs ==> RowOk(m, s.db.msgs[m], s.jobs, s.lives)
    ensures RowKept(s'.db.msgs, o, m)
  {
    assert RowKept(s.db.msgs, o, m);
    assert OldDone(s.jobs[m], m, o);
  }

  lemma OnwardHalted(s: Sys, s': Sys, i: nat, o: Origin)
    requires Onward(s, s', i) && OldHalted(s.jobs, o)
    ensures OldHalted(s'.jobs, o)
  {
    forall x: nat | x < |s'.jobs| ensures OldDone(s'.jobs[x], x, o) {
      assert OldDone(s.jobs[x], x, o);
    }
  }

  lemma HaltedStay(cfg: Config, s: Sys, step: Step, s': Sys, o: Origin)
    requires PcsOk(cfg.shared, s.jobs) && OfHandler(step) && s' == DoHandler(cfg, s, step) && OldHalted(s.jobs, o)
    ensures OldHalted(s'.jobs, o)
  {
    if s' != s {
      OwnOnward(cfg, s, step, s');
      OnwardHalted(s, s', step.i, o);
    }
  }

  lemma HandlerRowsKept(cfg: Config, s: Sys, step: Step, s': Sys, o: Origin)
    requires NumbersOk(s.jobs, s.db.counters, s.db.msgs, s.lives)
    requires OfHandler(step) && s' == DoHandler(cfg, s, step) && Grounded(s, o)
    ensures RowsKept(s'.db.msgs, o)
  {
    forall m: Uuid ensures RowKept(s'.db.msgs, o, m) {
      HandlerRows(cfg, s, step, s', m);
      if m < o.jobs {
        assert m in s.db.msgs ==> RowOk(m, s.db.msgs[m], s.jobs, s.lives);
        RowStays(s, s', o, m);
      }
    }
  }

  lemma HandlerGround(cfg: Config, s: Sys, step: Step, s': Sys, o: Origin)
    requires PcsOk(cfg.shared, s.jobs) && NumbersOk(s.jobs, s.db.counters, s.db.msgs, s.lives)
    requires OfHandler(step) && s' == DoHandler(cfg, s, step) && Grounded(s, o)
    ensures Grounded(s', o)
  {
    HandlerLeaves(cfg, s, step, s');
    HandlerStream(cfg, s, step, s', o.conv);
    HaltedStay(cfg, s, step, s', o);
    HandlerRowsKept(cfg, s, step, s', o);
    forall x: nat ensures SenderHere(StreamOf(s'.streams, o.conv).log, s'.db.parts, o, x) {
      assert SenderHere(StreamOf(s.streams, o.conv).log, s.db.parts, o, x);
    }
  }

  /** What the other steps can do to the conversation. */
  lemma OtherStream(cfg: Config, s: Sys, step: Step, s': Sys, c: Uuid)
    requires !OfHandler(step) && !step.Publish? && !(step.Deliver? && step.c == c) && s' == DoOther(cfg, s, step)
    ensures StreamOf(s'.streams, c).(group := true) == StreamOf(s.streams, c).(group := true)
  {
  }

  /** A publication only adds to the log, and may trim. */
  ghost predicate Longer(st: S.Stream, st': S.Stream) {
    && st.log <= st'.log && st'.cursor == st.cursor && st'.acked == st.acked && st.dropped <= st'.dropped
    && forall x | x in st'.entries :: x in st.entries || x >= |st.log|
  }

  lemma XAddLonger(st: S.Stream, p: S.Payload, evict: nat)
    ensures Longer(st, S.XAdd(st, p, evict))
  {
    var added := S.Append(st, p);
    if |added.entries| >= S.MAX_LEN + evict {
      forall x | x in added.entries[evict..] ensures x in st.entries || x >= |st.log| {
        assert x in added.entries;
      }
    }
  }

  /** The participants, rows and counter of c stay. */
  ghost predicate KeepsTables(s: Sys, s': Sys, c: Uuid) {
    && Life(s'.lives, c) == Life(s.lives, c)
    && (forall p | p in s.db.parts && s.db.parts[p].conv == c :: p in s'.db.parts && s'.db.parts[p].conv == c)
    && (forall m :: RowOfConv(s'.db.msgs, m, c) <==> RowOfConv(s.db.msgs, m, c))
    && (forall m | RowOfConv(s.db.msgs, m, c) :: s'.db.msgs[m] == s.db.msgs[m])
    && Count(s'.db.counters, c) == Count(s.db.counters, c)
    && (c in s.db.counters ==> c in s'.db.counters)
  }

  lemma DeleteKeeps(s: Sys, d: Uuid, s': Sys, c: Uuid)
    requires s' == DoDeleteConv(s, d) && d != c
    ensures KeepsTables(s, s', c)
  {
  }

  lemma JoinKeeps(s: Sys, id: Uuid, user: string, d: Uuid, s': Sys, c: Uuid)
    requires s' == DoJoin(s, id, user, d)
    ensures KeepsTables(s, s', c)
  {
  }

  lemma SyncKeeps(s: Sys, id: Uuid, s': Sys, c: Uuid)
    requires s' == DoSync(s, id)
    ensures KeepsTables(s, s', c)
  {
  }

  lemma LeaveKeeps(s: Sys, id: Uuid, s': Sys, c: Uuid)
    requires s' == DoLeave(s, id)
    ensures KeepsTables(s, s', c)
  {
    hide T.LeftAtTaken;
  }

  lemma SameKeeps(s: Sys, s': Sys, c: Uuid)
    requires s'.db == s.db.(convs := s'.db.convs) && s'.lives == s.lives
    ensures KeepsTables(s, s', c)
  {
  }

  lemma CounterKeeps(s: Sys, d: Uuid, s': Sys, c: Uuid)
    requires s' == DoCreateCounter(s, d)
    ensures KeepsTables(s, s', c)
  {
  }

  lemma OtherTables(cfg: Config, s: Sys, step: Step, s': Sys, c: Uuid)
    requires !OfHandler(step) && s' == DoOther(cfg, s, step) && !(step.DeleteConv? && step.c == c)
    ensures KeepsTables(s, s', c)
  {
    hide KeepsTables;
    if step.DeleteConv? {
      DeleteKeeps(s, step.c, s', c);
    } else if step.Join? {
      JoinKeeps(s, step.id, step.user, step.c, s', c);
    } else if step.Sync? {
      SyncKeeps(s, step.id, s', c);
    } else if step.Leave? {
      LeaveKeeps(s, step.id, s', c);
    } else if step.CreateCounter? {
      CounterKeeps(s, step.c, s', c);
    } else {
      SameKeeps(s, s', c);
    }
  }

  /** The participants of the conversation of o stay, so do the senders of its payloads. */
  lemma SendersStay(s: Sys, s': Sys, o: Origin)
    requires StreamsOk(s.streams, s.minted) && LivesOk(s.db, s.minted, s.lives)
    requires SendersHere(StreamOf(s.streams, o.conv).log, s.db.parts, o) && KeepsTables(s, s', o.conv)
    ensures SendersHere(StreamOf(s.streams, o.conv).log, s'.db.parts, o)
  {
    var log := StreamOf(s.streams, o.conv).log;
    forall x: nat ensures SenderHere(log, s'.db.parts, o, x) {
      assert SenderHere(log, s.db.parts, o, x);
      assert x < |log| ==> PayloadOk(log[x], o.conv, s.minted);
    }
  }

  lemma TablesGround(s: Sys, s': Sys, o: Origin)
    requires Grounded(s, o) && KeepsTables(s, s', o.conv)
    requires SendersHere(StreamOf(s'.streams, o.conv).log, s'.db.parts, o)
    requires StreamOf(s.streams, o.conv).dropped <= StreamOf(s'.streams, o.conv).dropped
    requires OldHalted(s'.jobs, o)
    ensures Grounded(s', o)
  {
    forall m: Uuid ensures RowKept(s'.db.msgs, o, m) {
      assert RowKept(s.db.msgs, o, m);
      assert RowOfConv(s'.db.msgs, m, o.conv) <==> RowOfConv(s.db.msgs, m, o.conv);
    }
  }

  lemma PublishSenders(s: Sys, step: Step, s': Sys, o: Origin)
    requires step.Publish? && Present(s, step, o.conv)
    requires s' == DoPublish(s, step.sender, step.text, step.clientMsgId, step.evict)
    requires SendersHere(StreamOf(s.streams, o.conv).log, s.db.parts, o)
    ensures SendersHere(StreamOf(s'.streams, o.conv).log, s.db.parts, o)
    ensures Longer(StreamOf(s.streams, o.conv), StreamOf(s'.streams, o.conv))
  {
    var st, st' := StreamOf(s.streams, o.conv), StreamOf(s'.streams, o.conv);
    if s'.streams != s.streams && s.minted[step.sender].conv == o.conv {
      XAddLonger(st, S.Payload(step.clientMsgId, o.conv, step.sender, step.text, s.now), step.evict);
    }
    forall x: nat ensures SenderHere(st'.log, s.db.parts, o, x) {
      assert SenderHere(st.log, s.db.parts, o, x);
    }
  }

  lemma JobsAppended(s: Sys, s': Sys, o: Origin)
    requires OldHalted(s.jobs, o) && s.jobs <= s'.jobs
    ensures OldHalted(s'.jobs, o)
  {
    forall i: nat | i < |s'.jobs| ensures OldDone(s'.jobs[i], i, o) {
      assert i < |s.jobs| ==> OldDone(s.jobs[i], i, o);
    }
  }

  /** A delivery of c takes the next entry on, and starts a handler for it if it is received. */
  ghost predicate Reads(s: Sys, s': Sys, c: Uuid, received: bool) {
    && c in s.streams && S.XReadGroup(s.streams[c]).Some?
    && var (st', id) := S.XReadGroup(s.streams[c]).value;
    && s'.streams == s.streams[c := st']
    && s'.db == s.db && s'.lives == s.lives && s'.minted == s.minted
    && (if received then
          && id < |st'.log|
          && s'.jobs == s.jobs + [Job(c, id, st'.log[id], AtBegin, 0, None, None, false, {})]
        else s'.jobs == s.jobs)
  }

  lemma DeliverReads(cfg: Config, s: Sys, d: Uuid, received: bool, s': Sys)
    requires s' == DoDeliver(cfg, s, d, received) && s' != s
    requires d in s.streams && S.XReadGroup(s.streams[d]).Some? ==>
               S.XReadGroup(s.streams[d]).value.1 < |s.streams[d].log|
    ensures Reads(s, s', d, received) && (cfg.serial ==> !Busy(s.jobs, d))
  {
  }

  lemma ReadsLog(s: Sys, s': Sys, d: Uuid, received: bool, c: Uuid)
    requires Reads(s, s', d, received)
    ensures StreamOf(s'.streams, c).log == StreamOf(s.streams, c).log
    ensures StreamOf(s'.streams, c).dropped == StreamOf(s.streams, c).dropped
    ensures d != c ==> StreamOf(s'.streams, c) == StreamOf(s.streams, c)
    ensures s.jobs <= s'.jobs
  {
  }

  lemma OtherGround(cfg: Config, s: Sys, step: Step, s': Sys, o: Origin)
    requires Inv(cfg, s) && !OfHandler(step) && s' == DoOther(cfg, s, step) && Grounded(s, o)
    requires Calm(s, step, o.conv, o.tidy) && Present(s, step, o.conv)
    ensures Grounded(s', o)
  {
    hide JobsOk, PcsOk, SendersOk, NumbersOk, TxOk, ConnsOk, AcksOk, SerialOk, ServedInOrder;
    hide SendersHere, RowsKept, KeepsTables;
    OtherTables(cfg, s, step, s', o.conv);
    SendersStay(s, s', o);
    if step.Publish? {
      PublishSenders(s, step, s', o);
      TablesGround(s, s', o);
    } else if step.Deliver? {
      if s' != s {
        StreamSteps.OwnStream(s, step.c);
        S.XReadGroupOk(StreamOf(s.streams, step.c));
        DeliverReads(cfg, s, step.c, step.received, s');
        ReadsLog(s, s', step.c, step.received, o.conv);
        JobsAppended(s, s', o);
        TablesGround(s, s', o);
      }
    } else {
      OtherStream(cfg, s, step, s', o.conv);
      assert s'.jobs == s.jobs;
      TablesGround(s, s', o);
    }
  }

  // ------------------------------------------------------------------ steps that draw and deliver nothing

  /** j' is j further on: it has no new number, and if it has just ended its work is done. */
  ghost predicate Further(j: Job, j': Job, i: nat, st': S.Stream, o: Origin) {
    && j'.conv == j.conv
    && (i >= o.jobs && j.conv == o.conv ==>
          && j'.entry == j.entry && j'.num == j.num
          && (j.pc == Halted ==> j'.pc == Halted && j'.stored == j.stored)
          && (j.pc != Halted && j'.pc == Halted ==>
                j'.stored && j'.entry in st'.acked && (o.tidy ==> j'.entry !in st'.entries)))
  }

  /** The stream has moved on without a delivery. */
  ghost predicate Later(st: S.Stream, st': S.Stream) {
    && st.log <= st'.log && st'.cursor == st.cursor && st.acked <= st'.acked
    && forall x | x in st'.entries :: x in st.entries || x >= |st.log|
  }

  lemma FurtherFacts(j: Job, j': Job, i: nat, counters: map<Uuid, nat>, counters': map<Uuid, nat>,
                     st: S.Stream, st': S.Stream, o: Origin)
    requires Further(j, j', i, st', o) && Later(st, st')
    requires Count(counters', o.conv) == Count(counters, o.conv) && (o.conv in counters ==> o.conv in counters')
    ensures Steady(j, i, st, o) ==> Steady(j', i, st', o)
    ensures Undrawn(j, i, counters, st.cursor, o) ==> Undrawn(j', i, counters', st'.cursor, o)
    ensures Drawn(j', i, o) ==> Drawn(j, i, o)
  {
  }

  lemma MoveAligned(jobs: seq<Job>, jobs': seq<Job>, counters: map<Uuid, nat>, counters': map<Uuid, nat>,
                    st: S.Stream, st': S.Stream, o: Origin)
    requires Aligned(jobs, counters, st, o) && |jobs'| == |jobs| && Later(st, st')
    requires forall i: nat {:trigger Further(jobs[i], jobs'[i], i, st', o)} | i < |jobs| ::
               Further(jobs[i], jobs'[i], i, st', o)
    requires Count(counters', o.conv) == Count(counters, o.conv) && (o.conv in counters ==> o.conv in counters')
    ensures Aligned(jobs', counters', st', o)
  {
    forall i: nat | i < |jobs'|
      ensures Steady(jobs'[i], i, st', o) && Undrawn(jobs'[i], i, counters', st'.cursor, o)
      ensures Drawn(jobs'[i], i, o) ==> Drawn(jobs[i], i, o)
    {
      assert Steady(jobs[i], i, st, o) && Undrawn(jobs[i], i, counters, st.cursor, o);
      FurtherFacts(jobs[i], jobs'[i], i, counters, counters', st, st', o);
    }
    forall x: nat | o.from <= x < st'.cursor && x !in o.gone ensures HasJob(jobs', o, x) {
      assert HasJob(jobs, o, x);
      var i: nat :| IsJob(jobs, i, o, x);
      assert Further(jobs[i], jobs'[i], i, st', o);
      assert IsJob(jobs', i, o, x);
    }
    if AllDrawn(jobs', o) {
      forall i: nat | i < |jobs| ensures Drawn(jobs[i], i, o) {
        assert Drawn(jobs'[i], i, o);
      }
    }
  }

  /** The same when only one job has moved. */
  lemma OneMoveAligned(jobs: seq<Job>, i: nat, j': Job, counters: map<Uuid, nat>, counters': map<Uuid, nat>,
                       st: S.Stream, st': S.Stream, o: Origin)
    requires Aligned(jobs, counters, st, o) && i < |jobs| && Later(st, st') && Further(jobs[i], j', i, st', o)
    requires Count(counters', o.conv) == Count(counters, o.conv) && (o.conv in counters ==> o.conv in counters')
    ensures Aligned(jobs[i := j'], counters', st', o)
  {
    var jobs' := jobs[i := j'];
    forall x: nat | x < |jobs| ensures Further(jobs[x], jobs'[x], x, st', o) {
    }
    MoveAligned(jobs, jobs', counters, counters', st, st', o);
  }

  // ------------------------------------------------------------------ a number is drawn

  lemma IdsNext(gone: set<nat>, from: nat, x: nat)
    requires from <= x && x !in gone
    ensures Ids(gone, from, x + 1) == Ids(gone, from, x) + [x]
  {
  }

  lemma TakeAligned(jobs: seq<Job>, i: nat, j': Job, counters: map<Uuid, nat>, counters': map<Uuid, nat>,
                    st: S.Stream, o: Origin)
    requires Aligned(jobs, counters, st, o) && o.jobs <= i < |jobs| && jobs[i].conv == o.conv && jobs[i].num.None?
    requires jobs[i].entry !in o.gone
    requires forall x | 0 <= x < |jobs| && x != i && jobs[x].conv == o.conv :: jobs[x].entry != jobs[i].entry
    requires j'.conv == o.conv && j'.entry == jobs[i].entry && j'.pc != Halted && j'.num.Some?
    requires o.conv in counters' && counters'[o.conv] == Count(counters, o.conv) + 1 == j'.num.value.seqNo
    ensures Aligned(jobs[i := j'], counters', st, o)
  {
    var jobs' := jobs[i := j'];
    assert Undrawn(jobs[i], i, counters, st.cursor, o) && Steady(jobs[i], i, st, o);
    IdsNext(o.gone, o.from, jobs[i].entry);
    forall x: nat | x < |jobs'|
      ensures Steady(jobs'[x], x, st, o) && Undrawn(jobs'[x], x, counters', st.cursor, o)
    {
      assert Steady(jobs[x], x, st, o) && Undrawn(jobs[x], x, counters, st.cursor, o);
    }
    forall x: nat | o.from <= x < st.cursor && x !in o.gone ensures HasJob(jobs', o, x) {
      assert HasJob(jobs, o, x);
      var h: nat :| IsJob(jobs, h, o, x);
      assert IsJob(jobs', h, o, x);
    }
  }

  // ------------------------------------------------------------------ an entry is delivered

  lemma IdsSame(gone: set<nat>, from: nat, x: nat)
    requires from <= x && x in gone
    ensures Ids(gone, from, x + 1) == Ids(gone, from, x)
  {
  }

  lemma {:induction false} IdsSkip(gone: set<nat>, from: nat, a: nat, b: nat)
    requires from <= a <= b && forall x: nat | a <= x < b :: x in gone
    ensures Ids(gone, from, b) == Ids(gone, from, a)
    decreases b - a
  {
    if a < b {
      IdsSame(gone, from, a);
      IdsSkip(gone, from, a + 1, b);
    }
  }

  lemma NewAligned(jobs: seq<Job>, j: Job, counters: map<Uuid, nat>, st: S.Stream, st': S.Stream, o: Origin)
    requires Aligned(jobs, counters, st, o) && o.jobs <= |jobs| && AllDrawn(jobs, o) && o.conv in counters
    requires j.conv == o.conv && j.num.None? && j.pc != Halted
    requires st.cursor <= j.entry < |st.log| && j.entry !in o.gone
    requires forall x: nat | st.cursor <= x < j.entry :: x in o.gone
    requires st' == st.(cursor := j.entry + 1, pending := st'.pending)
    ensures Aligned(jobs + [j], counters, st', o)
  {
    var jobs' := jobs + [j];
    IdsSkip(o.gone, o.from, st.cursor, j.entry);
    forall i: nat | i < |jobs'|
      ensures Steady(jobs'[i], i, st', o) && Undrawn(jobs'[i], i, counters, st'.cursor, o)
    {
      if i < |jobs| {
        assert Steady(jobs[i], i, st, o) && Drawn(jobs[i], i, o);
      }
    }
    forall x: nat | o.from <= x < st'.cursor && x !in o.gone ensures HasJob(jobs', o, x) {
      if x < st.cursor {
        assert HasJob(jobs, o, x);
        var i: nat :| IsJob(jobs, i, o, x);
        assert IsJob(jobs', i, o, x);
      } else {
        assert IsJob(jobs', |jobs|, o, x);
      }
    }
    assert !Drawn(jobs'[|jobs|], |jobs|, o);
  }

  /** A new job of another conversation does not matter. */
  lemma ForeignAligned(jobs: seq<Job>, j: Job, counters: map<Uuid, nat>, st: S.Stream, o: Origin)
    requires Aligned(jobs, counters, st, o) && j.conv != o.conv
    ensures Aligned(jobs + [j], counters, st, o)
  {
    var jobs' := jobs + [j];
    forall i: nat | i < |jobs'| ensures Steady(jobs'[i], i, st, o) && Undrawn(jobs'[i], i, counters, st.cursor, o) {
      assert i < |jobs| ==> Steady(jobs[i], i, st, o) && Undrawn(jobs[i], i, counters, st.cursor, o);
    }
    forall x: nat | o.from <= x < st.cursor && x !in o.gone ensures HasJob(jobs', o, x) {
      assert HasJob(jobs, o, x);
      var i: nat :| IsJob(jobs, i, o, x);
      assert IsJob(jobs', i, o, x);
    }
    if AllDrawn(jobs', o) {
      forall i: nat | i < |jobs| ensures Drawn(jobs[i], i, o) {
        assert Drawn(jobs'[i], i, o);
      }
    }
  }

  // ------------------------------------------------------------------ handler steps

  /** Only job i has moved, and the counter of the conversation is as it was. */
  ghost predicate OneMove(s: Sys, s': Sys, i: nat, o: Origin) {
    && i < |s.jobs| == |s'.jobs| && s'.jobs == s.jobs[i := s'.jobs[i]]
    && Count(s'.db.counters, o.conv) == Count(s.db.counters, o.conv)
    && (o.conv in s.db.counters ==> o.conv in s'.db.counters)
    && Later(StreamOf(s.streams, o.conv), StreamOf(s'.streams, o.conv))
    && Further(s.jobs[i], s'.jobs[i], i, StreamOf(s'.streams, o.conv), o)
  }

  lemma OneMoveOk(s: Sys, s': Sys, i: nat, o: Origin)
    requires Aligned(s.jobs, s.db.counters, StreamOf(s.streams, o.conv), o) && OneMove(s, s', i, o)
    ensures Aligned(s'.jobs, s'.db.counters, StreamOf(s'.streams, o.conv), o)
  {
    OneMoveAligned(s.jobs, i, s'.jobs[i], s.db.counters, s'.db.counters,
      StreamOf(s.streams, o.conv), StreamOf(s'.streams, o.conv), o);
  }

  /** A handler of another conversation does not matter. */
  lemma ForeignMove(cfg: Config, s: Sys, step: Step, s': Sys, o: Origin)
    requires OfHandler(step) && s' == DoHandler(cfg, s, step) && Onward(s, s', step.i)
    requires s.jobs[step.i].conv != o.conv
    requires Aligned(s.jobs, s.db.counters, StreamOf(s.streams, o.conv), o)
    ensures Aligned(s'.jobs, s'.db.counters, StreamOf(s'.streams, o.conv), o)
  {
    HandlerStream(cfg, s, step, s', o.conv);
    CounterElsewhere(cfg, s, step, s', o.conv);
    OneMoveOk(s, s', step.i, o);
  }

  /** The job takes its number, which the counter now shows. */
  ghost predicate Takes(s: Sys, s': Sys, i: nat, o: Origin) {
    && i < |s.jobs| == |s'.jobs| && s'.jobs == s.jobs[i := s'.jobs[i]] && s'.streams == s.streams
    && s.jobs[i].conv == o.conv && s.jobs[i].num.None?
    && var j' := s'.jobs[i];
    && j'.conv == o.conv && j'.entry == s.jobs[i].entry && j'.pc != Halted && j'.num.Some?
    && o.conv in s'.db.counters
    && s'.db.counters[o.conv] == Count(s.db.counters, o.conv) + 1 == j'.num.value.seqNo
  }

  lemma TakesOk(s: Sys, s': Sys, i: nat, o: Origin)
    requires Aligned(s.jobs, s.db.counters, StreamOf(s.streams, o.conv), o) && Takes(s, s', i, o) && o.jobs <= i
    requires JobsOk(s.streams, s.jobs) && StreamsOk(s.streams, s.minted)
    requires StreamOf(s.streams, o.conv).dropped == o.gone
    ensures Aligned(s'.jobs, s'.db.counters, StreamOf(s'.streams, o.conv), o)
  {
    var j := s.jobs[i];
    assert JobOk(s.streams, j);
    assert S.WellFormed(s.streams[o.conv]);
    assert j.entry in s.streams[o.conv].pending + s.streams[o.conv].acked;
    forall x | 0 <= x < |s.jobs| && x != i && s.jobs[x].conv == o.conv ensures s.jobs[x].entry != j.entry {
      assert x < i ==> InOrder(s.jobs[x], j);
      assert i < x ==> InOrder(j, s.jobs[x]);
    }
    TakeAligned(s.jobs, i, s'.jobs[i], s.db.counters, s'.db.counters, StreamOf(s.streams, o.conv), o);
  }

  lemma DrawAlone(cfg: Config, s: Sys, i: nat, s': Sys, o: Origin)
    requires !cfg.shared && At(s, i, AtDraw) && s.jobs[i].conv == o.conv && s' == DoDraw(cfg, s, i, Fine)
    requires s.jobs[i].num.None? && o.conv in s.db.counters
    ensures Takes(s, s', i, o)
  {
  }

  lemma DrawInTx(cfg: Config, s: Sys, i: nat, s': Sys, o: Origin)
    requires cfg.shared && At(s, i, AtDraw) && s.jobs[i].conv == o.conv && s' == DoDraw(cfg, s, i, Fine)
    requires o.conv in s.db.counters && s' != s
    ensures OneMove(s, s', i, o)
  {
  }

  lemma DrawAligned(cfg: Config, s: Sys, i: nat, s': Sys, o: Origin)
    requires JobsOk(s.streams, s.jobs) && StreamsOk(s.streams, s.minted) && PcsOk(cfg.shared, s.jobs)
    requires OldHalted(s.jobs, o) && StreamOf(s.streams, o.conv).dropped == o.gone
    requires Aligned(s.jobs, s.db.counters, StreamOf(s.streams, o.conv), o)
    requires At(s, i, AtDraw) && s.jobs[i].conv == o.conv && s' == DoDraw(cfg, s, i, Fine) && s' != s
    ensures Aligned(s'.jobs, s'.db.counters, StreamOf(s'.streams, o.conv), o)
  {
    assert OldDone(s.jobs[i], i, o) && PcOk(cfg.shared, s.jobs[i]);
    assert Undrawn(s.jobs[i], i, s.db.counters, StreamOf(s.streams, o.conv).cursor, o);
    if cfg.shared {
      DrawInTx(cfg, s, i, s', o);
      OneMoveOk(s, s', i, o);
    } else {
      DrawAlone(cfg, s, i, s', o);
      TakesOk(s, s', i, o);
    }
  }

  /** With its sender present the INSERT goes through. */
  lemma InsertGoes(cfg: Config, s: Sys, i: nat, s': Sys, o: Origin)
    requires Inv(cfg, s) && At(s, i, AtInsert) && s.jobs[i].conv == o.conv && s' == DoInsert(cfg, s, i, Fine)
    requires s.jobs[i].payload.sender in s.db.parts
    ensures OneMove(s, s', i, o)
  {
    JobSteps.InsertSucceedsIff(cfg, s, i, if cfg.shared then s.jobs[i].began else s.now);
    InsertMoves(cfg, s, i, s', o);
  }

  lemma InsertMoves(cfg: Config, s: Sys, i: nat, s': Sys, o: Origin)
    requires At(s, i, AtInsert) && s.jobs[i].conv == o.conv && s' == DoInsert(cfg, s, i, Fine)
    requires
      var j := s.jobs[i];
      var d := if cfg.shared then j.tx else j.num;
      d.Some? && T.InsertMessage(s.db, i, RowOf(j, d.value.seqNo, if cfg.shared then j.began else s.now)).Ok?
    ensures OneMove(s, s', i, o)
  {
  }

  /** The sender of a job of the run is there. */
  lemma JobSenderHere(s: Sys, i: nat, o: Origin)
    requires JobsOk(s.streams, s.jobs) && StreamsOk(s.streams, s.minted)
    requires SendersHere(StreamOf(s.streams, o.conv).log, s.db.parts, o)
    requires Aligned(s.jobs, s.db.counters, StreamOf(s.streams, o.conv), o)
    requires StreamOf(s.streams, o.conv).dropped == o.gone
    requires o.jobs <= i < |s.jobs| && s.jobs[i].conv == o.conv
    ensures s.jobs[i].payload.sender in s.db.parts
  {
    var j := s.jobs[i];
    assert JobOk(s.streams, j) && Steady(j, i, StreamOf(s.streams, o.conv), o);
    assert S.WellFormed(s.streams[o.conv]);
    assert j.entry in s.streams[o.conv].pending + s.streams[o.conv].acked;
    assert SenderHere(StreamOf(s.streams, o.conv).log, s.db.parts, o, j.entry);
  }

  lemma InsertAligned(cfg: Config, s: Sys, i: nat, s': Sys, o: Origin)
    requires Inv(cfg, s) && Grounded(s, o) && StreamOf(s.streams, o.conv).dropped == o.gone
    requires Aligned(s.jobs, s.db.counters, StreamOf(s.streams, o.conv), o)
    requires At(s, i, AtInsert) && s.jobs[i].conv == o.conv && s' == DoInsert(cfg, s, i, Fine)
    ensures Aligned(s'.jobs, s'.db.counters, StreamOf(s'.streams, o.conv), o)
  {
    assert OldDone(s.jobs[i], i, o);
    JobSenderHere(s, i, o);
    InsertGoes(cfg, s, i, s', o);
    OneMoveOk(s, s', i, o);
  }

  lemma CommitAlone(cfg: Config, s: Sys, i: nat, s': Sys, o: Origin)
    requires !cfg.shared && At(s, i, AtCommit) && s.jobs[i].conv == o.conv && s' == DoCommit(cfg, s, i, Fine)
    ensures OneMove(s, s', i, o)
  {
  }

  lemma CommitInTx(cfg: Config, s: Sys, i: nat, s': Sys, o: Origin)
    requires cfg.shared && At(s, i, AtCommit) && s.jobs[i].conv == o.conv && s' == DoCommit(cfg, s, i, Fine)
    requires PcOk(cfg.shared, s.jobs[i])
    requires TxHeld(i, s.jobs[i], s.locks, s.db.counters, s.db.parts, s.lives)
    ensures Takes(s, s', i, o)
  {
  }

  lemma CommitAligned(cfg: Config, s: Sys, i: nat, s': Sys, o: Origin)
    requires JobsOk(s.streams, s.jobs) && StreamsOk(s.streams, s.minted) && PcsOk(cfg.shared, s.jobs)
    requires TxOk(s.jobs, s.locks, s.db.counters, s.db.parts, s.lives)
    requires OldHalted(s.jobs, o) && StreamOf(s.streams, o.conv).dropped == o.gone
    requires Aligned(s.jobs, s.db.counters, StreamOf(s.streams, o.conv), o)
    requires At(s, i, AtCommit) && s.jobs[i].conv == o.conv && s' == DoCommit(cfg, s, i, Fine)
    ensures Aligned(s'.jobs, s'.db.counters, StreamOf(s'.streams, o.conv), o)
  {
    if cfg.shared {
      assert OldDone(s.jobs[i], i, o) && PcOk(cfg.shared, s.jobs[i]);
      assert TxHeld(i, s.jobs[i], s.locks, s.db.counters, s.db.parts, s.lives);
      CommitInTx(cfg, s, i, s', o);
      TakesOk(s, s', i, o);
    } else {
      CommitAlone(cfg, s, i, s', o);
      OneMoveOk(s, s', i, o);
    }
  }

  lemma BeginMove(s: Sys, i: nat, s': Sys, o: Origin)
    requires At(s, i, AtBegin) && s' == DoBegin(s, i, true)
    ensures OneMove(s, s', i, o)
  {
  }

  lemma SendMove(s: Sys, i: nat, k: nat, s': Sys, o: Origin)
    requires i < |s.jobs| && s' == DoSendTo(s, i, k) && s' != s
    ensures OneMove(s, s', i, o)
  {
  }

  lemma EndMove(s: Sys, i: nat, s': Sys, o: Origin)
    requires i < |s.jobs| && (s' == DoEndBroadcast(s, i) || s' == DoSendAck(s, i)) && s' != s
    ensures OneMove(s, s', i, o)
  {
  }

  lemma AckMove(s: Sys, i: nat, s': Sys, o: Origin)
    requires At(s, i, AtXAck) && s' == DoXAck(s, i, Fine)
    ensures OneMove(s, s', i, o)
  {
  }

  lemma DelMove(s: Sys, i: nat, f: Fault, s': Sys, o: Origin)
    requires At(s, i, AtXDel) && s' == DoXDel(s, i, f) && s.jobs[i].conv == o.conv
    requires s.jobs[i].stored && s.jobs[i].entry in StreamOf(s.streams, o.conv).acked && (o.tidy ==> f != Refused)
    ensures OneMove(s, s', i, o)
  {
  }

  lemma DelAllowed(cfg: Config, s: Sys, i: nat)
    requires JobsOk(s.streams, s.jobs) && PcsOk(cfg.shared, s.jobs) && At(s, i, AtXDel)
    ensures s.jobs[i].stored && s.jobs[i].entry in StreamOf(s.streams, s.jobs[i].conv).acked
  {
    assert JobOk(s.streams, s.jobs[i]) && PcOk(cfg.shared, s.jobs[i]);
  }

  lemma TailMove(cfg: Config, s: Sys, step: Step, s': Sys, o: Origin)
    requires JobsOk(s.streams, s.jobs) && PcsOk(cfg.shared, s.jobs) && Calm(s, step, o.conv, o.tidy)
    requires OfHandler(step) && !step.DrawNumber? && !step.InsertRow? && !step.Commit?
    requires s' == DoHandler(cfg, s, step) && s' != s && Of(s, step.i, o.conv)
    ensures OneMove(s, s', step.i, o)
  {
    match step
    case Begin(i, ok) => BeginMove(s, i, s', o);
    case SendTo(i, k) => SendMove(s, i, k, s', o);
    case EndBroadcast(i) => EndMove(s, i, s', o);
    case SendAck(i) => EndMove(s, i, s', o);
    case XAck(i, f) => AckMove(s, i, s', o);
    case XDel(i, f) =>
      DelAllowed(cfg, s, i);
      DelMove(s, i, f, s', o);
  }

  lemma OwnAligned(cfg: Config, s: Sys, step: Step, s': Sys, o: Origin)
    requires Inv(cfg, s) && Grounded(s, o) && StreamOf(s.streams, o.conv).dropped == o.gone
    requires Aligned(s.jobs, s.db.counters, StreamOf(s.streams, o.conv), o) && Calm(s, step, o.conv, o.tidy)
    requires OfHandler(step) && s' == DoHandler(cfg, s, step) && s' != s && Of(s, step.i, o.conv)
    ensures Aligned(s'.jobs, s'.db.counters, StreamOf(s'.streams, o.conv), o)
  {
    hide Aligned, LivesOk, SendersOk, NumbersOk, ConnsOk, AcksOk, SerialOk, ServedInOrder;
    if step.DrawNumber? {
      DrawAligned(cfg, s, step.i, s', o);
    } else if step.InsertRow? {
      InsertAligned(cfg, s, step.i, s', o);
    } else if step.Commit? {
      CommitAligned(cfg, s, step.i, s', o);
    } else {
      TailMove(cfg, s, step, s', o);
      OneMoveOk(s, s', step.i, o);
    }
  }

  lemma HandlerAligned(cfg: Config, s: Sys, step: Step, s': Sys, o: Origin)
    requires Inv(cfg, s) && Grounded(s, o) && StreamOf(s.streams, o.conv).dropped == o.gone
    requires Aligned(s.jobs, s.db.counters, StreamOf(s.streams, o.conv), o) && Calm(s, step, o.conv, o.tidy)
    requires OfHandler(step) && s' == DoHandler(cfg, s, step)
    ensures Aligned(s'.jobs, s'.db.counters, StreamOf(s'.streams, o.conv), o)
  {
    hide Aligned, JobsOk, StreamsOk, LivesOk, SendersOk, NumbersOk, TxOk, ConnsOk, AcksOk, SerialOk, ServedInOrder;
    if s' != s {
      OwnOnward(cfg, s, step, s');
      if s.jobs[step.i].conv == o.conv {
        OwnAligned(cfg, s, step, s', o);
      } else {
        ForeignMove(cfg, s, step, s', o);
      }
    }
  }

  lemma OwnOnward(cfg: Config, s: Sys, step: Step, s': Sys)
    requires PcsOk(cfg.shared, s.jobs) && OfHandler(step) && s' == DoHandler(cfg, s, step) && s' != s
    ensures Onward(s, s', step.i)
  {
    assert step.i < |s.jobs| ==> PcOk(cfg.shared, s.jobs[step.i]);
    HandlerOnward(cfg, s, step, s');
  }

  // ------------------------------------------------------------------ other steps

  /** In a quiet moment every job of the conversation has a number. */
  lemma QuietDrawn(cfg: Config, s: Sys, o: Origin)
    requires PcsOk(cfg.shared, s.jobs) && !Busy(s.jobs, o.conv)
    requires Aligned(s.jobs, s.db.counters, StreamOf(s.streams, o.conv), o)
    ensures AllDrawn(s.jobs, o)
  {
    forall i: nat | i < |s.jobs| ensures Drawn(s.jobs[i], i, o) {
      assert Steady(s.jobs[i], i, StreamOf(s.streams, o.conv), o) && PcOk(cfg.shared, s.jobs[i]);
    }
  }

  /** Without losses a read skips only entries that were lost before. */
  lemma ReadSkips(st: S.Stream, gone: set<nat>)
    requires S.WellFormed(st) && S.XReadGroup(st).Some? && st.dropped == gone
    ensures
      var (st', id) := S.XReadGroup(st).value;
      && st.cursor <= id < |st.log| && id !in gone
      && (forall x: nat | st.cursor <= x < id :: x in gone)
      && st' == st.(cursor := id + 1, pending := st'.pending)
  {
    S.XReadGroupOk(st);
    S.FirstNewIsLeast(st.entries, st.cursor);
  }

  lemma DeliverHere(cfg: Config, s: Sys, s': Sys, o: Origin)
    requires cfg.serial && PcsOk(cfg.shared, s.jobs) && Reads(s, s', o.conv, true) && !Busy(s.jobs, o.conv)
    requires S.WellFormed(StreamOf(s.streams, o.conv)) && StreamOf(s.streams, o.conv).dropped == o.gone
    requires Aligned(s.jobs, s.db.counters, StreamOf(s.streams, o.conv), o) && o.jobs <= |s.jobs|
    requires o.conv in s.db.counters
    ensures Aligned(s'.jobs, s'.db.counters, StreamOf(s'.streams, o.conv), o)
  {
    QuietDrawn(cfg, s, o);
    ReadSkips(s.streams[o.conv], o.gone);
    NewAligned(s.jobs, s'.jobs[|s.jobs|], s.db.counters, s.streams[o.conv], s'.streams[o.conv], o);
  }

  lemma DeliverAligned(cfg: Config, s: Sys, d: Uuid, received: bool, s': Sys, o: Origin)
    requires Inv(cfg, s) && cfg.serial && s' == DoDeliver(cfg, s, d, received)
    requires d == o.conv ==> received && o.conv in s.db.counters
    requires StreamOf(s.streams, o.conv).dropped == o.gone && o.jobs <= |s.jobs|
    requires Aligned(s.jobs, s.db.counters, StreamOf(s.streams, o.conv), o)
    ensures Aligned(s'.jobs, s'.db.counters, StreamOf(s'.streams, o.conv), o)
  {
    if s' != s {
      StreamSteps.OwnStream(s, d);
      S.XReadGroupOk(StreamOf(s.streams, d));
      DeliverReads(cfg, s, d, received, s');
      if d == o.conv {
        DeliverHere(cfg, s, s', o);
      } else {
        ReadsLog(s, s', d, received, o.conv);
        if received {
          ForeignAligned(s.jobs, s'.jobs[|s.jobs|], s.db.counters, StreamOf(s.streams, o.conv), o);
        }
      }
    }
  }

  lemma OtherLater(cfg: Config, s: Sys, step: Step, s': Sys, c: Uuid)
    requires !OfHandler(step) && !step.Deliver? && s' == DoOther(cfg, s, step)
    ensures Later(StreamOf(s.streams, c), StreamOf(s'.streams, c)) && s'.jobs == s.jobs
  {
    if step.Publish? {
      if s'.streams != s.streams && s.minted[step.sender].conv == c {
        XAddLonger(StreamOf(s.streams, c), S.Payload(step.clientMsgId, c, step.sender, step.text, s.now), step.evict);
      }
    } else {
      OtherStream(cfg, s, step, s', c);
    }
  }

  lemma OtherAligned(cfg: Config, s: Sys, step: Step, s': Sys, o: Origin)
    requires !OfHandler(step) && !step.Deliver? && s' == DoOther(cfg, s, step) && Calm(s, step, o.conv, o.tidy)
    requires Aligned(s.jobs, s.db.counters, StreamOf(s.streams, o.conv), o)
    ensures Aligned(s'.jobs, s'.db.counters, StreamOf(s'.streams, o.conv), o)
  {
    OtherLater(cfg, s, step, s', o.conv);
    OtherTables(cfg, s, step, s', o.conv);
    forall i: nat | i < |s.jobs| ensures Further(s.jobs[i], s'.jobs[i], i, StreamOf(s'.streams, o.conv), o) {
    }
    MoveAligned(s.jobs, s'.jobs, s.db.counters, s'.db.counters,
      StreamOf(s.streams, o.conv), StreamOf(s'.streams, o.conv), o);
  }

  // ------------------------------------------------------------------ runs

  lemma DropsGrow(cfg: Config, s: Sys, step: Step, s': Sys, c: Uuid)
    requires Inv(cfg, s) && s' == Do(cfg, s, step)
    ensures StreamOf(s.streams, c).dropped <= StreamOf(s'.streams, c).dropped
  {
    if OfHandler(step) {
      HandlerStream(cfg, s, step, s', c);
    } else if step.Deliver? {
      if s' != s {
        StreamSteps.OwnStream(s, step.c);
        S.XReadGroupOk(StreamOf(s.streams, step.c));
        DeliverReads(cfg, s, step.c, step.received, s');
        ReadsLog(s, s', step.c, step.received, c);
      }
    } else if step.Publish? {
      PublishDrops(s, step, s', c);
    } else {
      OtherStream(cfg, s, step, s', c);
    }
  }

  lemma PublishDrops(s: Sys, step: Step, s': Sys, c: Uuid)
    requires step.Publish? && s' == DoPublish(s, step.sender, step.text, step.clientMsgId, step.evict)
    ensures StreamOf(s.streams, c).dropped <= StreamOf(s'.streams, c).dropped
  {
  }

  lemma StepAligned(cfg: Config, s: Sys, step: Step, s': Sys, o: Origin)
    requires Inv(cfg, s) && cfg.serial && s' == Do(cfg, s, step) && Grounded(s, o)
    requires Calm(s, step, o.conv, o.tidy) && StreamOf(s.streams, o.conv).dropped == o.gone
    requires Aligned(s.jobs, s.db.counters, StreamOf(s.streams, o.conv), o)
    ensures Aligned(s'.jobs, s'.db.counters, StreamOf(s'.streams, o.conv), o)
  {
    if OfHandler(step) {
      HandlerAligned(cfg, s, step, s', o);
    } else if step.Deliver? {
      DeliverAligned(cfg, s, step.c, step.received, s', o);
    } else {
      OtherAligned(cfg, s, step, s', o);
    }
  }

  lemma StepCalm(cfg: Config, s: Sys, step: Step, s': Sys, o: Origin)
    requires Inv(cfg, s) && cfg.serial && s' == Do(cfg, s, step) && CalmInv(s, o)
    requires Calm(s, step, o.conv, o.tidy) && Present(s, step, o.conv)
    ensures CalmInv(s', o)
  {
    if OfHandler(step) { HandlerGround(cfg, s, step, s', o); } else { OtherGround(cfg, s, step, s', o); }
    DropsGrow(cfg, s, step, s', o.conv);
    if StreamOf(s'.streams, o.conv).dropped == o.gone { StepAligned(cfg, s, step, s', o); }
  }

  lemma {:induction false} RunCalm(cfg: Config, s: Sys, steps: seq<Step>, o: Origin)
    requires Inv(cfg, s) && cfg.serial && CalmInv(s, o)
    requires CalmRun(cfg, s, steps, o.conv, o.tidy) && PresentRun(cfg, s, steps, o.conv)
    ensures Inv(cfg, Run(cfg, s, steps)) && CalmInv(Run(cfg, s, steps), o)
    decreases |steps|
  {
    hide Inv, CalmInv;
    if steps != [] {
      var s1 := Do(cfg, s, steps[0]);
      StepCalm(cfg, s, steps[0], s1, o);
      StepOk(cfg, s, steps[0]);
      RunCalm(cfg, s1, steps[1..], o);
    }
  }

  /** The senders of everything unread are there. */
  ghost predicate ReadySenders(s: Sys, c: Uuid) {
    var st := StreamOf(s.streams, c);
    forall x: nat | st.cursor <= x < |st.log| && x !in st.dropped :: st.log[x].sender in s.db.parts
  }

  /** A calm run can begin at every quiet moment. */
  lemma QuietOrigin(cfg: Config, s: Sys, c: Uuid, tidy: bool)
    requires Inv(cfg, s) && !Busy(s.jobs, c) && ReadySenders(s, c)
    ensures CalmInv(s, OriginOf(s, c, tidy))
  {
    var o := OriginOf(s, c, tidy);
    assert Ids(o.gone, o.from, o.from) == [];
    forall i: nat | i < |s.jobs| ensures OldDone(s.jobs[i], i, o) {
    }
    forall m: Uuid | RowOfConv(o.rows, m, c) ensures m < o.jobs {
      assert RowOk(m, s.db.msgs[m], s.jobs, s.lives);
    }
  }
}
