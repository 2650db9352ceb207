/**
 Draining terminates, whatever is interleaved: every step that a conversation's handlers and deliveries
 take burns fuel, nothing but a publication or a new connection adds any, and while work is left one
 of them is possible.
 */
module Progress {
  import opened Common
  import opened Machine
  import opened Invariants
  import opened Draining
  import opened Moves
  import opened CalmRuns
  import opened CalmLogs
  import opened StageTheorems
  import opened TableSteps
  import opened PipelineTheorems
  import StreamSteps
  import JobSteps
  import S = Streams

  /** The stations before the handlers of c, and the connections they have not reached yet. */
  function Ahead(jobs: seq<Job>, conns: set<nat>, c: Uuid): nat {
    if jobs == [] then 0
    else
      var j := jobs[|jobs| - 1];
      Ahead(jobs[..|jobs| - 1], conns, c) + if j.conv == c then Left(j, conns) else 0
  }

  function Left(j: Job, conns: set<nat>): nat { Rank(j.pc) + |conns - j.served| }

  /** Entries of c that are still to be delivered. */
  function UnreadOf(s: Sys, c: Uuid): nat {
    var st := StreamOf(s.streams, c);
    |Unread(st.entries, st.cursor)|
  }

  /** An entry needs one delivery, eight stations and one frame for every connection. */
  function Cost(s: Sys): nat { 9 + |s.conns.Keys| }

  /** The most steps that c's handlers and deliveries can still take. */
  function Fuel(s: Sys, c: Uuid): nat {
    UnreadOf(s, c) * Cost(s) + Ahead(s.jobs, s.conns.Keys, c)
  }

  lemma {:induction false} AheadUpdate(jobs: seq<Job>, conns: set<nat>, i: nat, j: Job, c: Uuid)
    requires i < |jobs| && j.conv == jobs[i].conv
    ensures Ahead(jobs[i := j], conns, c)
            == Ahead(jobs, conns, c) + if j.conv == c then Left(j, conns) - Left(jobs[i], conns) else 0
  {
    var n := |jobs| - 1;
    if i == n {
      assert jobs[i := j][..n] == jobs[..n];
    } else {
      assert jobs[i := j][..n] == jobs[..n][i := j];
      AheadUpdate(jobs[..n], conns, i, j, c);
    }
  }

  lemma AheadAppend(jobs: seq<Job>, conns: set<nat>, j: Job, c: Uuid)
    ensures Ahead(jobs + [j], conns, c) == Ahead(jobs, conns, c) + if j.conv == c then Left(j, conns) else 0
  {
    assert (jobs + [j])[..|jobs|] == jobs;
  }

  /** Taking out a delivered entry does not change what is unread. */
  lemma {:induction false} UnreadWithout(entries: seq<nat>, cursor: nat, id: nat)
    requires id < cursor
    ensures Unread(S.Without(entries, id), cursor) == Unread(entries, cursor)
  {
    if entries != [] {
      var rest := S.Without(entries[1..], id);
      UnreadWithout(entries[1..], cursor, id);
      assert ([entries[0]] + rest)[1..] == rest;
    }
  }

  // ------------------------------------------------------------------ handler steps burn fuel

  lemma NearerLess(j: Job, j': Job, conns: set<nat>)
    requires Passes(j, j') || Serves(j, j', conns)
    ensures Left(j', conns) < Left(j, conns)
  {
    if Serves(j, j', conns) {
      var k :| k in conns && k !in j.served && j'.served == j.served + {k};
      assert conns - j'.served == (conns - j.served) - {k};
    }
  }

  lemma XDelUnread(cfg: Config, s: Sys, i: nat, f: Fault, s': Sys, c: Uuid)
    requires Inv(cfg, s) && s' == DoXDel(s, i, f)
    ensures UnreadOf(s', c) == UnreadOf(s, c)
  {
    if At(s, i, AtXDel) && s.jobs[i].conv == c {
      JobSteps.JobFacts(cfg, s, i);
      UnreadWithout(StreamOf(s.streams, c).entries, StreamOf(s.streams, c).cursor, s.jobs[i].entry);
    }
  }

  lemma HandlerUnread(cfg: Config, s: Sys, step: Step, s': Sys, c: Uuid)
    requires Inv(cfg, s) && OfHandler(step) && s' == DoHandler(cfg, s, step)
    ensures UnreadOf(s', c) == UnreadOf(s, c)
  {
    hide Inv, Unread, DoXAck, DoXDel;
    if step.XDel? {
      XDelUnread(cfg, s, step.i, step.f, s', c);
    } else if step.XAck? {
      AckUnread(s, step.i, step.f, s', c);
    } else {
      assert s'.streams == s.streams;
    }
  }

  lemma AckUnread(s: Sys, i: nat, f: Fault, s': Sys, c: Uuid)
    requires s' == DoXAck(s, i, f)
    ensures UnreadOf(s', c) == UnreadOf(s, c)
  {
  }

  /** Every handler step of c that does anything, with or without a fault, burns fuel; no other adds any. */
  lemma HandlerBurns(cfg: Config, s: Sys, step: Step, s': Sys, c: Uuid)
    requires Inv(cfg, s) && OfHandler(step) && s' == DoHandler(cfg, s, step)
    ensures Fuel(s', c) <= Fuel(s, c) && (Of(s, step.i, c) && s' != s ==> Fuel(s', c) < Fuel(s, c))
  {
    hide Fuel;
    if s' != s {
      OwnOnward(cfg, s, step, s');
      HandlerUnread(cfg, s, step, s', c);
      OnwardBurns(s, s', step.i, c);
    }
  }

  lemma OnwardBurns(s: Sys, s': Sys, i: nat, c: Uuid)
    requires Onward(s, s', i) && UnreadOf(s', c) == UnreadOf(s, c)
    ensures Fuel(s', c) <= Fuel(s, c) && (s.jobs[i].conv == c ==> Fuel(s', c) < Fuel(s, c))
  {
    AheadUpdate(s.jobs, s.conns.Keys, i, s'.jobs[i], c);
    NearerLess(s.jobs[i], s'.jobs[i], s.conns.Keys);
  }

  // ------------------------------------------------------------------ nothing else adds any

  /** The step belongs to the consumption of c: a delivery of c, or a step of one of its handlers. */
  predicate OwnStep(s: Sys, step: Step, c: Uuid) {
    if OfHandler(step) then Of(s, step.i, c) else step.Deliver? && step.c == c
  }

  /** No new connection, and nothing published in c. */
  predicate Closed(s: Sys, step: Step, c: Uuid) { !step.Open? && !PublishesIn(s, step, c) }

  /** So does every delivery of c, received or not. */
  lemma DeliverBurns(cfg: Config, s: Sys, d: Uuid, received: bool, s': Sys, c: Uuid)
    requires StreamsOk(s.streams, s.minted) && s' == DoDeliver(cfg, s, d, received)
    ensures Fuel(s', c) <= Fuel(s, c) && (d == c && s' != s ==> Fuel(s', c) < Fuel(s, c))
  {
    hide Fuel;
    if s' != s {
      StreamSteps.OwnStream(s, d);
      S.XReadGroupOk(StreamOf(s.streams, d));
      DeliverReads(cfg, s, d, received, s');
      if d == c { ReadBurns(s, s', c, received); } else { ForeignRead(s, s', d, received, c); }
    }
  }

  lemma ForeignRead(s: Sys, s': Sys, d: Uuid, received: bool, c: Uuid)
    requires Reads(s, s', d, received) && s'.conns == s.conns && d != c
    ensures Fuel(s', c) == Fuel(s, c)
  {
    if received { AheadAppend(s.jobs, s.conns.Keys, s'.jobs[|s.jobs|], c); }
    assert UnreadOf(s', c) == UnreadOf(s, c);
  }

  lemma ReadBurns(s: Sys, s': Sys, c: Uuid, received: bool)
    requires S.WellFormed(StreamOf(s.streams, c)) && Reads(s, s', c, received) && s'.conns == s.conns
    ensures Fuel(s', c) < Fuel(s, c)
  {
    OneRead(s, s', c, received);
    OneLess(UnreadOf(s, c), Cost(s));
    if received {
      AheadAppend(s.jobs, s.conns.Keys, s'.jobs[|s.jobs|], c);
      assert s.conns.Keys - {} == s.conns.Keys;
    }
  }

  lemma OneRead(s: Sys, s': Sys, c: Uuid, received: bool)
    requires S.WellFormed(StreamOf(s.streams, c)) && Reads(s, s', c, received)
    ensures UnreadOf(s, c) == UnreadOf(s', c) + 1
  {
    var st := s.streams[c];
    UnreadRest(st.entries, st.cursor, S.XReadGroup(st).value.1);
  }

  lemma OneLess(u: nat, k: nat)
    requires u > 0
    ensures u * k == (u - 1) * k + k
  {
  }

  lemma OtherSame(cfg: Config, s: Sys, step: Step, s': Sys, c: Uuid)
    requires !OfHandler(step) && !step.Deliver? && Closed(s, step, c) && s' == DoOther(cfg, s, step)
    ensures Fuel(s', c) == Fuel(s, c)
  {
    OtherStreamSame(cfg, s, step, s', c);
    OtherJobsSame(cfg, s, step, s');
  }

  lemma OtherStreamSame(cfg: Config, s: Sys, step: Step, s': Sys, c: Uuid)
    requires !OfHandler(step) && !step.Deliver? && !PublishesIn(s, step, c) && s' == DoOther(cfg, s, step)
    ensures UnreadOf(s', c) == UnreadOf(s, c)
  {
    if !step.Publish? { OtherStream(cfg, s, step, s', c); }
  }

  lemma OtherJobsSame(cfg: Config, s: Sys, step: Step, s': Sys)
    requires !OfHandler(step) && !step.Deliver? && !step.Open? && s' == DoOther(cfg, s, step)
    ensures s'.jobs == s.jobs && s'.conns.Keys == s.conns.Keys
  {
  }

  /** What a step burns: 1 if it belongs to c and does anything. */
  function Burnt(s: Sys, step: Step, s': Sys, c: Uuid): nat {
    if OwnStep(s, step, c) && s' != s then 1 else 0
  }

  lemma StepBurns(cfg: Config, s: Sys, step: Step, s': Sys, c: Uuid)
    requires Inv(cfg, s) && Closed(s, step, c) && s' == Do(cfg, s, step)
    ensures Burnt(s, step, s', c) + Fuel(s', c) <= Fuel(s, c)
  {
    hide Fuel;
    if OfHandler(step) {
      HandlerBurns(cfg, s, step, s', c);
    } else if step.Deliver? {
      DeliverBurns(cfg, s, step.c, step.received, s', c);
    } else {
      OtherSame(cfg, s, step, s', c);
    }
  }

  predicate ClosedRun(cfg: Config, s: Sys, steps: seq<Step>, c: Uuid)
    decreases |steps|
  {
    steps == [] || (Closed(s, steps[0], c) && ClosedRun(cfg, Do(cfg, s, steps[0]), steps[1..], c))
  }

  /** How many steps of the run belong to c and do anything. */
  function Effective(cfg: Config, s: Sys, steps: seq<Step>, c: Uuid): nat
    decreases |steps|
  {
    if steps == [] then 0
    else
      var s' := Do(cfg, s, steps[0]);
      Burnt(s, steps[0], s', c) + Effective(cfg, s', steps[1..], c)
  }

  /**
   From any state on, in every run without new connections and publications in c, however it is interleaved
   and whatever fails: the steps of c that do anything are at most as many as the fuel used up.
   */
  lemma {:induction false} FuelBounds(cfg: Config, s: Sys, steps: seq<Step>, c: Uuid)
    requires Inv(cfg, s) && ClosedRun(cfg, s, steps, c)
    ensures Effective(cfg, s, steps, c) + Fuel(Run(cfg, s, steps), c) <= Fuel(s, c)
    decreases |steps|
  {
    if steps != [] {
      var s1 := Do(cfg, s, steps[0]);
      StepBurns(cfg, s, steps[0], s1, c);
      StepOk(cfg, s, steps[0]);
      FuelBounds(cfg, s1, steps[1..], c);
    }
  }

  // ------------------------------------------------------------------ something is always possible

  /** A step of c that nothing goes wrong in and that does something. */
  ghost predicate Useful(cfg: Config, s: Sys, step: Step, c: Uuid) {
    Calm(s, step, c, true) && OwnStep(s, step, c) && Do(cfg, s, step) != s
  }

  /** c has a stream with its group, and a counter. */
  predicate Running(s: Sys, c: Uuid) {
    c in s.streams && s.streams[c].group && c in s.db.counters
  }

  /** No handler of c runs and nothing of it is unread. */
  predicate Idle(s: Sys, c: Uuid) { !Busy(s.jobs, c) && UnreadOf(s, c) == 0 }

  /** The next station of a handler. */
  function NextStep(i: nat, pc: Pc): Step {
    match pc
    case AtBegin => Begin(i, true)
    case AtDraw => DrawNumber(i, Fine)
    case AtInsert => InsertRow(i, Fine)
    case AtCommit => Commit(i, Fine)
    case AtBroadcast => EndBroadcast(i)
    case AtSendAck => SendAck(i)
    case AtXAck => XAck(i, Fine)
    case AtXDel => XDel(i, Fine)
    case Halted => Crash(i)
  }

  /** With one handler at a time, a handler that wants a number never finds the counter locked. */
  lemma DrawUnlocked(cfg: Config, s: Sys, i: nat)
    requires Inv(cfg, s) && cfg.serial && At(s, i, AtDraw)
    ensures s.jobs[i].conv !in s.locks
  {
    var c := s.jobs[i].conv;
    assert PcOk(cfg.shared, s.jobs[i]);
    assert c in s.locks ==> LockOwned(c, s.locks[c], s.jobs) && PcOk(cfg.shared, s.jobs[s.locks[c]]);
    assert c in s.locks && s.locks[c] < i ==> Earlier(s.jobs[s.locks[c]], s.jobs[i]);
    assert forall h | i < h < |s.jobs| :: Earlier(s.jobs[i], s.jobs[h]);
  }

  ghost predicate GetsOn(s: Sys, i: nat, s': Sys) {
    i < |s.jobs| && i < |s'.jobs| && s'.jobs[i].pc != s.jobs[i].pc
  }

  lemma DrawMoves(cfg: Config, s: Sys, i: nat, s': Sys)
    requires At(s, i, AtDraw) && s.jobs[i].conv !in s.locks && s' == DoDraw(cfg, s, i, Fine)
    ensures GetsOn(s, i, s')
  {
  }

  lemma InsertMovesOn(cfg: Config, s: Sys, i: nat, s': Sys)
    requires At(s, i, AtInsert) && s' == DoInsert(cfg, s, i, Fine)
    ensures GetsOn(s, i, s')
  {
  }

  lemma CommitMovesOn(cfg: Config, s: Sys, i: nat, s': Sys)
    requires At(s, i, AtCommit) && s' == DoCommit(cfg, s, i, Fine)
    ensures GetsOn(s, i, s')
  {
  }

  lemma EndMovesOn(s: Sys, i: nat, s': Sys)
    requires (At(s, i, AtBegin) && s' == DoBegin(s, i, true)) || (At(s, i, AtBroadcast) && s' == DoEndBroadcast(s, i))
             || (At(s, i, AtSendAck) && s.jobs[i].num.Some? && s' == DoSendAck(s, i))
    ensures GetsOn(s, i, s')
  {
  }

  lemma AckMovesOn(s: Sys, i: nat, s': Sys)
    requires (At(s, i, AtXAck) && s' == DoXAck(s, i, Fine)) || (At(s, i, AtXDel) && s' == DoXDel(s, i, Fine))
    ensures GetsOn(s, i, s')
  {
  }

  lemma NextMoves(cfg: Config, s: Sys, i: nat, pc: Pc, s': Sys)
    requires At(s, i, pc) && pc != Halted && s' == DoHandler(cfg, s, NextStep(i, pc)) && PcOk(cfg.shared, s.jobs[i])
    requires pc == AtDraw ==> s.jobs[i].conv !in s.locks
    ensures GetsOn(s, i, s')
  {
    match pc
    case AtBegin => EndMovesOn(s, i, s');
    case AtDraw => DrawMoves(cfg, s, i, s');
    case AtInsert => InsertMovesOn(cfg, s, i, s');
    case AtCommit => CommitMovesOn(cfg, s, i, s');
    case AtBroadcast => EndMovesOn(s, i, s');
    case AtSendAck => EndMovesOn(s, i, s');
    case AtXAck => AckMovesOn(s, i, s');
    case AtXDel => AckMovesOn(s, i, s');
  }

  lemma NextUseful(cfg: Config, s: Sys, i: nat, c: Uuid)
    requires Inv(cfg, s) && cfg.serial && i < |s.jobs| && s.jobs[i].pc != Halted && s.jobs[i].conv == c
    ensures Useful(cfg, s, NextStep(i, s.jobs[i].pc), c)
  {
    var pc := s.jobs[i].pc;
    assert PcOk(cfg.shared, s.jobs[i]);
    if pc == AtDraw { DrawUnlocked(cfg, s, i); }
    NextMoves(cfg, s, i, pc, DoHandler(cfg, s, NextStep(i, pc)));
  }

  lemma DeliverUseful(cfg: Config, s: Sys, c: Uuid)
    requires Inv(cfg, s) && Running(s, c) && !Busy(s.jobs, c) && UnreadOf(s, c) > 0
    ensures Useful(cfg, s, Deliver(c, true), c)
  {
    hide JobsOk, PcsOk, LivesOk, SendersOk, NumbersOk, TxOk, ConnsOk, AcksOk, SerialOk, ServedInOrder, DoDeliver;
    StreamSteps.OwnStream(s, c);
    SomethingToRead(cfg, s, c, DoDeliver(cfg, s, c, true));
  }

  lemma NothingToRead(cfg: Config, s: Sys, c: Uuid, received: bool)
    requires UnreadOf(s, c) == 0
    ensures DoDeliver(cfg, s, c, received) == s
  {
    if c in s.streams { UnreadFirst(s.streams[c].entries, s.streams[c].cursor); }
  }

  lemma SomethingToRead(cfg: Config, s: Sys, c: Uuid, s': Sys)
    requires Running(s, c) && !Busy(s.jobs, c) && UnreadOf(s, c) > 0 && S.WellFormed(s.streams[c])
    requires s' == DoDeliver(cfg, s, c, true)
    ensures s' != s
  {
    UnreadFirst(s.streams[c].entries, s.streams[c].cursor);
    S.XReadGroupOk(s.streams[c]);
    assert |s'.jobs| == |s.jobs| + 1;
  }

  lemma HaltedStuck(cfg: Config, s: Sys, step: Step)
    requires PcsOk(cfg.shared, s.jobs) && OfHandler(step) && At(s, step.i, Halted)
    ensures DoHandler(cfg, s, step) == s
  {
    var s' := DoHandler(cfg, s, step);
    if s' != s {
      OwnOnward(cfg, s, step, s');
      assert false;
    }
  }

  lemma IdleStuck(cfg: Config, s: Sys, step: Step, c: Uuid)
    requires Inv(cfg, s) && Idle(s, c) && OwnStep(s, step, c)
    ensures Do(cfg, s, step) == s
  {
    hide StreamsOk, JobsOk, PcsOk, LivesOk, SendersOk, NumbersOk, TxOk, ConnsOk, AcksOk, SerialOk, ServedInOrder;
    hide DoDeliver;
    if OfHandler(step) { HaltedStuck(cfg, s, step); } else { NothingToRead(cfg, s, c, step.received); }
  }

  /**
   With one handler at a time, some step of c can be taken without a fault and does something if and only if
   a handler of c runs or an entry of c is unread.
   */
  lemma UsefulIff(cfg: Config, s: Sys, c: Uuid)
    requires Inv(cfg, s) && cfg.serial && Running(s, c)
    ensures (exists step :: Useful(cfg, s, step, c)) <==> !Idle(s, c)
  {
    if Busy(s.jobs, c) {
      var i :| 0 <= i < |s.jobs| && s.jobs[i].conv == c && s.jobs[i].pc != Halted;
      NextUseful(cfg, s, i, c);
    } else if UnreadOf(s, c) > 0 {
      DeliverUseful(cfg, s, c);
    } else {
      forall step | OwnStep(s, step, c) ensures !Useful(cfg, s, step, c) {
        IdleStuck(cfg, s, step, c);
      }
    }
  }

  // ------------------------------------------------------------------ draining

  /** Useful steps publish nothing, drop nothing and take nothing away. */
  lemma UsefulKeeps(cfg: Config, s: Sys, step: Step, s': Sys, c: Uuid)
    requires Inv(cfg, s) && Running(s, c) && Useful(cfg, s, step, c) && s' == Do(cfg, s, step)
    ensures Running(s', c)
    ensures s'.streams[c].log == s.streams[c].log && s'.streams[c].dropped == s.streams[c].dropped
  {
    hide JobsOk, PcsOk, LivesOk, SendersOk, NumbersOk, TxOk, ConnsOk, AcksOk, SerialOk, ServedInOrder;
    if OfHandler(step) {
      HandlerKeeps(cfg, s, step, s', c);
    } else {
      StreamSteps.OwnStream(s, c);
      S.XReadGroupOk(StreamOf(s.streams, c));
      DeliverReads(cfg, s, c, step.received, s');
    }
  }

  lemma HandlerKeeps(cfg: Config, s: Sys, step: Step, s': Sys, c: Uuid)
    requires Running(s, c) && OfHandler(step) && s' == DoHandler(cfg, s, step)
    ensures Running(s', c)
    ensures s'.streams[c].log == s.streams[c].log && s'.streams[c].dropped == s.streams[c].dropped
  {
    HandlerStream(cfg, s, step, s', c);
    if step.XAck? || step.XDel? {
      assert s'.db == s.db;
    } else {
      assert s'.streams == s.streams;
      HandlerLeaves(cfg, s, step, s');
    }
  }

  /** Calm for c, with everybody who publishes present. */
  ghost predicate Good(cfg: Config, s: Sys, steps: seq<Step>, c: Uuid) {
    CalmRun(cfg, s, steps, c, true) && PresentRun(cfg, s, steps, c)
  }

  lemma {:induction false} GoodAppend(cfg: Config, s: Sys, a: seq<Step>, b: seq<Step>, c: Uuid)
    requires Good(cfg, s, a, c) && Good(cfg, Run(cfg, s, a), b, c)
    ensures Good(cfg, s, a + b, c)
    decreases |a|
  {
    if a == [] {
      assert a + b == b;
    } else {
      assert (a + b)[0] == a[0] && (a + b)[1..] == a[1..] + b;
      GoodAppend(cfg, Do(cfg, s, a[0]), a[1..], b, c);
    }
  }

  /** s' has nothing left to do for c, of the entries that s knows. */
  ghost predicate Finished(s: Sys, s': Sys, c: Uuid) {
    && Running(s, c) && Running(s', c) && Idle(s', c)
    && s'.streams[c].log == s.streams[c].log && s'.streams[c].dropped == s.streams[c].dropped
  }

  ghost predicate FinishedBy(cfg: Config, s: Sys, c: Uuid, steps: seq<Step>) {
    Good(cfg, s, steps, c) && Finished(s, Run(cfg, s, steps), c)
  }

  lemma UsefulBurns(cfg: Config, s: Sys, step: Step, s': Sys, c: Uuid)
    requires Inv(cfg, s) && Useful(cfg, s, step, c) && s' == Do(cfg, s, step)
    ensures Fuel(s', c) < Fuel(s, c)
  {
    hide Fuel;
    assert Closed(s, step, c);
    StepBurns(cfg, s, step, s', c);
  }

  /** Useful steps can be taken until the work is done. */
  lemma {:induction false} CanFinish(cfg: Config, s: Sys, c: Uuid, fuel: nat) returns (steps: seq<Step>)
    requires Inv(cfg, s) && cfg.serial && Running(s, c) && Fuel(s, c) <= fuel
    ensures FinishedBy(cfg, s, c, steps)
    decreases fuel
  {
    hide Fuel, Inv;
    if Idle(s, c) {
      steps := [];
    } else {
      UsefulIff(cfg, s, c);
      var step :| Useful(cfg, s, step, c);
      var s1 := Do(cfg, s, step);
      StepOk(cfg, s, step);
      UsefulKeeps(cfg, s, step, s1, c);
      UsefulBurns(cfg, s, step, s1, c);
      var rest := CanFinish(cfg, s1, c, fuel - 1);
      UsefulFirst(cfg, s, step, s1, rest, c);
      steps := [step] + rest;
    }
  }

  lemma UsefulFirst(cfg: Config, s: Sys, step: Step, s1: Sys, rest: seq<Step>, c: Uuid)
    requires Running(s, c) && Useful(cfg, s, step, c) && s1 == Do(cfg, s, step) && FinishedBy(cfg, s1, c, rest)
    requires s1.streams[c].log == s.streams[c].log && s1.streams[c].dropped == s.streams[c].dropped
    ensures FinishedBy(cfg, s, c, [step] + rest)
  {
    assert ([step] + rest)[1..] == rest;
  }

  /** Everything published since the origin and not lost before, as lines of a log. */
  function PublishedSince(st: S.Stream, o: Origin): seq<Line> {
    Lines(st.log, Ids(o.gone, o.from, |st.log|))
  }

  /** The rows of c are the old ones and one for everything published since; none of that is left in the stream. */
  ghost predicate AllStored(s0: Sys, s: Sys, c: Uuid) {
    var o := OriginOf(s0, c, true);
    && c in s.streams
    && Grown(s0.db.msgs, s.db, c, Count(s0.db.counters, c), PublishedSince(s.streams[c], o))
    && (forall x | x in s.streams[c].pending || x in s.streams[c].entries :: x < o.from)
  }

  /** Nothing of c was trimmed undelivered between these states. */
  predicate NothingDropped(s: Sys, s': Sys, c: Uuid) {
    StreamOf(s'.streams, c).dropped == StreamOf(s.streams, c).dropped
  }

  /** When nothing is unread, what was published and not lost has been delivered. */
  lemma IdleDelivered(s: Sys, o: Origin)
    requires StreamsOk(s.streams, s.minted) && o.conv in s.streams && s.streams[o.conv].dropped == o.gone
    requires UnreadOf(s, o.conv) == 0 && o.from <= s.streams[o.conv].cursor
    ensures
      var st := s.streams[o.conv];
      && st.cursor <= |st.log| && PublishedSince(st, o) == DeliveredSince(st, o)
      && forall x | x in st.entries :: x < st.cursor
  {
    var st := s.streams[o.conv];
    assert S.WellFormed(st);
    assert Unread(st.entries, st.cursor) == [];
    forall x: nat | st.cursor <= x < |st.log| ensures x in o.gone {
      assert x !in Unread(st.entries, st.cursor);
    }
    forall x | x in st.entries ensures x < st.cursor {
      assert x !in Unread(st.entries, st.cursor);
    }
    IdsSkip(o.gone, o.from, st.cursor, |st.log|);
  }

  /**
   Take any moment at which no handler of c runs and the senders of its unread entries are there, and any
   continuation that is calm for c, in which only present senders publish and nothing is trimmed undelivered.
   When it can do no more for c, the rows of c are the old ones and exactly one for every entry published and
   not lost, in stream order and numbered after the old last_seq, and nothing of it is left in the stream.
   */
  lemma CalmRunsEnd(cfg: Config, before: seq<Step>, steps: seq<Step>, c: Uuid)
    requires cfg.serial && !Busy(Reached(cfg, before).jobs, c) && ReadySenders(Reached(cfg, before), c)
    requires Good(cfg, Reached(cfg, before), steps, c) && Running(Reached(cfg, before + steps), c)
    requires NothingDropped(Reached(cfg, before), Reached(cfg, before + steps), c)
    requires forall step :: !Useful(cfg, Reached(cfg, before + steps), step, c)
    ensures AllStored(Reached(cfg, before), Reached(cfg, before + steps), c)
  {
    ReachedOk(cfg, before + steps);
    UsefulIff(cfg, Reached(cfg, before + steps), c);
    IdleStored(cfg, before, steps, c);
  }

  lemma IdleStored(cfg: Config, before: seq<Step>, steps: seq<Step>, c: Uuid)
    requires cfg.serial && !Busy(Reached(cfg, before).jobs, c) && ReadySenders(Reached(cfg, before), c)
    requires Good(cfg, Reached(cfg, before), steps, c) && Running(Reached(cfg, before + steps), c)
    requires NothingDropped(Reached(cfg, before), Reached(cfg, before + steps), c)
    requires Idle(Reached(cfg, before + steps), c)
    ensures AllStored(Reached(cfg, before), Reached(cfg, before + steps), c)
  {
    hide Inv, Grown, EntriesAre, Calm, Fuel;
    var s0, s := Reached(cfg, before), Reached(cfg, before + steps);
    var o := OriginOf(s0, c, true);
    ReachedOk(cfg, before + steps);
    StreamSteps.OwnStream(s, c);
    CalmSince(cfg, before, steps, c, true);
    RunAppend(cfg, INIT, before, steps);
    IdleDelivered(s, o);
  }

  lemma Associative(a: seq<Step>, b: seq<Step>, c: seq<Step>)
    ensures a + (b + c) == a + b + c
  {
  }

  /**
   From every state of such a run, handlers running or not, the pipeline can finish calmly, with all that is
   published stored.
   */
  lemma CalmRunsFinish(cfg: Config, before: seq<Step>, steps: seq<Step>, c: Uuid)
    requires cfg.serial && !Busy(Reached(cfg, before).jobs, c) && ReadySenders(Reached(cfg, before), c)
    requires Good(cfg, Reached(cfg, before), steps, c) && Running(Reached(cfg, before + steps), c)
    requires NothingDropped(Reached(cfg, before), Reached(cfg, before + steps), c)
    ensures exists more ::
      && FinishedBy(cfg, Reached(cfg, before + steps), c, more)
      && AllStored(Reached(cfg, before), Reached(cfg, before + (steps + more)), c)
  {
    hide Fuel;
    var s := Reached(cfg, before + steps);
    ReachedOk(cfg, before + steps);
    var more := CanFinish(cfg, s, c, Fuel(s, c));
    RunAppend(cfg, INIT, before, steps);
    RunAppend(cfg, INIT, before + steps, more);
    Associative(before, steps, more);
    GoodAppend(cfg, Reached(cfg, before), steps, more, c);
    IdleStored(cfg, before, steps + more, c);
  }
}
