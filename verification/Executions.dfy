/**
 Every uninterrupted execution of the consumer loop is a run of the state machine. With the results
 on runs and on draining this gives the end-to-end promise of the pipeline.
 */
module Executions {
  import opened Common
  import opened Machine
  import opened Handling
  import opened Draining
  import opened Invariants
  import opened TableSteps
  import opened PipelineTheorems
  import StreamSteps
  import T = Tables
  import S = Streams

  /** The steps of a handler after its save. */
  function AfterSaveSteps(i: nat, f: Faults): seq<Step> {
    [EndBroadcast(i)] + ([SendAck(i)] + ([XAck(i, f.ack)] + ([XDel(i, f.del)] + [])))
  }

  function Finish(s: Sys, i: nat, f: Faults): Sys {
    DoXDel(DoXAck(DoSendAck(DoEndBroadcast(s, i), i), i, f.ack), i, f.del)
  }

  lemma FinishRun(cfg: Config, s: Sys, i: nat, f: Faults)
    ensures Run(cfg, s, AfterSaveSteps(i, f)) == Finish(s, i, f)
  {
    hide DoXDel, DoXAck, DoSendAck, DoEndBroadcast;
    var s1 := DoEndBroadcast(s, i);
    var s2 := DoSendAck(s1, i);
    var s3 := DoXAck(s2, i, f.ack);
    RunCons(cfg, s3, XDel(i, f.del), []);
    RunCons(cfg, s2, XAck(i, f.ack), [XDel(i, f.del)] + []);
    RunCons(cfg, s1, SendAck(i), [XAck(i, f.ack)] + ([XDel(i, f.del)] + []));
    RunCons(cfg, s, EndBroadcast(i), [SendAck(i)] + ([XAck(i, f.ack)] + ([XDel(i, f.del)] + [])));
  }

  /** s' is s after job i has ended, leaving the tables and its stream as given. */
  ghost predicate EndedTo(s: Sys, i: nat, s': Sys, db: T.Db, st: S.Stream)
    requires i < |s.jobs|
  {
    && |s'.jobs| == |s.jobs| && s'.jobs[i].conv == s.jobs[i].conv && s'.jobs[i].pc == Halted
    && s' == s.(db := db, streams := s.streams[s.jobs[i].conv := st], jobs := s.jobs[i := s'.jobs[i]],
                acks := s'.acks)
  }

  lemma FinishHalted(s: Sys, i: nat, f: Faults)
    requires At(s, i, Halted)
    ensures Finish(s, i, f) == s
  {
  }

  lemma ToXAck(s: Sys, i: nat, s2: Sys)
    requires At(s, i, AtBroadcast) && s.jobs[i].num.Some? && s2 == DoSendAck(DoEndBroadcast(s, i), i)
    ensures
      && |s2.jobs| == |s.jobs|
      && s2.jobs[i] == s.jobs[i].(pc := AtXAck)
      && s2 == s.(jobs := s.jobs[i := s.jobs[i].(pc := AtXAck)], acks := s2.acks)
      && s2.acks == s.acks + [Ack(i, s.jobs[i].payload.sender, s.jobs[i].payload.clientMsgId, s.jobs[i].num.value)]
  {
  }

  lemma FromXAck(s: Sys, i: nat, f: Faults, s': Sys)
    requires At(s, i, AtXAck) && s.jobs[i].conv in s.streams
    requires s' == DoXDel(DoXAck(s, i, f.ack), i, f.del)
    ensures
      var j := s.jobs[i];
      var st := s.streams[j.conv];
      var acked := S.XAck(st, j.entry);
      EndedTo(s, i, s', s.db,
        if f.ack == Refused then st
        else if f.ack == ReplyLost || f.del == Refused then acked else S.XDel(acked, j.entry))
  {
    assert f.ack == Refused ==> s.streams[s.jobs[i].conv := s.streams[s.jobs[i].conv]] == s.streams;
  }

  lemma FinishOk(s: Sys, i: nat, f: Faults, s': Sys)
    requires At(s, i, AtBroadcast) && s.jobs[i].num.Some? && s.jobs[i].conv in s.streams && s' == Finish(s, i, f)
    ensures
      var j := s.jobs[i];
      var st := s.streams[j.conv];
      var acked := S.XAck(st, j.entry);
      EndedTo(s, i, s', s.db,
        if f.ack == Refused then st
        else if f.ack == ReplyLost || f.del == Refused then acked else S.XDel(acked, j.entry))
  {
    var s2 := DoSendAck(DoEndBroadcast(s, i), i);
    ToXAck(s, i, s2);
    FromXAck(s2, i, f, s');
  }

  /** The state just before the XDEL of a handler. */
  function BeforeXDel(cfg: Config, s: Sys, i: nat, f: Faults): Sys {
    DoXAck(DoSendAck(DoEndBroadcast(AfterSave(cfg, s, i, f.save), i), i), i, f.ack)
  }

  /** Whether the handler gets as far as the XDEL. */
  lemma XDelReached(s: Sys, i: nat, f: Fault, db: T.Db, r: Result<nat, Error>, s1: Sys)
    requires i < |s.jobs| && SavedTo(s, i, s1, db, r)
    ensures At(DoXAck(DoSendAck(DoEndBroadcast(s1, i), i), i, f), i, AtXDel) <==> r.Ok? && f == Fine
  {
    if r.Ok? { ToXAck(s1, i, DoSendAck(DoEndBroadcast(s1, i), i)); }
  }

  function HandlerSteps(i: nat, f: Faults): seq<Step> {
    SaveSteps(i, f.save) + AfterSaveSteps(i, f)
  }

  lemma HandleEnds(cfg: Config, s: Sys, i: nat, f: Faults, s': Sys)
    requires Ready(cfg, s, i) && s.jobs[i].conv in s.streams && s' == Run(cfg, s, HandlerSteps(i, f))
    ensures
      var j := s.jobs[i];
      var (db, st, _) := Handle(cfg.shared, s.db, s.streams[j.conv], j.entry, MessageOf(j.payload, i), s.now, f);
      EndedTo(s, i, s', db, st)
  {
    var j := s.jobs[i];
    var (db, r) := SaveInTx(cfg.shared, s.db, MessageOf(j.payload, i), s.now, f.save);
    var s1 := AfterSave(cfg, s, i, f.save);
    SaveIsARun(cfg, s, i, f.save, AfterSaveSteps(i, f));
    FinishRun(cfg, s1, i, f);
    FinishSaved(s, i, f, s1, s', db, r);
  }

  /**
   Handle is what the steps of one handler do when nothing comes between them; it reports success
   exactly when the handler comes to its XDEL.
   */
  lemma HandleIsARun(cfg: Config, s: Sys, i: nat, f: Faults, s': Sys)
    requires Ready(cfg, s, i) && s.jobs[i].conv in s.streams && s' == Run(cfg, s, HandlerSteps(i, f))
    ensures
      var j := s.jobs[i];
      var (db, st, ok) := Handle(cfg.shared, s.db, s.streams[j.conv], j.entry, MessageOf(j.payload, i), s.now, f);
      EndedTo(s, i, s', db, st) && (ok <==> At(BeforeXDel(cfg, s, i, f), i, AtXDel))
  {
    hide SaveInTx;
    HandleEnds(cfg, s, i, f, s');
    var (db, r) := SaveInTx(cfg.shared, s.db, MessageOf(s.jobs[i].payload, i), s.now, f.save);
    SaveIsARun(cfg, s, i, f.save, []);
    XDelReached(s, i, f.ack, db, r, AfterSave(cfg, s, i, f.save));
  }

  lemma FinishSaved(s: Sys, i: nat, f: Faults, s1: Sys, s': Sys, db: T.Db, r: Result<nat, Error>)
    requires i < |s.jobs| && s.jobs[i].conv in s.streams && SavedTo(s, i, s1, db, r) && s' == Finish(s1, i, f)
    ensures
      var j := s.jobs[i];
      var st := s.streams[j.conv];
      var acked := S.XAck(st, j.entry);
      EndedTo(s, i, s', db,
        if r.Err? || f.ack == Refused then st
        else if f.ack == ReplyLost || f.del == Refused then acked else S.XDel(acked, j.entry))
  {
    var j := s.jobs[i];
    if r.Err? {
      FinishHalted(s1, i, f);
      assert s.streams[j.conv := s.streams[j.conv]] == s.streams;
    } else {
      FinishOk(s1, i, f, s');
      assert s1.jobs[i := s'.jobs[i]] == s.jobs[i := s'.jobs[i]];
    }
  }

  // ------------------------------------------------------------------ rounds of the consumer loop

  /** One iteration of the loop: how long it blocks, and the fates of its commands. */
  datatype Plan = Plan(wait: nat, read: Fault, faults: Faults)

  function ReadSteps(c: Uuid, i: nat, p: Plan): seq<Step> {
    if p.read == Refused then []
    else [Deliver(c, p.read == Fine)] + (if p.read == Fine then HandlerSteps(i, p.faults) else [])
  }

  function RoundSteps(c: Uuid, i: nat, p: Plan): seq<Step> {
    [Tick(p.wait)] + ReadSteps(c, i, p)
  }

  function RoundOf(s: Sys, p: Plan): Round { Round(p.read, |s.jobs|, s.now + p.wait, p.faults) }

  /** s' agrees with the given tables and stream of c, and no handler of c is running. */
  ghost predicate Reaches(s': Sys, c: Uuid, db: T.Db, st: S.Stream) {
    && s'.db == db && c in s'.streams && s'.streams[c] == st
    && !Busy(s'.jobs, c)
  }

  /** With no handler of c running there is no open transaction on its counter. */
  lemma QuietUnlocked(cfg: Config, s: Sys, c: Uuid)
    requires Inv(cfg, s) && !Busy(s.jobs, c)
    ensures c !in s.locks
  {
    assert c in s.locks ==> LockOwned(c, s.locks[c], s.jobs);
    assert c in s.locks ==> PcOk(cfg.shared, s.jobs[s.locks[c]]);
  }

  lemma NoSuchJob(cfg: Config, s: Sys, i: nat, f: Faults)
    requires i >= |s.jobs|
    ensures Run(cfg, s, HandlerSteps(i, f)) == s
  {
    SaveStepsRun(cfg, s, i, f.save, AfterSaveSteps(i, f));
    FinishRun(cfg, s, i, f);
  }

  /** OneRound is what one iteration of the loop does to the machine. */
  lemma RoundIsARun(cfg: Config, s: Sys, c: Uuid, p: Plan, s': Sys)
    requires Inv(cfg, s) && c != NIL && c in s.streams && !Busy(s.jobs, c)
    requires s' == Run(cfg, s, RoundSteps(c, |s.jobs|, p))
    ensures
      var (db, st) := OneRound(cfg.shared, s.db, s.streams[c], RoundOf(s, p));
      Reaches(s', c, db, st)
  {
    var later := Do(cfg, s, Tick(p.wait));
    TickIs(cfg, s, p.wait);
    TickFirst(cfg, s, p.wait, ReadSteps(c, |s.jobs|, p), later);
    WaitThenRead(cfg, s, later, c, p, s');
  }

  lemma TickIs(cfg: Config, s: Sys, wait: nat)
    ensures Do(cfg, s, Tick(wait)) == s.(now := s.now + wait)
  {
  }

  lemma TickFirst(cfg: Config, s: Sys, wait: nat, rest: seq<Step>, later: Sys)
    requires Inv(cfg, s) && later == Do(cfg, s, Tick(wait))
    ensures Inv(cfg, later) && Run(cfg, s, [Tick(wait)] + rest) == Run(cfg, later, rest)
  {
    StepOk(cfg, s, Tick(wait));
    RunCons(cfg, s, Tick(wait), rest);
  }

  lemma WaitThenRead(cfg: Config, s: Sys, later: Sys, c: Uuid, p: Plan, s': Sys)
    requires Inv(cfg, later) && c != NIL && c in s.streams && !Busy(s.jobs, c)
    requires later == s.(now := s.now + p.wait) && s' == Run(cfg, later, ReadSteps(c, |s.jobs|, p))
    ensures
      var (db, st) := OneRound(cfg.shared, s.db, s.streams[c], RoundOf(s, p));
      Reaches(s', c, db, st)
  {
    hide Inv;
    var r := RoundOf(s, p);
    var out := OneRound(cfg.shared, s.db, s.streams[c], r);
    ReadIsARun(cfg, later, c, p, s', r, out.0, out.1);
  }

  lemma ReadIsARun(cfg: Config, s: Sys, c: Uuid, p: Plan, s': Sys, r: Round, db: T.Db, st: S.Stream)
    requires Inv(cfg, s) && c != NIL && c in s.streams && !Busy(s.jobs, c)
    requires s' == Run(cfg, s, ReadSteps(c, |s.jobs|, p))
    requires r == Round(p.read, |s.jobs|, s.now, p.faults)
    requires (db, st) == OneRound(cfg.shared, s.db, s.streams[c], r)
    ensures Reaches(s', c, db, st)
  {
    match p.read
    case Fine =>
      RunCons(cfg, s, Deliver(c, true), HandlerSteps(|s.jobs|, p.faults));
      ReadFine(cfg, s, c, p, Do(cfg, s, Deliver(c, true)), s', r, db, st);
    case ReplyLost =>
      RunCons(cfg, s, Deliver(c, false), []);
      ReadLost(cfg, s, c, Do(cfg, s, Deliver(c, false)), r, db, st);
    case Refused =>
      ReadRefused(cfg, s, c, r, db, st);
  }

  lemma ReadFine(
      cfg: Config, s: Sys, c: Uuid, p: Plan, s1: Sys, s': Sys, r: Round, db: T.Db, st: S.Stream)
    requires Inv(cfg, s) && c != NIL && c in s.streams && !Busy(s.jobs, c) && p.read == Fine
    requires s1 == Do(cfg, s, Deliver(c, true)) && s' == Run(cfg, s1, HandlerSteps(|s.jobs|, p.faults))
    requires r == Round(p.read, |s.jobs|, s.now, p.faults)
    requires (db, st) == OneRound(cfg.shared, s.db, s.streams[c], r)
    ensures Reaches(s', c, db, st)
  {
    hide Inv, OneRound, DoDeliver;
    if |s1.jobs| > |s.jobs| {
      DeliveredRun(cfg, s, c, p, s1, s', r, db, st);
    } else {
      NoSuchJob(cfg, s1, |s.jobs|, p.faults);
      NothingRead(cfg, s, c, s1, r, db, st);
    }
  }

  lemma NothingRead(cfg: Config, s: Sys, c: Uuid, s1: Sys, r: Round, db: T.Db, st: S.Stream)
    requires Inv(cfg, s) && c in s.streams && !Busy(s.jobs, c) && r.read == Fine
    requires s1 == DoDeliver(cfg, s, c, true) && |s1.jobs| <= |s.jobs|
    requires (db, st) == OneRound(cfg.shared, s.db, s.streams[c], r)
    ensures Reaches(s1, c, db, st)
  {
    StreamSteps.OwnStream(s, c);
    S.XReadGroupOk(s.streams[c]);
    assert S.XReadGroup(s.streams[c]).None?;
  }

  lemma ReadLost(cfg: Config, s: Sys, c: Uuid, s1: Sys, r: Round, db: T.Db, st: S.Stream)
    requires c in s.streams && !Busy(s.jobs, c) && r.read == ReplyLost && s1 == Do(cfg, s, Deliver(c, false))
    requires (db, st) == OneRound(cfg.shared, s.db, s.streams[c], r)
    ensures Reaches(s1, c, db, st)
  {
    assert s1 == DoDeliver(cfg, s, c, false);
  }

  lemma ReadRefused(cfg: Config, s: Sys, c: Uuid, r: Round, db: T.Db, st: S.Stream)
    requires c in s.streams && !Busy(s.jobs, c) && r.read == Refused
    requires (db, st) == OneRound(cfg.shared, s.db, s.streams[c], r)
    ensures Reaches(s, c, db, st)
  {
  }

  lemma DeliveredRun(
      cfg: Config, s: Sys, c: Uuid, p: Plan, s1: Sys, s': Sys, r: Round, db: T.Db, st: S.Stream)
    requires Inv(cfg, s) && c != NIL && c in s.streams && !Busy(s.jobs, c) && p.read == Fine
    requires s1 == DoDeliver(cfg, s, c, true) && |s1.jobs| > |s.jobs|
    requires s' == Run(cfg, s1, HandlerSteps(|s.jobs|, p.faults))
    requires r == Round(p.read, |s.jobs|, s.now, p.faults)
    requires (db, st) == OneRound(cfg.shared, s.db, s.streams[c], r)
    ensures Reaches(s', c, db, st)
  {
    hide Inv, Handle, DoDeliver;
    var i := |s.jobs|;
    NewJobReady(cfg, s, c, s1);
    HandleEnds(cfg, s1, i, p.faults, s');
    QuietAgain(s, s1, s', c);
  }

  lemma NewJobReady(cfg: Config, s: Sys, c: Uuid, s1: Sys)
    requires Inv(cfg, s) && c != NIL && c in s.streams && !Busy(s.jobs, c)
    requires s1 == DoDeliver(cfg, s, c, true) && |s1.jobs| > |s.jobs|
    ensures Ready(cfg, s1, |s.jobs|) && NewJob(s, c, s1)
  {
    NewJobIs(cfg, s, c, s1);
    StreamSteps.DeliverOk(cfg, s, c, true);
    assert SenderOk(s1.jobs[|s.jobs|], s1.minted, s1.lives);
    QuietUnlocked(cfg, s, c);
  }

  /** s1 is s with a new job for the next entry of c. */
  ghost predicate NewJob(s: Sys, c: Uuid, s1: Sys)
    requires c in s.streams
  {
    && |s1.jobs| == |s.jobs| + 1 && s1.jobs == s.jobs + [s1.jobs[|s.jobs|]]
    && s1.db == s.db && s1.now == s.now
    && s1.jobs[|s.jobs|].conv == c && s1.jobs[|s.jobs|].pc == AtBegin && S.XReadGroup(s.streams[c]).Some?
    && var (st, entry) := S.XReadGroup(s.streams[c]).value;
    && c in s1.streams && s1.streams[c] == st && entry < |st.log|
    && s1.jobs[|s.jobs|].entry == entry && s1.jobs[|s.jobs|].payload == st.log[entry]
  }

  lemma NewJobIs(cfg: Config, s: Sys, c: Uuid, s1: Sys)
    requires c in s.streams && s1 == DoDeliver(cfg, s, c, true) && |s1.jobs| > |s.jobs|
    ensures NewJob(s, c, s1)
  {
  }

  lemma QuietAgain(s: Sys, s1: Sys, s': Sys, c: Uuid)
    requires !Busy(s.jobs, c) && |s1.jobs| == |s.jobs| + 1 && s1.jobs[..|s.jobs|] == s.jobs
    requires |s'.jobs| == |s1.jobs| && s'.jobs == s1.jobs[|s.jobs| := s'.jobs[|s.jobs|]]
    requires s'.jobs[|s.jobs|].pc == Halted
    ensures !Busy(s'.jobs, c)
  {
    forall x | 0 <= x < |s.jobs| ensures s'.jobs[x] == s.jobs[x] {
      assert s1.jobs[..|s.jobs|][x] == s.jobs[x];
    }
  }

  /** The rounds that a plan amounts to from state s, and the machine steps that carry them out. */
  function RoundsOf(cfg: Config, s: Sys, c: Uuid, plan: seq<Plan>): (r: seq<Round>)
    ensures |r| == |plan|
    decreases |plan|
  {
    if plan == [] then []
    else
      var s1 := Run(cfg, s, RoundSteps(c, |s.jobs|, plan[0]));
      [RoundOf(s, plan[0])] + RoundsOf(cfg, s1, c, plan[1..])
  }

  function LoopSteps(cfg: Config, s: Sys, c: Uuid, plan: seq<Plan>): seq<Step>
    decreases |plan|
  {
    if plan == [] then []
    else
      var steps := RoundSteps(c, |s.jobs|, plan[0]);
      steps + LoopSteps(cfg, Run(cfg, s, steps), c, plan[1..])
  }

  /** The consumer loop, whatever its faults, is a run of the machine. */
  lemma {:induction false} LoopIsARun(cfg: Config, s: Sys, c: Uuid, plan: seq<Plan>)
    requires Inv(cfg, s) && c != NIL && c in s.streams && !Busy(s.jobs, c)
    ensures
      var (db, st) := Loop(cfg.shared, s.db, s.streams[c], RoundsOf(cfg, s, c, plan));
      Reaches(Run(cfg, s, LoopSteps(cfg, s, c, plan)), c, db, st)
    decreases |plan|
  {
    hide Inv, OneRound;
    if plan != [] {
      var steps := RoundSteps(c, |s.jobs|, plan[0]);
      var s1 := Run(cfg, s, steps);
      RoundIsARun(cfg, s, c, plan[0], s1);
      RunOk(cfg, s, steps);
      LoopIsARun(cfg, s1, c, plan[1..]);
      RunAppend(cfg, s, steps, LoopSteps(cfg, s1, c, plan[1..]));
      assert RoundsOf(cfg, s, c, plan)[1..] == RoundsOf(cfg, s1, c, plan[1..]);
    }
  }

  // ------------------------------------------------------------------ draining a reachable system

  const CALM := Plan(0, Fine, NO_FAULTS)

  function Repeat(n: nat): (r: seq<Plan>)
    ensures |r| == n && forall k | 0 <= k < n :: r[k] == CALM
  {
    if n == 0 then [] else [CALM] + Repeat(n - 1)
  }

  /** The pipeline machine drains a stream whose senders are all still there. */
  lemma {:induction false} MachineDrains(cfg: Config, s: Sys, c: Uuid, n: nat, s': Sys)
    requires Inv(cfg, s) && c != NIL && c in s.streams && !Busy(s.jobs, c) && s.streams[c].group
    requires Sound(s.db, c) && AllSavable(s.db, s.streams[c], c)
    requires n == |Unread(s.streams[c].entries, s.streams[c].cursor)|
    requires s' == Run(cfg, s, LoopSteps(cfg, s, c, Repeat(n)))
    ensures
      var st := s.streams[c];
      && c in s'.streams && !Busy(s'.jobs, c)
      && Appended(s.db, s'.db, c, Lines(st.log, Unread(st.entries, st.cursor)))
      && Drained(st, s'.streams[c])
    decreases n
  {
    var st := s.streams[c];
    var u := Unread(st.entries, st.cursor);
    StreamSteps.OwnStream(s, c);
    if n == 0 {
      AppendedNothing(s.db, c);
    } else {
      var steps := RoundSteps(c, |s.jobs|, CALM);
      var s1 := Run(cfg, s, steps);
      RoundIsARun(cfg, s, c, CALM, s1);
      RunOk(cfg, s, steps);
      FirstCalm(cfg, s, c, s1);
      RunAppend(cfg, s, steps, LoopSteps(cfg, s1, c, Repeat(n - 1)));
      assert Repeat(n)[1..] == Repeat(n - 1);
      MachineDrains(cfg, s1, c, n - 1, s');
      DrainedTwice(st, s1.streams[c], s'.streams[c], s.db, s1.db, s'.db, c);
    }
  }

  lemma DrainedTwice(st: S.Stream, st1: S.Stream, st': S.Stream, db: T.Db, db1: T.Db, db': T.Db, c: Uuid)
    requires S.WellFormed(st) && S.WellFormed(st1) && Unread(st.entries, st.cursor) != []
    requires var u := Unread(st.entries, st.cursor);
      && (forall k | 0 <= k < |u| :: u[k] < |st.log|)
      && Appended(db, db1, c, [Line(st.log[u[0]].sender, st.log[u[0]].text)])
      && Unread(st1.entries, st1.cursor) == u[1..] && st1.entries == S.Without(st.entries, u[0])
      && st1.pending == st.pending && st1.acked == st.acked + {u[0]} && st1.dropped == st.dropped
      && st1.log == st.log
      && (forall k | 0 <= k < |u[1..]| :: u[1..][k] < |st.log|)
      && Appended(db1, db', c, Lines(st.log, u[1..]))
    requires Drained(st1, st')
    ensures Appended(db, db', c, Lines(st.log, Unread(st.entries, st.cursor))) && Drained(st, st')
  {
    var u := Unread(st.entries, st.cursor);
    NextDrained(st, st1, st', u[0]);
    LinesCons(st.log, u);
    AppendedTwice(db, db1, db', c, [Line(st.log[u[0]].sender, st.log[u[0]].text)], Lines(st.log, u[1..]));
  }

  lemma FirstCalm(cfg: Config, s: Sys, c: Uuid, s1: Sys)
    requires Inv(cfg, s) && c in s.streams && s.streams[c].group && S.WellFormed(s.streams[c])
    requires Sound(s.db, c) && AllSavable(s.db, s.streams[c], c)
    requires Unread(s.streams[c].entries, s.streams[c].cursor) != []
    requires c in s1.streams && (s1.db, s1.streams[c]) == OneRound(cfg.shared, s.db, s.streams[c], RoundOf(s, CALM))
    ensures
      var st, st1 := s.streams[c], s1.streams[c];
      var u := Unread(st.entries, st.cursor);
      && S.WellFormed(st1) && st1.group && st1.log == st.log && Sound(s1.db, c)
      && Appended(s.db, s1.db, c, [Line(st.log[u[0]].sender, st.log[u[0]].text)])
      && AllSavable(s1.db, st1, c)
      && Unread(st1.entries, st1.cursor) == u[1..] && st1.entries == S.Without(st.entries, u[0])
      && st1.pending == st.pending && st1.acked == st.acked + {u[0]} && st1.dropped == st.dropped
  {
    hide StreamsOk, JobsOk, PcsOk, LivesOk, SendersOk, TxOk, ConnsOk, AcksOk, SerialOk, ServedInOrder, OneRound;
    RowsHaveOwners(s);
    FirstDrained(cfg.shared, s.db, s.streams[c], [RoundOf(s, CALM)], c, s1.db, s1.streams[c]);
  }

  /**
   From every reachable state in which no handler of c is running and no sender of an unread entry
   has gone, the pipeline can finish its work: there is a continuation, without faults, after which
   nothing of c is unread and the rows of c have been extended by exactly the unread payloads, in
   XADD order, numbered consecutively after the last number.
   */
  lemma PipelineDrains(cfg: Config, steps: seq<Step>, c: Uuid)
    requires c != NIL && c in Reached(cfg, steps).streams && Reached(cfg, steps).streams[c].group
    requires c in Reached(cfg, steps).db.counters && !Busy(Reached(cfg, steps).jobs, c)
    requires var st := Reached(cfg, steps).streams[c];
      forall x | x in st.entries && x >= st.cursor :: x < |st.log| && st.log[x].sender in Reached(cfg, steps).db.parts
    ensures
      var s := Reached(cfg, steps);
      var st := s.streams[c];
      && AllSavable(s.db, st, c)
      && exists more ::
        var s' := Reached(cfg, steps + more);
        && c in s'.streams && !Busy(s'.jobs, c)
        && Appended(s.db, s'.db, c, Lines(st.log, Unread(st.entries, st.cursor)))
        && Drained(st, s'.streams[c])
  {
    var s := Reached(cfg, steps);
    ReachedOk(cfg, steps);
    var st := s.streams[c];
    var u := Unread(st.entries, st.cursor);
    forall k | 0 <= k < |u| ensures u[k] < |st.log| && Savable(s.db, c, st.log[u[k]]) {
      assert u[k] in u;
      assert PayloadOk(st.log[u[k]], c, s.minted);
    }
    RowsBelowCounter(s, c);
    var more := LoopSteps(cfg, s, c, Repeat(|u|));
    RunAppend(cfg, INIT, steps, more);
    MachineDrains(cfg, s, c, |u|, Reached(cfg, steps + more));
  }
}
