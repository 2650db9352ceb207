/**
 Where things come from: over every run, what is stored, shown to a connection or confirmed to a sender
 is the message of one publication, and no publication counts twice.
 */
module Provenance {
  import opened Common
  import opened Machine
  import opened Invariants
  import opened PipelineTheorems
  import opened StageTheorems
  import opened TableSteps
  import Moves
  import S = Streams

  /** Step k publishes in c. */
  ghost predicate Publishes(cfg: Config, steps: seq<Step>, k: nat, c: Uuid) {
    k < |steps| && PublishesIn(Reached(cfg, steps[..k]), steps[k], c)
  }

  /** The steps of a run that publish in c, oldest first. */
  ghost function Publications(cfg: Config, steps: seq<Step>, c: Uuid): seq<nat>
    decreases |steps|
  {
    if steps == [] then []
    else
      var n: nat := |steps| - 1;
      Publications(cfg, steps[..n], c) + if Publishes(cfg, steps, n, c) then [n] else []
  }

  lemma PublishesEarlier(cfg: Config, steps: seq<Step>, n: nat, k: nat, c: Uuid)
    requires k < n <= |steps|
    ensures Publishes(cfg, steps[..n], k, c) <==> Publishes(cfg, steps, k, c)
  {
    assert steps[..n][..k] == steps[..k];
  }

  lemma {:induction false} PublicationsAre(cfg: Config, steps: seq<Step>, c: Uuid)
    ensures S.Ascending(Publications(cfg, steps, c))
    ensures forall k: nat :: k in Publications(cfg, steps, c) <==> Publishes(cfg, steps, k, c)
    decreases |steps|
  {
    hide PublishesIn, Reached;
    if steps != [] {
      var n: nat := |steps| - 1;
      PublicationsAre(cfg, steps[..n], c);
      var ks := Publications(cfg, steps[..n], c);
      forall i | 0 <= i < |ks| ensures ks[i] < n {
        assert ks[i] in ks && Publishes(cfg, steps[..n], ks[i], c);
      }
      forall k: nat ensures k in Publications(cfg, steps, c) <==> Publishes(cfg, steps, k, c) {
        if k < n { PublishesEarlier(cfg, steps, n, k, c); }
      }
    }
  }

  /** The payload of the publication step k. */
  ghost predicate PublishedBy(cfg: Config, steps: seq<Step>, k: nat, p: S.Payload) {
    && k < |steps| && steps[k].Publish?
    && var s := Reached(cfg, steps[..k]);
    && p == S.Payload(steps[k].clientMsgId, p.conv, steps[k].sender, steps[k].text, s.now)
    && p.sender in s.minted && s.minted[p.sender].conv == p.conv
  }

  lemma LogStep(cfg: Config, s: Sys, step: Step, s': Sys, c: Uuid)
    requires s' == Do(cfg, s, step)
    ensures StreamOf(s'.streams, c).log == StreamOf(s.streams, c).log + Added(s, step, c)
  {
    if step.Publish? {
      PublishLog(s, step, s', c);
    } else if !TouchesStream(step) {
      StreamsUntouched(cfg, s, step);
    } else {
      OtherLog(cfg, s, step, s', c);
    }
  }

  /** What a step adds to the log of c. */
  ghost function Added(s: Sys, step: Step, c: Uuid): seq<S.Payload> {
    if PublishesIn(s, step, c) then [S.Payload(step.clientMsgId, c, step.sender, step.text, s.now)] else []
  }

  lemma PublishLog(s: Sys, step: Step, s': Sys, c: Uuid)
    requires step.Publish? && s' == DoPublish(s, step.sender, step.text, step.clientMsgId, step.evict)
    ensures StreamOf(s'.streams, c).log == StreamOf(s.streams, c).log + Added(s, step, c)
  {
  }

  lemma DeliverLog(cfg: Config, s: Sys, d: Uuid, received: bool, c: Uuid)
    ensures StreamOf(DoDeliver(cfg, s, d, received).streams, c).log == StreamOf(s.streams, c).log
  {
  }

  lemma AckLog(s: Sys, i: nat, f: Fault, c: Uuid)
    ensures StreamOf(DoXAck(s, i, f).streams, c).log == StreamOf(s.streams, c).log
    ensures StreamOf(DoXDel(s, i, f).streams, c).log == StreamOf(s.streams, c).log
  {
  }

  lemma OtherLog(cfg: Config, s: Sys, step: Step, s': Sys, c: Uuid)
    requires TouchesStream(step) && !step.Publish? && s' == Do(cfg, s, step)
    ensures StreamOf(s'.streams, c).log == StreamOf(s.streams, c).log
  {
    hide DoDeliver, DoXAck, DoXDel;
    match step
    case CreateGroup(d) =>
    case Deliver(d, received) => DeliverLog(cfg, s, d, received, c);
    case XAck(i, f) => AckLog(s, i, f, c);
    case XDel(i, f) => AckLog(s, i, f, c);
  }

  /** The log of a stream holds exactly what was published in its conversation, in that order. */
  lemma {:induction false} LogIsPublished(cfg: Config, steps: seq<Step>, c: Uuid)
    ensures
      var log, ks := StreamOf(Reached(cfg, steps).streams, c).log, Publications(cfg, steps, c);
      && |log| == |ks|
      && forall x: nat | x < |log| :: log[x].conv == c && PublishedBy(cfg, steps, ks[x], log[x])
    decreases |steps|
  {
    if steps != [] {
      var n := |steps| - 1;
      var before, last := steps[..n], steps[n];
      assert steps == before + [last];
      RunAppend(cfg, INIT, before, [last]);
      LogIsPublished(cfg, before, c);
      LogStep(cfg, Reached(cfg, before), last, Reached(cfg, steps), c);
      assert forall k | 0 <= k <= n :: before[..k] == steps[..k];
    }
  }

  // ------------------------------------------------------------------ one publication each

  /** The publication whose entry job i handles. */
  ghost function Origin(cfg: Config, steps: seq<Step>, i: nat): nat {
    var s := Reached(cfg, steps);
    if i >= |s.jobs| then 0
    else
      var ks := Publications(cfg, steps, s.jobs[i].conv);
      if s.jobs[i].entry < |ks| then ks[s.jobs[i].entry] else 0
  }

  lemma JobOrigin(cfg: Config, steps: seq<Step>, i: nat)
    requires i < |Reached(cfg, steps).jobs|
    ensures
      var j := Reached(cfg, steps).jobs[i];
      && j.payload.conv == j.conv
      && PublishedBy(cfg, steps, Origin(cfg, steps, i), j.payload)
      && Publishes(cfg, steps, Origin(cfg, steps, i), j.conv)
  {
    var s := Reached(cfg, steps);
    var j := s.jobs[i];
    ReachedOk(cfg, steps);
    assert JobOk(s.streams, j);
    LogIsPublished(cfg, steps, j.conv);
  }

  /** Different handlers work on different publications. */
  lemma OriginsDiffer(cfg: Config, steps: seq<Step>, i: nat, j: nat)
    requires i < |Reached(cfg, steps).jobs| && j < |Reached(cfg, steps).jobs| && i != j
    ensures Origin(cfg, steps, i) != Origin(cfg, steps, j)
  {
    var s := Reached(cfg, steps);
    AtMostOnce(cfg, steps);
    JobOrigin(cfg, steps, i);
    JobOrigin(cfg, steps, j);
    assert !SameEntry(s.jobs[i], s.jobs[j]) || !SameEntry(s.jobs[j], s.jobs[i]);
    PublicationsAre(cfg, steps, s.jobs[i].conv);
  }

  /**
   Every stored row is the message of a publication: its sender, text and conversation are those of that
   step, which no other row comes from.
   */
  lemma RowIsPublished(cfg: Config, steps: seq<Step>, m: Uuid)
    requires m in Reached(cfg, steps).db.msgs
    ensures
      var s := Reached(cfg, steps);
      var row, k := s.db.msgs[m], Origin(cfg, steps, m);
      && k < |steps| && steps[k].Publish? && steps[k].sender == row.sender && steps[k].text == row.text
      && var then_ := Reached(cfg, steps[..k]);
      && row.sender in then_.minted && then_.minted[row.sender].conv == row.conv
      && forall n | n in s.db.msgs && n != m :: Origin(cfg, steps, n) != k
  {
    var s := Reached(cfg, steps);
    ReachedOk(cfg, steps);
    RowsHaveOwners(s);
    JobOrigin(cfg, steps, m);
    forall n | n in s.db.msgs && n != m ensures Origin(cfg, steps, n) != Origin(cfg, steps, m) {
      OriginsDiffer(cfg, steps, m, n);
    }
  }

  /** Every persisted ack answers a publication of its receiver, with its client id, and no two the same one. */
  lemma AckIsPublished(cfg: Config, steps: seq<Step>, x: nat)
    requires x < |Reached(cfg, steps).acks|
    ensures
      var s := Reached(cfg, steps);
      var a := s.acks[x];
      var k := Origin(cfg, steps, a.job);
      && k < |steps| && steps[k].Publish? && steps[k].sender == a.sender && steps[k].clientMsgId == a.clientMsgId
      && forall y: nat | y < |s.acks| && y != x :: Origin(cfg, steps, s.acks[y].job) != k
  {
    var s := Reached(cfg, steps);
    ReachedOk(cfg, steps);
    var a := s.acks[x];
    assert AckOk(s.jobs, a);
    JobOrigin(cfg, steps, a.job);
    forall y: nat | y < |s.acks| && y != x ensures Origin(cfg, steps, s.acks[y].job) != Origin(cfg, steps, a.job) {
      assert AckOk(s.jobs, s.acks[y]);
      OriginsDiffer(cfg, steps, a.job, s.acks[y].job);
    }
  }

  // ------------------------------------------------------------------ connections

  ghost predicate HomeOk(conn: Conn, minted: map<Uuid, Mint>) {
    conn.sender in minted && minted[conn.sender].conv == conn.conv
  }

  /** Every connection belongs to the conversation its client was minted for. */
  ghost predicate Homed(s: Sys) {
    forall k {:trigger HomeOk(s.conns[k], s.minted)} | k in s.conns :: HomeOk(s.conns[k], s.minted)
  }

  lemma SendHomed(s: Sys, i: nat, k: nat)
    requires Homed(s)
    ensures Homed(DoSendTo(s, i, k))
  {
    var s' := DoSendTo(s, i, k);
    forall x | x in s'.conns ensures HomeOk(s'.conns[x], s'.minted) {
      assert HomeOk(s.conns[x], s.minted);
    }
  }

  lemma WriteHomed(s: Sys, k: nat)
    requires Homed(s)
    ensures Homed(DoWrite(s, k))
  {
    var s' := DoWrite(s, k);
    forall x | x in s'.conns ensures HomeOk(s'.conns[x], s'.minted) {
      assert HomeOk(s.conns[x], s.minted);
    }
  }

  lemma OpenHomed(s: Sys, k: nat, sender: Uuid)
    requires Homed(s)
    ensures Homed(DoOpen(s, k, sender))
  {
    var s' := DoOpen(s, k, sender);
    forall x | x in s'.conns ensures HomeOk(s'.conns[x], s'.minted) {
      assert x in s.conns ==> HomeOk(s.conns[x], s.minted);
    }
  }

  lemma JoinHomed(s: Sys, id: Uuid, user: string, c: Uuid)
    requires Homed(s)
    ensures Homed(DoJoin(s, id, user, c))
  {
    var s' := DoJoin(s, id, user, c);
    forall x | x in s'.conns ensures HomeOk(s'.conns[x], s'.minted) {
      assert HomeOk(s.conns[x], s.minted);
    }
  }

  lemma ConnsUntouched(cfg: Config, s: Sys, step: Step, s': Sys)
    requires s' == Do(cfg, s, step) && !(step.SendTo? || step.Write? || step.Open? || step.Join?)
    ensures s'.conns == s.conns && s'.minted == s.minted
  {
  }

  lemma StepHomed(cfg: Config, s: Sys, step: Step, s': Sys)
    requires Homed(s) && s' == Do(cfg, s, step)
    ensures Homed(s')
  {
    hide Homed, DoSendTo, DoWrite, DoOpen, DoJoin;
    if step.SendTo? { SendHomed(s, step.i, step.k); }
    else if step.Write? { WriteHomed(s, step.k); }
    else if step.Open? { OpenHomed(s, step.k, step.sender); }
    else if step.Join? { JoinHomed(s, step.id, step.user, step.c); }
    else { SameHomed(cfg, s, step, s'); }
  }

  lemma SameHomed(cfg: Config, s: Sys, step: Step, s': Sys)
    requires Homed(s) && s' == Do(cfg, s, step) && !(step.SendTo? || step.Write? || step.Open? || step.Join?)
    ensures Homed(s')
  {
    hide Do;
    ConnsUntouched(cfg, s, step, s');
    forall x | x in s'.conns ensures HomeOk(s'.conns[x], s'.minted) {
      assert HomeOk(s.conns[x], s.minted);
    }
  }

  lemma {:induction false} RunHomed(cfg: Config, s: Sys, steps: seq<Step>)
    requires Homed(s)
    ensures Homed(Run(cfg, s, steps))
    decreases |steps|
  {
    hide Homed, Do;
    if steps != [] {
      StepHomed(cfg, s, steps[0], Do(cfg, s, steps[0]));
      RunHomed(cfg, Do(cfg, s, steps[0]), steps[1..]);
    }
  }

  /**
   Every frame a connection accepts is the message of somebody else's publication in the conversation its
   client was minted for; no two frames are the same publication, and with one handler at a time per stream
   they come in the order of publication.
   */
  lemma FrameIsPublished(cfg: Config, steps: seq<Step>, k: nat, x: nat)
    requires k in Reached(cfg, steps).conns && x < |Reached(cfg, steps).conns[k].accepted|
    ensures
      var s := Reached(cfg, steps);
      var conn := s.conns[k];
      var chat := conn.accepted[x];
      var o := Origin(cfg, steps, chat.job);
      && conn.sender in s.minted && s.minted[conn.sender].conv == conn.conv
      && Publishes(cfg, steps, o, conn.conv) && steps[o].sender == chat.sender != conn.sender
      && forall y: nat | y < x ::
           && Origin(cfg, steps, conn.accepted[y].job) != o
           && (cfg.serial ==> Origin(cfg, steps, conn.accepted[y].job) < o)
  {
    hide PublishesIn;
    var s := Reached(cfg, steps);
    var conn := s.conns[k];
    ReachedOk(cfg, steps);
    RunHomed(cfg, INIT, steps);
    assert HomeOk(conn, s.minted) && ConnOk(s.jobs, k, conn) && ChatOk(s.jobs, k, conn, conn.accepted[x]);
    JobOrigin(cfg, steps, conn.accepted[x].job);
    forall y: nat | y < x
      ensures Origin(cfg, steps, conn.accepted[y].job) != Origin(cfg, steps, conn.accepted[x].job)
      ensures cfg.serial ==> Origin(cfg, steps, conn.accepted[y].job) < Origin(cfg, steps, conn.accepted[x].job)
    {
      assert ChatOk(s.jobs, k, conn, conn.accepted[y]);
      OriginsDiffer(cfg, steps, conn.accepted[y].job, conn.accepted[x].job);
      if cfg.serial { OriginsAscend(cfg, steps, conn.accepted[y].job, conn.accepted[x].job); }
    }
  }

  /** Later handlers of a conversation work on later publications. */
  lemma OriginsAscend(cfg: Config, steps: seq<Step>, i: nat, j: nat)
    requires i < j < |Reached(cfg, steps).jobs|
    requires Reached(cfg, steps).jobs[i].conv == Reached(cfg, steps).jobs[j].conv
    ensures Origin(cfg, steps, i) < Origin(cfg, steps, j)
  {
    var s := Reached(cfg, steps);
    ReachedOk(cfg, steps);
    assert JobOk(s.streams, s.jobs[i]) && JobOk(s.streams, s.jobs[j]) && InOrder(s.jobs[i], s.jobs[j]);
    LogIsPublished(cfg, steps, s.jobs[i].conv);
    PublicationsAre(cfg, steps, s.jobs[i].conv);
  }

  // ------------------------------------------------------------------ confirmation

  ghost predicate HasAck(acks: seq<Ack>, i: nat) {
    exists x :: 0 <= x < |acks| && acks[x].job == i
  }

  /** The handler has come past its broadcast, or its entry has been acknowledged. */
  predicate PastAck(streams: map<Uuid, S.Stream>, j: Job) {
    j.pc == AtXAck || j.pc == AtXDel || j.entry in StreamOf(streams, j.conv).acked
  }

  ghost predicate ConfirmedOk(streams: map<Uuid, S.Stream>, acks: seq<Ack>, i: nat, j: Job) {
    PastAck(streams, j) ==> HasAck(acks, i)
  }

  ghost predicate Confirmed(s: Sys) {
    forall i {:trigger ConfirmedOk(s.streams, s.acks, i, s.jobs[i])} | 0 <= i < |s.jobs| ::
      ConfirmedOk(s.streams, s.acks, i, s.jobs[i])
  }

  /** No handler passes its ack and no entry is acknowledged. */
  ghost predicate NobodyPasses(s: Sys, s': Sys) {
    && s'.acks == s.acks && |s'.jobs| == |s.jobs|
    && forall i | 0 <= i < |s.jobs| :: PastAck(s'.streams, s'.jobs[i]) ==> PastAck(s.streams, s.jobs[i])
  }

  lemma NobodyConfirmed(s: Sys, s': Sys)
    requires Confirmed(s) && NobodyPasses(s, s')
    ensures Confirmed(s')
  {
    forall i | 0 <= i < |s'.jobs| ensures ConfirmedOk(s'.streams, s'.acks, i, s'.jobs[i]) {
      assert ConfirmedOk(s.streams, s.acks, i, s.jobs[i]);
    }
  }

  lemma SendAckConfirmed(s: Sys, i: nat, s': Sys)
    requires Confirmed(s) && s' == DoSendAck(s, i)
    ensures Confirmed(s')
  {
    forall k | 0 <= k < |s'.jobs| ensures ConfirmedOk(s'.streams, s'.acks, k, s'.jobs[k]) {
      assert ConfirmedOk(s.streams, s.acks, k, s.jobs[k]);
      if HasAck(s.acks, k) {
        var x :| 0 <= x < |s.acks| && s.acks[x].job == k;
        assert s'.acks[x].job == k;
      }
      assert |s'.acks| > |s.acks| ==> s'.acks[|s.acks|].job == i;
    }
  }

  lemma XAckConfirmed(s: Sys, i: nat, f: Fault, s': Sys)
    requires Confirmed(s) && s' == DoXAck(s, i, f)
    requires JobsOk(s.streams, s.jobs)
    ensures Confirmed(s')
  {
    forall k | 0 <= k < |s'.jobs| ensures ConfirmedOk(s'.streams, s'.acks, k, s'.jobs[k]) {
      assert ConfirmedOk(s.streams, s.acks, k, s.jobs[k]);
      assert k < i < |s.jobs| ==> InOrder(s.jobs[k], s.jobs[i]);
      assert i < k ==> InOrder(s.jobs[i], s.jobs[k]);
    }
  }

  lemma DeliverConfirmed(cfg: Config, s: Sys, c: Uuid, received: bool, s': Sys)
    requires Confirmed(s) && s' == DoDeliver(cfg, s, c, received) && StreamsOk(s.streams, s.minted)
    ensures Confirmed(s')
  {
    if c in s.streams { S.XReadGroupOk(s.streams[c]); }
    forall k | 0 <= k < |s'.jobs| ensures ConfirmedOk(s'.streams, s'.acks, k, s'.jobs[k]) {
      assert k < |s.jobs| ==> ConfirmedOk(s.streams, s.acks, k, s.jobs[k]);
    }
  }

  lemma PublishPasses(s: Sys, sender: Uuid, text: string, m: string, evict: nat, s': Sys)
    requires s' == DoPublish(s, sender, text, m, evict)
    ensures NobodyPasses(s, s')
  {
  }

  /** Only job i has changed; it has not come past its ack, unless it was there already. */
  ghost predicate Behind(s: Sys, s': Sys, i: nat) {
    && s'.acks == s.acks && i < |s.jobs| == |s'.jobs| && s'.jobs == s.jobs[i := s'.jobs[i]]
    && (forall c :: StreamOf(s'.streams, c).acked == StreamOf(s.streams, c).acked)
    && s'.jobs[i].conv == s.jobs[i].conv && s'.jobs[i].entry == s.jobs[i].entry
    && (s'.jobs[i].pc == AtXAck || s'.jobs[i].pc == AtXDel ==> PastAck(s.streams, s.jobs[i]))
  }

  lemma BehindPasses(s: Sys, s': Sys, i: nat)
    requires Behind(s, s', i)
    ensures NobodyPasses(s, s')
  {
  }

  lemma StayPasses(s: Sys)
    ensures NobodyPasses(s, s)
  {
  }

  lemma DrawBehind(cfg: Config, s: Sys, i: nat, f: Fault, s': Sys)
    requires s' == DoDraw(cfg, s, i, f) && s' != s
    ensures Behind(s, s', i)
  {
  }

  lemma InsertBehind(cfg: Config, s: Sys, i: nat, f: Fault, s': Sys)
    requires s' == DoInsert(cfg, s, i, f) && s' != s
    ensures Behind(s, s', i)
  {
    if cfg.shared {
      hide DoInsert;
      assert At(s, i, AtInsert) by { InsertWhen(cfg, s, i, f, s'); }
      Moves.InsertInTx(cfg, s, i, f, s');
    }
  }

  lemma InsertWhen(cfg: Config, s: Sys, i: nat, f: Fault, s': Sys)
    requires s' == DoInsert(cfg, s, i, f) && s' != s
    ensures At(s, i, AtInsert)
  {
  }

  lemma CommitBehind(cfg: Config, s: Sys, i: nat, f: Fault, s': Sys)
    requires s' == DoCommit(cfg, s, i, f) && s' != s
    ensures Behind(s, s', i)
  {
  }

  lemma SendBehind(s: Sys, i: nat, k: nat, s': Sys)
    requires s' == DoSendTo(s, i, k) && s' != s
    ensures Behind(s, s', i)
  {
  }

  lemma XDelBehind(s: Sys, i: nat, f: Fault, s': Sys)
    requires s' == DoXDel(s, i, f) && s' != s
    ensures Behind(s, s', i)
  {
  }

  lemma PlainBehind(s: Sys, i: nat, ok: bool, s': Sys)
    requires s' == DoBegin(s, i, ok) || s' == DoEndBroadcast(s, i) || s' == DoCrash(s, i)
    requires s' != s
    ensures Behind(s, s', i)
  {
  }

  lemma HandlerPasses(cfg: Config, s: Sys, step: Step, s': Sys)
    requires OfHandler(step) && !step.SendAck? && !step.XAck? && s' == DoHandler(cfg, s, step)
    ensures NobodyPasses(s, s')
  {
    hide NobodyPasses, Behind, DoBegin, DoDraw, DoInsert, DoCommit, DoSendTo, DoEndBroadcast, DoXDel, DoCrash;
    if s' == s {
      StayPasses(s);
    } else {
      match step {
        case Begin(i, ok) => PlainBehind(s, i, ok, s');
        case DrawNumber(i, f) => DrawBehind(cfg, s, i, f, s');
        case InsertRow(i, f) => InsertBehind(cfg, s, i, f, s');
        case Commit(i, f) => CommitBehind(cfg, s, i, f, s');
        case SendTo(i, k) => SendBehind(s, i, k, s');
        case EndBroadcast(i) => PlainBehind(s, i, true, s');
        case XDel(i, f) => XDelBehind(s, i, f, s');
        case Crash(i) => PlainBehind(s, i, true, s');
      }
      BehindPasses(s, s', step.i);
    }
  }

  lemma OthersPass(cfg: Config, s: Sys, step: Step, s': Sys)
    requires !OfHandler(step) && !step.Publish? && !step.Deliver? && s' == DoOther(cfg, s, step)
    ensures NobodyPasses(s, s')
  {
    if step.CreateGroup? {
    } else {
      assert s'.streams == s.streams && s'.jobs == s.jobs && s'.acks == s.acks;
    }
  }

  lemma StepConfirmed(cfg: Config, s: Sys, step: Step, s': Sys)
    requires Inv(cfg, s) && Confirmed(s) && s' == Do(cfg, s, step)
    ensures Confirmed(s')
  {
    hide Confirmed, NobodyPasses, DoSendAck, DoXAck, DoXDel, DoDeliver, DoPublish;
    hide StreamsOk, JobsOk, PcsOk, LivesOk, SendersOk, NumbersOk, TxOk, ConnsOk, AcksOk, SerialOk, ServedInOrder;
    if step.SendAck? { SendAckConfirmed(s, step.i, s'); }
    else if step.XAck? { XAckConfirmed(s, step.i, step.f, s'); }
    else if step.Deliver? { DeliverConfirmed(cfg, s, step.c, step.received, s'); }
    else {
      if OfHandler(step) { HandlerPasses(cfg, s, step, s'); }
      else if step.Publish? { PublishPasses(s, step.sender, step.text, step.clientMsgId, step.evict, s'); }
      else { OthersPass(cfg, s, step, s'); }
      NobodyConfirmed(s, s');
    }
  }

  lemma {:induction false} RunConfirmed(cfg: Config, s: Sys, steps: seq<Step>)
    requires Inv(cfg, s) && Confirmed(s)
    ensures Confirmed(Run(cfg, s, steps))
    decreases |steps|
  {
    hide Confirmed, Do, Inv;
    if steps != [] {
      StepConfirmed(cfg, s, steps[0], Do(cfg, s, steps[0]));
      StepOk(cfg, s, steps[0]);
      RunConfirmed(cfg, Do(cfg, s, steps[0]), steps[1..]);
    }
  }

  /**
   Whenever an entry has been acknowledged, the one who published it has been sent its persisted ack: no
   XACK comes before the ack, whatever fails in between.
   */
  lemma AcknowledgedIsConfirmed(cfg: Config, steps: seq<Step>, c: Uuid, id: nat)
    requires var s := Reached(cfg, steps); c in s.streams && id in s.streams[c].acked
    ensures
      var s := Reached(cfg, steps);
      && id < |Publications(cfg, steps, c)|
      && var k := Publications(cfg, steps, c)[id];
      && Publishes(cfg, steps, k, c)
      && exists x :: 0 <= x < |s.acks| && Origin(cfg, steps, s.acks[x].job) == k
           && s.acks[x].sender == steps[k].sender && s.acks[x].clientMsgId == steps[k].clientMsgId
  {
    hide PublishesIn;
    var s := Reached(cfg, steps);
    ReachedOk(cfg, steps);
    InitInv(cfg);
    RunConfirmed(cfg, INIT, steps);
    assert Handled(s.jobs, c, id);
    var i: nat :| HandledBy(s.jobs, i, c, id);
    assert ConfirmedOk(s.streams, s.acks, i, s.jobs[i]);
    var x :| 0 <= x < |s.acks| && s.acks[x].job == i;
    JobOrigin(cfg, steps, i);
    assert JobOk(s.streams, s.jobs[i]);
    LogIsPublished(cfg, steps, c);
    AckIsPublished(cfg, steps, x);
  }
}
