/** The life of a stream entry, for every run: stages, deletion and trimming. */
module StageTheorems {
  import opened Common
  import opened Machine
  import opened Invariants
  import opened TableSteps
  import opened PipelineTheorems
  import StreamSteps
  import JobSteps
  import Draining
  import S = Streams

  datatype Stage = Waiting | Lost | Delivered | Acknowledged

  ghost predicate InStage(st: S.Stream, id: nat, g: Stage) {
    match g
    case Waiting => S.Undelivered(st, id)
    case Lost => id in st.dropped
    case Delivered => id in st.pending
    case Acknowledged => id in st.acked
  }

  /** Waiting entries are delivered or trimmed, delivered ones acknowledged; the rest is final. */
  predicate MayBecome(g: Stage, h: Stage) {
    g == h || (g == Waiting && h != Waiting) || (g == Delivered && h == Acknowledged)
  }

  /** Every published entry is in exactly one stage. */
  lemma ExactlyOneStage(cfg: Config, steps: seq<Step>, c: Uuid, id: nat)
    requires var s := Reached(cfg, steps); c in s.streams && id < |s.streams[c].log|
    ensures
      var st := Reached(cfg, steps).streams[c];
      exists g :: InStage(st, id, g) && forall h :: InStage(st, id, h) ==> h == g
  {
    ReachedOk(cfg, steps);
    OneStage(Reached(cfg, steps).streams[c], id);
  }

  lemma OneStage(st: S.Stream, id: nat)
    requires S.WellFormed(st) && id < |st.log|
    ensures exists g :: InStage(st, id, g) && forall h :: InStage(st, id, h) ==> h == g
  {
    var g := if id in st.acked then Acknowledged else if id in st.pending then Delivered
             else if id in st.dropped then Lost else Waiting;
    assert InStage(st, id, g);
    assert id in st.pending + st.acked ==> id < st.cursor;
  }

  ghost predicate Forward(st: S.Stream, st': S.Stream) {
    && st.log <= st'.log
    && forall id: nat, g, h | id < |st.log| && InStage(st, id, g) && InStage(st', id, h) :: MayBecome(g, h)
  }

  lemma ForwardTransitive(a: S.Stream, b: S.Stream, c: S.Stream)
    requires S.WellFormed(b) && Forward(a, b) && Forward(b, c)
    ensures Forward(a, c)
  {
    forall id: nat, g, h | id < |a.log| && InStage(a, id, g) && InStage(c, id, h) ensures MayBecome(g, h) {
      OneStage(b, id);
      var k :| InStage(b, id, k);
      assert MayBecome(g, k) && MayBecome(k, h);
    }
  }

  lemma SameForward(st: S.Stream)
    requires S.WellFormed(st)
    ensures Forward(st, st)
  {
    forall id: nat, g, h | id < |st.log| && InStage(st, id, g) && InStage(st, id, h) ensures MayBecome(g, h) {
      OneStage(st, id);
    }
  }

  lemma XAddForward(st: S.Stream, p: S.Payload, evict: nat)
    requires S.WellFormed(st)
    ensures Forward(st, S.XAdd(st, p, evict))
  {
    S.XAddOk(st, p, evict);
    var st' := S.XAdd(st, p, evict);
    forall id: nat, g, h | id < |st.log| && InStage(st, id, g) && InStage(st', id, h) ensures MayBecome(g, h) {
      OneStage(st, id);
      OneStage(st', id);
      assert id in st.dropped ==> InStage(st', id, Lost);
      assert id in st.pending ==> InStage(st', id, Delivered);
      assert id in st.acked ==> InStage(st', id, Acknowledged);
    }
  }

  lemma XReadGroupForward(st: S.Stream)
    requires S.WellFormed(st) && S.XReadGroup(st).Some?
    ensures Forward(st, S.XReadGroup(st).value.0)
  {
    S.XReadGroupOk(st);
    var (st', x) := S.XReadGroup(st).value;
    forall id: nat, g, h | id < |st.log| && InStage(st, id, g) && InStage(st', id, h) ensures MayBecome(g, h) {
      OneStage(st, id);
      OneStage(st', id);
      assert id in st.pending ==> InStage(st', id, Delivered);
    }
  }

  lemma XAckForward(st: S.Stream, x: nat)
    requires S.WellFormed(st)
    ensures Forward(st, S.XAck(st, x))
  {
    S.XAckOk(st, x);
    var st' := S.XAck(st, x);
    forall id: nat, g, h | id < |st.log| && InStage(st, id, g) && InStage(st', id, h) ensures MayBecome(g, h) {
      OneStage(st, id);
      OneStage(st', id);
    }
  }

  lemma XDelForward(st: S.Stream, x: nat)
    requires S.WellFormed(st) && x < st.cursor
    ensures Forward(st, S.XDel(st, x))
  {
    S.XDelOk(st, x);
    var st' := S.XDel(st, x);
    forall id: nat, g, h | id < |st.log| && InStage(st, id, g) && InStage(st', id, h) ensures MayBecome(g, h) {
      OneStage(st, id);
      OneStage(st', id);
    }
  }

  lemma PublishStage(s: Sys, sender: Uuid, text: string, m: string, evict: nat, c: Uuid)
    requires S.WellFormed(StreamOf(s.streams, c))
    ensures Forward(StreamOf(s.streams, c), StreamOf(DoPublish(s, sender, text, m, evict).streams, c))
  {
    SameForward(StreamOf(s.streams, c));
    if sender in s.minted {
      XAddForward(StreamOf(s.streams, c), S.Payload(m, s.minted[sender].conv, sender, text, s.now), evict);
    }
  }

  lemma DeliverStage(cfg: Config, s: Sys, d: Uuid, received: bool, c: Uuid)
    requires S.WellFormed(StreamOf(s.streams, c))
    ensures Forward(StreamOf(s.streams, c), StreamOf(DoDeliver(cfg, s, d, received).streams, c))
  {
    SameForward(StreamOf(s.streams, c));
    if d == c && c in s.streams && S.XReadGroup(s.streams[c]).Some? { XReadGroupForward(s.streams[c]); }
  }

  lemma AckStage(s: Sys, i: nat, f: Fault, c: Uuid)
    requires S.WellFormed(StreamOf(s.streams, c))
    ensures Forward(StreamOf(s.streams, c), StreamOf(DoXAck(s, i, f).streams, c))
  {
    SameForward(StreamOf(s.streams, c));
    if i < |s.jobs| { XAckForward(StreamOf(s.streams, c), s.jobs[i].entry); }
  }

  lemma DelStage(s: Sys, i: nat, f: Fault, c: Uuid)
    requires S.WellFormed(StreamOf(s.streams, c))
    requires i < |s.jobs| && s.jobs[i].conv == c ==> s.jobs[i].entry < StreamOf(s.streams, c).cursor
    ensures Forward(StreamOf(s.streams, c), StreamOf(DoXDel(s, i, f).streams, c))
  {
    SameForward(StreamOf(s.streams, c));
    if i < |s.jobs| && s.jobs[i].conv == c { XDelForward(StreamOf(s.streams, c), s.jobs[i].entry); }
  }

  predicate TouchesStream(step: Step) {
    step.Publish? || step.CreateGroup? || step.Deliver? || step.XAck? || step.XDel?
  }

  lemma StreamsUntouched(cfg: Config, s: Sys, step: Step)
    requires !TouchesStream(step)
    ensures Do(cfg, s, step).streams == s.streams
  {
  }

  lemma GroupStage(s: Sys, d: Uuid, c: Uuid)
    requires S.WellFormed(StreamOf(s.streams, c))
    ensures Forward(StreamOf(s.streams, c), StreamOf(DoCreateGroup(s, d).streams, c))
  {
    SameForward(StreamOf(s.streams, c));
  }

  lemma StageTouch(cfg: Config, s: Sys, step: Step, s': Sys, c: Uuid)
    requires S.WellFormed(StreamOf(s.streams, c)) && TouchesStream(step)
    requires step.XDel? && step.i < |s.jobs| && s.jobs[step.i].conv == c ==>
               s.jobs[step.i].entry < StreamOf(s.streams, c).cursor
    requires s' == Do(cfg, s, step)
    ensures Forward(StreamOf(s.streams, c), StreamOf(s'.streams, c))
  {
    hide Forward, DoPublish, DoDeliver, DoXAck, DoXDel, DoCreateGroup, S.WellFormed, StreamOf;
    match step
    case Publish(sender, text, m, evict) => PublishStage(s, sender, text, m, evict, c);
    case CreateGroup(d) => GroupStage(s, d, c);
    case Deliver(d, received) => DeliverStage(cfg, s, d, received, c);
    case XAck(i, f) => AckStage(s, i, f, c);
    case XDel(i, f) => DelStage(s, i, f, c);
  }

  lemma StageStep(cfg: Config, s: Sys, step: Step, c: Uuid)
    requires Inv(cfg, s)
    ensures Forward(StreamOf(s.streams, c), StreamOf(Do(cfg, s, step).streams, c))
  {
    StreamSteps.OwnStream(s, c);
    if TouchesStream(step) {
      if step.XDel? && step.i < |s.jobs| { JobSteps.JobFacts(cfg, s, step.i); }
      StageTouch(cfg, s, step, Do(cfg, s, step), c);
    } else {
      StreamsUntouched(cfg, s, step);
      SameForward(StreamOf(s.streams, c));
    }
  }

  /** Stages only move forward, whatever happens. */
  lemma {:induction false} StagesForward(cfg: Config, s: Sys, steps: seq<Step>, c: Uuid)
    requires Inv(cfg, s)
    ensures Forward(StreamOf(s.streams, c), StreamOf(Run(cfg, s, steps).streams, c))
    decreases |steps|
  {
    StreamSteps.OwnStream(s, c);
    SameForward(StreamOf(s.streams, c));
    if steps != [] {
      var s1 := Do(cfg, s, steps[0]);
      StageStep(cfg, s, steps[0], c);
      StepOk(cfg, s, steps[0]);
      StreamSteps.OwnStream(s1, c);
      StagesForward(cfg, s1, steps[1..], c);
      ForwardTransitive(StreamOf(s.streams, c), StreamOf(s1.streams, c), StreamOf(Run(cfg, s, steps).streams, c));
    }
  }

  /** XDEL only ever removes an acknowledged entry, and leaves all others. */
  lemma DeletesOnlyAcknowledged(cfg: Config, steps: seq<Step>, i: nat, f: Fault, c: Uuid, id: nat)
    requires id in StreamOf(Reached(cfg, steps).streams, c).entries
    requires id !in StreamOf(Do(cfg, Reached(cfg, steps), XDel(i, f)).streams, c).entries
    ensures id in StreamOf(Reached(cfg, steps).streams, c).acked
  {
    hide StreamsOk, PcsOk, LivesOk, SendersOk, NumbersOk, TxOk, ConnsOk, AcksOk, SerialOk, ServedInOrder;
    var s := Reached(cfg, steps);
    ReachedOk(cfg, steps);
    JobSteps.JobFacts(cfg, s, i);
  }

  // ------------------------------------------------------------------ trimming

  /**
   An undelivered entry is lost only when at least 1000 newer entries remain, and only to a
   publication in its own conversation.
   */
  lemma LostBehindThousand(cfg: Config, steps: seq<Step>, step: Step, c: Uuid, id: nat)
    requires
      var s := Reached(cfg, steps);
      id !in StreamOf(s.streams, c).dropped && id in StreamOf(Do(cfg, s, step).streams, c).dropped
    ensures
      var st' := StreamOf(Do(cfg, Reached(cfg, steps), step).streams, c);
      && step.Publish? && S.Undelivered(StreamOf(Reached(cfg, steps).streams, c), id)
      && |st'.entries| >= 1000
      && forall x | x in st'.entries :: x > id
  {
    hide JobsOk, PcsOk, LivesOk, SendersOk, NumbersOk, TxOk, ConnsOk, AcksOk, SerialOk, ServedInOrder;
    var s := Reached(cfg, steps);
    ReachedOk(cfg, steps);
    var st := StreamOf(s.streams, c);
    StreamSteps.OwnStream(s, c);
    if !step.Publish? { OnlyPublishDrops(cfg, s, step, c); }
    var p := S.Payload(step.clientMsgId, c, step.sender, step.text, s.now);
    TrimmedAreOldest(st, p, step.evict, id);
  }

  lemma OnlyPublishDrops(cfg: Config, s: Sys, step: Step, c: Uuid)
    requires !step.Publish?
    ensures StreamOf(Do(cfg, s, step).streams, c).dropped == StreamOf(s.streams, c).dropped
  {
    if !TouchesStream(step) {
      StreamsUntouched(cfg, s, step);
    } else {
      match step
      case CreateGroup(d) =>
      case Deliver(d, received) => DeliverDropsNothing(cfg, s, d, received, c);
      case XAck(i, f) => AckDropsNothing(s, i, f, c);
      case XDel(i, f) => DelDropsNothing(s, i, f, c);
    }
  }

  lemma DeliverDropsNothing(cfg: Config, s: Sys, d: Uuid, received: bool, c: Uuid)
    ensures StreamOf(DoDeliver(cfg, s, d, received).streams, c).dropped == StreamOf(s.streams, c).dropped
  {
  }

  lemma AckDropsNothing(s: Sys, i: nat, f: Fault, c: Uuid)
    ensures StreamOf(DoXAck(s, i, f).streams, c).dropped == StreamOf(s.streams, c).dropped
  {
  }

  lemma DelDropsNothing(s: Sys, i: nat, f: Fault, c: Uuid)
    ensures StreamOf(DoXDel(s, i, f).streams, c).dropped == StreamOf(s.streams, c).dropped
  {
  }

  lemma TrimmedAreOldest(st: S.Stream, p: S.Payload, evict: nat, id: nat)
    requires S.WellFormed(st) && id !in st.dropped && id in S.XAdd(st, p, evict).dropped
    ensures
      var st' := S.XAdd(st, p, evict);
      && S.Undelivered(st, id) && |st'.entries| >= 1000
      && forall x | x in st'.entries :: x > id
  {
    S.AppendOk(st, p);
    var added := S.Append(st, p);
    var gone, kept := added.entries[..evict], added.entries[evict..];
    var i :| 0 <= i < evict && gone[i] == id;
    forall x | x in kept ensures x > id {
      var h :| 0 <= h < |kept| && kept[h] == x;
      assert added.entries[evict + h] == x && added.entries[i] == id;
    }
    assert added.entries[i] == st.entries[i];
  }

  ghost function Elements(s: seq<nat>): set<nat> { set x | x in s }

  lemma {:induction false} AscendingSize(s: seq<nat>)
    requires S.Ascending(s)
    ensures |Elements(s)| == |s|
  {
    if s != [] {
      AscendingSize(s[1..]);
      assert s == [s[0]] + s[1..];
      assert Elements(s) == {s[0]} + Elements(s[1..]);
      assert s[0] !in s[1..];
    }
  }

  /** Entries in the stream: not yet delivered, stuck in the pending list, or acknowledged but not deleted. */
  lemma BacklogParts(st: S.Stream)
    requires S.WellFormed(st)
    ensures
      var all := Elements(st.entries);
      |st.entries| == |set x | x in all && x >= st.cursor| + |all * st.pending| + |all * st.acked|
  {
    var all := Elements(st.entries);
    AscendingSize(st.entries);
    ThreeParts(st, all, (set x | x in all && x >= st.cursor), all * st.pending, all * st.acked);
  }

  lemma ThreeParts(st: S.Stream, all: set<nat>, waiting: set<nat>, pending: set<nat>, acked: set<nat>)
    requires S.WellFormed(st) && all == Elements(st.entries)
    requires waiting == set x | x in all && x >= st.cursor
    requires pending == all * st.pending && acked == all * st.acked
    ensures |all| == |waiting| + |pending| + |acked|
  {
    forall x | x in all ensures x in waiting || x in pending || x in acked {
      assert x in st.entries && x !in st.dropped;
    }
    assert pending !! acked && waiting !! pending + acked;
    assert all == waiting + (pending + acked);
    assert |pending + acked| == |pending| + |acked|;
  }

  // ------------------------------------------------------------------ exactly when something is lost

  /** Entries that wait to be delivered. */
  function Waits(st: S.Stream): nat { |Draining.Unread(st.entries, st.cursor)| }

  /** The unread entries are the newest ones in the stream. */
  lemma {:induction false} UnreadAreNewest(entries: seq<nat>, cursor: nat)
    requires S.Ascending(entries)
    ensures
      var u := Draining.Unread(entries, cursor);
      && |u| <= |entries|
      && (forall x | 0 <= x < |entries| - |u| :: entries[x] < cursor)
      && (forall x | |entries| - |u| <= x < |entries| :: entries[x] >= cursor)
  {
    if entries != [] {
      var rest := entries[1..];
      assert S.Ascending(rest);
      UnreadAreNewest(rest, cursor);
      if entries[0] >= cursor {
        Draining.UnreadHead(entries, cursor);
        assert forall x | 0 <= x < |entries| :: entries[x] >= cursor;
      } else {
        var u := Draining.Unread(rest, cursor);
        forall x | 0 <= x < |entries| ensures entries[x] < cursor <==> x < |entries| - |u| {
          assert x > 0 ==> entries[x] == rest[x - 1];
        }
      }
    }
  }

  /** This publication loses an undelivered entry. */
  ghost predicate Loses(st: S.Stream, p: S.Payload, evict: nat) {
    S.XAdd(st, p, evict).dropped != st.dropped
  }

  /**
   Some admissible trimming loses an undelivered entry if and only if at least 1000 entries wait to be
   delivered: entries stuck in the pending list or acknowledged but not deleted go first.
   */
  lemma LosesIff(st: S.Stream, p: S.Payload)
    requires S.WellFormed(st)
    ensures (exists evict :: Loses(st, p, evict)) <==> Waits(st) >= 1000
  {
    UnreadAreNewest(st.entries, st.cursor);
    if Waits(st) >= 1000 {
      OldestGoes(st, p, |st.entries| + 1 - S.MAX_LEN);
    } else {
      forall evict ensures !Loses(st, p, evict) {
        NoneGoes(st, p, evict);
      }
    }
  }

  lemma OldestGoes(st: S.Stream, p: S.Payload, evict: nat)
    requires S.WellFormed(st) && Waits(st) >= 1000 && evict == |st.entries| + 1 - S.MAX_LEN
    ensures Loses(st, p, evict)
  {
    UnreadAreNewest(st.entries, st.cursor);
    var added := S.Append(st, p);
    var x := evict - 1;
    assert added.entries[..evict][x] == st.entries[x];
    assert st.entries[x] in S.XAdd(st, p, evict).dropped && st.entries[x] !in st.dropped;
  }

  lemma NoneGoes(st: S.Stream, p: S.Payload, evict: nat)
    requires S.WellFormed(st) && Waits(st) < 1000
    ensures !Loses(st, p, evict)
  {
    UnreadAreNewest(st.entries, st.cursor);
    var added := S.Append(st, p);
    if |added.entries| >= S.MAX_LEN + evict {
      forall x | x in added.entries[..evict] ensures x < st.cursor {
        var h :| 0 <= h < evict && added.entries[..evict][h] == x;
        assert added.entries[h] == st.entries[h];
      }
      assert S.XAdd(st, p, evict).dropped == st.dropped;
    }
  }

  /** The step publishes in c. */
  predicate PublishesIn(s: Sys, step: Step, c: Uuid) {
    step.Publish? && step.sender in s.minted && s.minted[step.sender].conv == c
  }

  /**
   If fewer than 1000 entries wait to be delivered whenever something is published in c, nothing
   published there is ever lost before delivery.
   */
  lemma {:induction false} NothingLost(cfg: Config, steps: seq<Step>, c: Uuid)
    requires forall k | 0 <= k < |steps| && PublishesIn(Reached(cfg, steps[..k]), steps[k], c) ::
      Waits(StreamOf(Reached(cfg, steps[..k]).streams, c)) < 1000
    ensures StreamOf(Reached(cfg, steps).streams, c).dropped == {}
    decreases |steps|
  {
    if steps != [] {
      var n := |steps| - 1;
      var before, last := steps[..n], steps[n];
      assert steps == before + [last];
      RunAppend(cfg, INIT, before, [last]);
      assert Reached(cfg, steps) == Do(cfg, Reached(cfg, before), last);
      forall k | 0 <= k < |before| && PublishesIn(Reached(cfg, before[..k]), before[k], c)
        ensures Waits(StreamOf(Reached(cfg, before[..k]).streams, c)) < 1000
      {
        assert before[..k] == steps[..k];
      }
      NothingLost(cfg, before, c);
      StepLosesNothing(cfg, before, last, c);
    }
  }

  lemma StepLosesNothing(cfg: Config, before: seq<Step>, step: Step, c: Uuid)
    requires StreamOf(Reached(cfg, before).streams, c).dropped == {}
    requires PublishesIn(Reached(cfg, before), step, c) ==> Waits(StreamOf(Reached(cfg, before).streams, c)) < 1000
    ensures StreamOf(Do(cfg, Reached(cfg, before), step).streams, c).dropped == {}
  {
    hide JobsOk, PcsOk, LivesOk, SendersOk, NumbersOk, TxOk, ConnsOk, AcksOk, SerialOk, ServedInOrder;
    var s := Reached(cfg, before);
    ReachedOk(cfg, before);
    StreamSteps.OwnStream(s, c);
    if !step.Publish? {
      OnlyPublishDrops(cfg, s, step, c);
    } else if PublishesIn(s, step, c) {
      NoneGoes(StreamOf(s.streams, c), S.Payload(step.clientMsgId, c, step.sender, step.text, s.now), step.evict);
    }
  }

  /** The bound is exact: with 1000 entries waiting, some publication by anyone in c loses one. */
  lemma PublicationLoses(cfg: Config, steps: seq<Step>, c: Uuid, sender: Uuid, text: string, m: string)
    requires var s := Reached(cfg, steps); sender in s.minted && s.minted[sender].conv == c
    ensures
      var s := Reached(cfg, steps);
      (exists evict :: Drops(cfg, s, Publish(sender, text, m, evict), c))
      <==> Waits(StreamOf(s.streams, c)) >= 1000
  {
    var s := Reached(cfg, steps);
    ReachedOk(cfg, steps);
    StreamSteps.OwnStream(s, c);
    var st, p := StreamOf(s.streams, c), S.Payload(m, c, sender, text, s.now);
    LosesIff(st, p);
    forall evict ensures Drops(cfg, s, Publish(sender, text, m, evict), c) <==> Loses(st, p, evict) {
    }
    if exists evict :: Loses(st, p, evict) {
      var evict :| Loses(st, p, evict);
      assert Drops(cfg, s, Publish(sender, text, m, evict), c);
    }
  }

  ghost predicate Drops(cfg: Config, s: Sys, step: Step, c: Uuid) {
    StreamOf(Do(cfg, s, step).streams, c).dropped != StreamOf(s.streams, c).dropped
  }
}
