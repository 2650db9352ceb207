/** The stream commands, the broadcast and the connections keep the invariant. */
module StreamSteps {
  import opened Common
  import opened Machine
  import opened Invariants
  import opened Preservation
  import opened JobSteps
  import T = Tables
  import S = Streams

  // ------------------------------------------------------------------ one stream changes

  /** The stream goes on: nothing delivered or acknowledged is forgotten. */
  ghost predicate Extends(a: S.Stream, b: S.Stream) {
    && a.log <= b.log && a.cursor <= b.cursor
    && a.pending + a.acked <= b.pending + b.acked && a.acked <= b.acked
  }

  lemma StreamsFrame(streams: map<Uuid, S.Stream>, minted: map<Uuid, Mint>, c: Uuid, st: S.Stream)
    requires StreamsOk(streams, minted) && S.WellFormed(st)
    requires forall id: nat {:trigger PayloadOk(st.log[id], c, minted)} | id < |st.log| ::
               PayloadOk(st.log[id], c, minted)
    ensures StreamsOk(streams[c := st], minted)
  {
  }

  lemma JobsOnStream(streams: map<Uuid, S.Stream>, jobs: seq<Job>, c: Uuid, st: S.Stream)
    requires JobsOk(streams, jobs) && S.WellFormed(StreamOf(streams, c)) && S.WellFormed(st)
    requires Extends(StreamOf(streams, c), st)
    requires forall id | id in st.acked && id !in StreamOf(streams, c).acked :: Handled(jobs, c, id)
    ensures JobsOk(streams[c := st], jobs)
  {
    var streams' := streams[c := st];
    forall x | 0 <= x < |jobs| ensures JobOk(streams', jobs[x]) {
      assert JobOk(streams, jobs[x]);
    }
    forall d, id | d in streams' && id in streams'[d].acked ensures Handled(jobs, d, id) {
      if d == c && c !in streams { assert id !in S.EMPTY.acked; }
    }
  }

  lemma OwnStream(s: Sys, c: Uuid)
    requires StreamsOk(s.streams, s.minted)
    ensures S.WellFormed(StreamOf(s.streams, c))
    ensures forall id: nat {:trigger PayloadOk(StreamOf(s.streams, c).log[id], c, s.minted)}
              | id < |StreamOf(s.streams, c).log| :: PayloadOk(StreamOf(s.streams, c).log[id], c, s.minted)
  {
  }

  lemma StreamStepOk(cfg: Config, s: Sys, c: Uuid, st: S.Stream)
    requires Inv(cfg, s) && S.WellFormed(st) && Extends(StreamOf(s.streams, c), st)
    requires forall id: nat {:trigger PayloadOk(st.log[id], c, s.minted)} | id < |st.log| ::
               PayloadOk(st.log[id], c, s.minted)
    requires forall id | id in st.acked && id !in StreamOf(s.streams, c).acked :: Handled(s.jobs, c, id)
    ensures Inv(cfg, s.(streams := s.streams[c := st]))
  {
    OwnStream(s, c);
    StreamsFrame(s.streams, s.minted, c, st);
    JobsOnStream(s.streams, s.jobs, c, st);
  }

  lemma PublishOk(cfg: Config, s: Sys, sender: Uuid, text: string, m: string, evict: nat)
    requires Inv(cfg, s)
    ensures Inv(cfg, DoPublish(s, sender, text, m, evict))
  {
    hide JobsOk, PcsOk, LivesOk, SendersOk, NumbersOk, TxOk, ConnsOk, AcksOk, SerialOk, ServedInOrder;
    if sender in s.minted {
      var c := s.minted[sender].conv;
      var st := StreamOf(s.streams, c);
      var p := S.Payload(m, c, sender, text, s.now);
      OwnStream(s, c);
      S.XAddOk(st, p, evict);
      var st' := S.XAdd(st, p, evict);
      forall id: nat | id < |st'.log| ensures PayloadOk(st'.log[id], c, s.minted) {
        if id < |st.log| { assert PayloadOk(st.log[id], c, s.minted); }
      }
      StreamStepOk(cfg, s, c, st');
    }
  }

  lemma CreateGroupOk(cfg: Config, s: Sys, c: Uuid)
    requires Inv(cfg, s)
    ensures Inv(cfg, DoCreateGroup(s, c))
  {
    var st := StreamOf(s.streams, c);
    OwnStream(s, c);
    S.XGroupCreateOk(st);
    var st' := S.XGroupCreate(st);
    forall id: nat | id < |st'.log| ensures PayloadOk(st'.log[id], c, s.minted) {
      assert PayloadOk(st.log[id], c, s.minted);
    }
    StreamStepOk(cfg, s, c, st');
  }

  lemma XAckOk(cfg: Config, s: Sys, i: nat, f: Fault)
    requires Inv(cfg, s)
    ensures Inv(cfg, DoXAck(s, i, f))
  {
    hide Inv;
    if At(s, i, AtXAck) {
      JobFacts(cfg, s, i);
      if f == Refused {
        HaltOk(cfg, s, i);
        assert DoXAck(s, i, f) == Halt(s, i);
      } else {
        AckedOk(cfg, s, i, s.jobs[i]);
        var s' := s.(streams := DoXAck(s, i, f).streams);
        MoveOk(cfg, s', i, DoXAck(s, i, f).jobs[i]);
      }
    }
  }

  /** Acknowledging the entry of a job whose row is stored. */
  lemma AckedOk(cfg: Config, s: Sys, i: nat, j: Job)
    requires Inv(cfg, s) && At(s, i, AtXAck) && j == s.jobs[i]
    ensures
      var st := S.XAck(StreamOf(s.streams, j.conv), j.entry);
      && Inv(cfg, s.(streams := s.streams[j.conv := st]))
      && j.entry in st.acked
      && JobOk(s.streams[j.conv := st], j.(pc := AtXDel))
  {
    hide PcsOk, LivesOk, SendersOk, NumbersOk, TxOk, ConnsOk, AcksOk, SerialOk, ServedInOrder;
    JobFacts(cfg, s, i);
    var st := StreamOf(s.streams, j.conv);
    OwnStream(s, j.conv);
    S.XAckOk(st, j.entry);
    var st' := S.XAck(st, j.entry);
    forall id: nat | id < |st'.log| ensures PayloadOk(st'.log[id], j.conv, s.minted) {
      assert PayloadOk(st.log[id], j.conv, s.minted);
    }
    forall id | id in st'.acked && id !in st.acked ensures Handled(s.jobs, j.conv, id) {
      assert HandledBy(s.jobs, i, j.conv, id);
    }
    StreamStepOk(cfg, s, j.conv, st');
  }

  lemma XDelOk(cfg: Config, s: Sys, i: nat, f: Fault)
    requires Inv(cfg, s)
    ensures Inv(cfg, DoXDel(s, i, f))
  {
    if At(s, i, AtXDel) {
      var j := s.jobs[i];
      JobFacts(cfg, s, i);
      if f == Refused {
        HaltOk(cfg, s, i);
      } else {
        var st := s.streams[j.conv];
        OwnStream(s, j.conv);
        S.XDelOk(st, j.entry);
        var st' := S.XDel(st, j.entry);
        forall id: nat | id < |st'.log| ensures PayloadOk(st'.log[id], j.conv, s.minted) {
          assert PayloadOk(StreamOf(s.streams, j.conv).log[id], j.conv, s.minted);
        }
        StreamStepOk(cfg, s, j.conv, st');
        HaltOk(cfg, s.(streams := s.streams[j.conv := st']), i);
      }
    }
  }

  // ------------------------------------------------------------------ a new handler invocation

  lemma JobsMore(streams: map<Uuid, S.Stream>, jobs: seq<Job>, j: Job)
    requires JobsOk(streams, jobs) && JobOk(streams, j)
    requires forall x | 0 <= x < |jobs| :: InOrder(jobs[x], j)
    ensures JobsOk(streams, jobs + [j])
  {
    var jobs' := jobs + [j];
    forall x | 0 <= x < |jobs'| ensures JobOk(streams, jobs'[x]) {
      if x < |jobs| { assert JobOk(streams, jobs[x]); }
    }
    forall x, y | 0 <= x < y < |jobs'| ensures InOrder(jobs'[x], jobs'[y]) {
      if y < |jobs| { assert InOrder(jobs[x], jobs[y]); } else { assert InOrder(jobs[x], j); }
    }
    forall c, id | c in streams && id in streams[c].acked ensures Handled(jobs', c, id) {
      assert Handled(jobs, c, id);
      var x :| HandledBy(jobs, x, c, id);
      assert HandledBy(jobs', x, c, id);
    }
  }

  lemma NumbersMore(jobs: seq<Job>, j: Job, counters: map<Uuid, nat>, msgs: map<Uuid, T.Row>, lives: map<Uuid, nat>)
    requires NumbersOk(jobs, counters, msgs, lives) && j.num.None? && !j.stored
    ensures NumbersOk(jobs + [j], counters, msgs, lives)
  {
    var jobs' := jobs + [j];
    forall c, n: nat | c in counters && 1 <= n <= counters[c] ensures Handed(jobs', lives, c, n) {
      assert Handed(jobs, lives, c, n);
      var x :| Holds(jobs, x, c, Life(lives, c), n);
      assert Holds(jobs', x, c, Life(lives, c), n);
    }
    forall m | m in msgs ensures RowOk(m, msgs[m], jobs', lives) {
      assert RowOk(m, msgs[m], jobs, lives);
    }
    forall x | 0 <= x < |jobs'|
      ensures NumberOk(jobs'[x], counters, lives)
      ensures RowThere(x, jobs'[x], msgs, lives)
    {
      if x < |jobs| { assert NumberOk(jobs[x], counters, lives) && RowThere(x, jobs[x], msgs, lives); }
    }
    forall x, y | 0 <= x < y < |jobs'| ensures OtherNumber(jobs'[x], jobs'[y]) {
      if y < |jobs| { assert OtherNumber(jobs[x], jobs[y]); }
    }
  }

  lemma JobListsMore(cfg: Config, s: Sys, j: Job)
    requires Inv(cfg, s) && j.tx.None? && j.num.None? && j.pc == AtBegin && !j.stored
    requires PcOk(cfg.shared, j) && SenderOk(j, s.minted, s.lives)
    ensures PcsOk(cfg.shared, s.jobs + [j])
    ensures SendersOk(s.jobs + [j], s.minted, s.lives)
    ensures TxOk(s.jobs + [j], s.locks, s.db.counters, s.db.parts, s.lives)
    ensures AcksOk(s.jobs + [j], s.acks)
  {
    var jobs := s.jobs + [j];
    forall x | 0 <= x < |jobs|
      ensures PcOk(cfg.shared, jobs[x])
      ensures SenderOk(jobs[x], s.minted, s.lives)
      ensures TxHeld(x, jobs[x], s.locks, s.db.counters, s.db.parts, s.lives)
    {
      if x < |s.jobs| { JobFacts(cfg, s, x); }
    }
    forall c | c in s.locks ensures LockOwned(c, s.locks[c], jobs) {
      assert LockOwned(c, s.locks[c], s.jobs);
    }
    forall x | 0 <= x < |s.acks| ensures AckOk(jobs, s.acks[x]) {
      assert AckOk(s.jobs, s.acks[x]);
    }
  }

  lemma ConnsMore(jobs: seq<Job>, j: Job, conns: map<nat, Conn>)
    requires ConnsOk(jobs, conns)
    ensures ConnsOk(jobs + [j], conns)
  {
    forall k | k in conns ensures ConnOk(jobs + [j], k, conns[k]) {
      assert ConnOk(jobs, k, conns[k]);
      forall x | 0 <= x < |conns[k].accepted| ensures ChatOk(jobs + [j], k, conns[k], conns[k].accepted[x]) {
        assert ChatOk(jobs, k, conns[k], conns[k].accepted[x]);
      }
    }
  }

  lemma SerialMore(jobs: seq<Job>, j: Job, msgs: map<Uuid, T.Row>, now: Time)
    requires SerialOk(jobs, msgs, now) && !Busy(jobs, j.conv)
    requires j.num.None? && !Saving(j)
    ensures SerialOk(jobs + [j], msgs, now)
  {
    var jobs' := jobs + [j];
    forall x, y | 0 <= x < y < |jobs'| ensures Earlier(jobs'[x], jobs'[y]) {
      if y < |jobs| { assert Earlier(jobs[x], jobs[y]); }
    }
    forall x | 0 <= x < |jobs'| ensures Saving(jobs'[x]) ==> jobs'[x].began <= now {
      if x < |jobs| { assert Saving(jobs[x]) ==> jobs[x].began <= now; }
    }
    forall x, m | 0 <= x < |jobs'| && m in msgs ensures BeganAfter(jobs'[x], msgs[m]) {
      if x < |jobs| { assert BeganAfter(jobs[x], msgs[m]); }
    }
  }

  lemma DeliverOk(cfg: Config, s: Sys, c: Uuid, received: bool)
    requires Inv(cfg, s)
    ensures Inv(cfg, DoDeliver(cfg, s, c, received))
  {
    hide JobsOk, PcsOk, LivesOk, SendersOk, NumbersOk, TxOk, ConnsOk, AcksOk, SerialOk, ServedInOrder;
    if c in s.streams && !(cfg.serial && Busy(s.jobs, c)) && S.XReadGroup(s.streams[c]).Some? {
      var (st', id) := S.XReadGroup(s.streams[c]).value;
      OwnStream(s, c);
      S.XReadGroupOk(s.streams[c]);
      ReadOk(cfg, s, c, st', id, received, DoDeliver(cfg, s, c, received));
    }
  }

  lemma ReadOk(cfg: Config, s: Sys, c: Uuid, st': S.Stream, id: nat, received: bool, s': Sys)
    requires Inv(cfg, s) && c in s.streams && !(cfg.serial && Busy(s.jobs, c))
    requires S.XReadGroup(s.streams[c]) == Some((st', id)) && S.WellFormed(st') && id < |st'.log|
    requires S.Undelivered(s.streams[c], id)
    requires s' == if received
      then s.(streams := s.streams[c := st'],
              jobs := s.jobs + [Job(c, id, st'.log[id], AtBegin, 0, None, None, false, {})])
      else s.(streams := s.streams[c := st'])
    ensures Inv(cfg, s')
  {
    OwnStream(s, c);
    forall x: nat | x < |st'.log| ensures PayloadOk(st'.log[x], c, s.minted) {
      assert PayloadOk(StreamOf(s.streams, c).log[x], c, s.minted);
    }
    StreamStepOk(cfg, s, c, st');
    if received {
      assert PayloadOk(st'.log[id], c, s.minted);
      NewJobOk(cfg, s, s.(streams := s.streams[c := st']), Job(c, id, st'.log[id], AtBegin, 0, None, None, false, {}));
    }
  }

  lemma NewJobOk(cfg: Config, old_: Sys, s: Sys, j: Job)
    requires Inv(cfg, s) && JobOk(s.streams, j) && PayloadOk(j.payload, j.conv, s.minted)
    requires old_.jobs == s.jobs && JobsOk(old_.streams, s.jobs) && j.conv in old_.streams
    requires old_.streams[j.conv].cursor <= j.entry
    requires j.tx.None? && j.num.None? && j.pc == AtBegin && !j.stored
    requires cfg.serial ==> !Busy(s.jobs, j.conv)
    ensures Inv(cfg, s.(jobs := s.jobs + [j]))
  {
    forall x | 0 <= x < |s.jobs| ensures InOrder(s.jobs[x], j) {
      assert JobOk(old_.streams, s.jobs[x]);
    }
    JobsMore(s.streams, s.jobs, j);
    NumbersMore(s.jobs, j, s.db.counters, s.db.msgs, s.lives);
    JobListsMore(cfg, s, j);
    ConnsMore(s.jobs, j, s.conns);
    if cfg.serial { SerialMore(s.jobs, j, s.db.msgs, s.now); }
  }

  // ------------------------------------------------------------------ broadcast, ack, connections

  lemma EndBroadcastOk(cfg: Config, s: Sys, i: nat)
    requires Inv(cfg, s)
    ensures Inv(cfg, DoEndBroadcast(s, i))
  {
    hide Inv;
    if At(s, i, AtBroadcast) {
      JobFacts(cfg, s, i);
      MoveOk(cfg, s, i, s.jobs[i].(pc := AtSendAck));
    }
  }

  lemma SendAckOk(cfg: Config, s: Sys, i: nat)
    requires Inv(cfg, s)
    ensures Inv(cfg, DoSendAck(s, i))
  {
    hide Inv;
    if At(s, i, AtSendAck) && s.jobs[i].num.Some? {
      AckSentOk(cfg, s, i, s.jobs[i], DoSendAck(s, i).jobs[i], DoSendAck(s, i).acks[|s.acks|]);
    }
  }

  lemma AckSentOk(cfg: Config, s: Sys, i: nat, j: Job, j': Job, a: Ack)
    requires Inv(cfg, s) && At(s, i, AtSendAck) && j == s.jobs[i] && j.num.Some?
    requires j' == j.(pc := AtXAck) && a == Ack(i, j.payload.sender, j.payload.clientMsgId, j.num.value)
    ensures Inv(cfg, SetJob(s, i, j').(acks := s.acks + [a]))
  {
    hide StreamsOk, JobsOk, PcsOk, LivesOk, SendersOk, NumbersOk, TxOk, ConnsOk, SerialOk, ServedInOrder;
    JobFacts(cfg, s, i);
    MoveOk(cfg, s, i, j');
    AcksMore(s.jobs, s.jobs[i := j'], i, s.acks, a);
  }

  lemma AcksMore(old_: seq<Job>, jobs: seq<Job>, i: nat, acks: seq<Ack>, a: Ack)
    requires AcksOk(old_, acks) && AcksOk(jobs, acks) && i < |old_| && old_[i].pc == AtSendAck
    requires a.job == i && AckOk(jobs, a)
    ensures AcksOk(jobs, acks + [a])
  {
    var acks' := acks + [a];
    forall x | 0 <= x < |acks'| ensures AckOk(jobs, acks'[x]) {
      if x < |acks| { assert AckOk(jobs, acks[x]); }
    }
    forall x | 0 <= x < |acks| ensures acks[x].job != i {
      assert AckOk(old_, acks[x]);
    }
  }

  lemma SendToOk(cfg: Config, s: Sys, i: nat, k: nat)
    requires Inv(cfg, s)
    ensures Inv(cfg, DoSendTo(s, i, k))
  {
    hide Inv;
    var s' := DoSendTo(s, i, k);
    if s' != s { SentOk(cfg, s, i, k, s.jobs[i], s'.jobs[i], s'.conns[k], s'); }
  }

  lemma SentOk(cfg: Config, s: Sys, i: nat, k: nat, j: Job, j': Job, conn: Conn, s': Sys)
    requires Inv(cfg, s) && At(s, i, AtBroadcast) && j == s.jobs[i] && k in s.conns && j.num.Some?
    requires k !in j.served && s.conns[k].conv == j.conv && s.conns[k].sender != j.payload.sender
    requires |s.conns[k].accepted| < s.conns[k].taken + CHANNEL
    requires j' == j.(served := j.served + {k})
    requires conn == s.conns[k].(accepted := s.conns[k].accepted + [Chat(i, j.payload.sender, j.num.value)])
    requires s' == SetJob(s, i, j').(conns := s.conns[k := conn])
    ensures Inv(cfg, s')
  {
    JobFacts(cfg, s, i);
    MoveOk(cfg, s, i, j');
    ConnGrows(cfg, s, i, k, j, j', conn, SetJob(s, i, j'));
    OneConn(cfg, SetJob(s, i, j'), k, conn, s');
  }

  lemma ConnGrows(cfg: Config, s: Sys, i: nat, k: nat, j: Job, j': Job, conn: Conn, s1: Sys)
    requires Inv(cfg, s) && At(s, i, AtBroadcast) && j == s.jobs[i] && k in s.conns && j.num.Some? && j.stored
    requires k !in j.served && s.conns[k].conv == j.conv && s.conns[k].sender != j.payload.sender
    requires |s.conns[k].accepted| < s.conns[k].taken + CHANNEL
    requires j' == j.(served := j.served + {k})
    requires conn == s.conns[k].(accepted := s.conns[k].accepted + [Chat(i, j.payload.sender, j.num.value)])
    requires s1 == SetJob(s, i, j') && ConnsOk(s1.jobs, s1.conns)
    ensures ConnOk(s1.jobs, k, conn)
    ensures cfg.serial ==> forall x, y | 0 <= x < y < |conn.accepted| :: conn.accepted[x].job < conn.accepted[y].job
  {
    FirstTime(cfg, s, i, k);
    assert ConnOk(s1.jobs, k, s1.conns[k]);
    ConnMore(s1.jobs, k, s1.conns[k], Chat(i, j.payload.sender, j.num.value));
  }

  lemma OneConn(cfg: Config, s: Sys, k: nat, conn: Conn, s': Sys)
    requires Inv(cfg, s) && s' == s.(conns := s.conns[k := conn]) && ConnOk(s.jobs, k, conn)
    requires cfg.serial ==> forall x, y | 0 <= x < y < |conn.accepted| :: conn.accepted[x].job < conn.accepted[y].job
    ensures Inv(cfg, s')
  {
    ConnsUpdate(s.jobs, s.conns, k, conn);
  }

  /** The connection has nothing from this job yet; in serial mode it has only earlier jobs. */
  lemma FirstTime(cfg: Config, s: Sys, i: nat, k: nat)
    requires Inv(cfg, s) && At(s, i, AtBroadcast) && k in s.conns && k !in s.jobs[i].served
    requires s.conns[k].conv == s.jobs[i].conv
    ensures forall x | 0 <= x < |s.conns[k].accepted| ::
              && s.conns[k].accepted[x].job != i
              && (cfg.serial ==> s.conns[k].accepted[x].job < i)
  {
    var conn := s.conns[k];
    assert ConnOk(s.jobs, k, conn);
    forall x | 0 <= x < |conn.accepted|
      ensures conn.accepted[x].job != i && (cfg.serial ==> conn.accepted[x].job < i)
    {
      var h := conn.accepted[x].job;
      assert ChatOk(s.jobs, k, conn, conn.accepted[x]);
      assert cfg.serial && i < h ==> Earlier(s.jobs[i], s.jobs[h]);
    }
  }

  lemma ConnMore(jobs: seq<Job>, k: nat, conn: Conn, chat: Chat)
    requires ConnOk(jobs, k, conn) && ChatOk(jobs, k, conn, chat)
    requires |conn.accepted| < conn.taken + CHANNEL
    requires forall x | 0 <= x < |conn.accepted| :: conn.accepted[x].job != chat.job
    ensures ConnOk(jobs, k, conn.(accepted := conn.accepted + [chat]))
  {
    var conn' := conn.(accepted := conn.accepted + [chat]);
    forall x | 0 <= x < |conn'.accepted| ensures ChatOk(jobs, k, conn', conn'.accepted[x]) {
      if x < |conn.accepted| { assert ChatOk(jobs, k, conn, conn.accepted[x]); }
    }
  }

  lemma ConnsUpdate(jobs: seq<Job>, conns: map<nat, Conn>, k: nat, conn: Conn)
    requires ConnsOk(jobs, conns) && ConnOk(jobs, k, conn)
    ensures ConnsOk(jobs, conns[k := conn])
  {
    var conns' := conns[k := conn];
    forall h | h in conns' ensures ConnOk(jobs, h, conns'[h]) {
      if h != k { assert ConnOk(jobs, h, conns[h]); }
    }
  }

  lemma OpenOk(cfg: Config, s: Sys, k: nat, sender: Uuid)
    requires Inv(cfg, s)
    ensures Inv(cfg, DoOpen(s, k, sender))
  {
    if k !in s.conns && sender in s.minted {
      ConnsUpdate(s.jobs, s.conns, k, Conn(s.minted[sender].conv, sender, [], 0));
    }
  }

  lemma WriteOk(cfg: Config, s: Sys, k: nat)
    requires Inv(cfg, s)
    ensures Inv(cfg, DoWrite(s, k))
  {
    if k in s.conns && s.conns[k].taken < |s.conns[k].accepted| {
      var conn := s.conns[k];
      var conn' := conn.(taken := conn.taken + 1);
      assert ConnOk(s.jobs, k, conn);
      forall x | 0 <= x < |conn.accepted| ensures ChatOk(s.jobs, k, conn', conn.accepted[x]) {
        assert ChatOk(s.jobs, k, conn, conn.accepted[x]);
      }
      ConnsUpdate(s.jobs, s.conns, k, conn');
    }
  }
}
