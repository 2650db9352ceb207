/**
 The pipeline as an append-only log, for all interleavings: over a calm run the rows of a conversation
 grow by exactly the entries delivered since, in stream order.
 */
module CalmLogs {
  import opened Common
  import opened Machine
  import opened Invariants
  import opened Draining
  import opened TableSteps
  import opened PipelineTheorems
  import opened CalmRuns
  import Moves
  import JobSteps
  import T = Tables
  import S = Streams

  lemma {:induction false} LinesAt(log: seq<S.Payload>, ids: seq<nat>)
    requires forall k | 0 <= k < |ids| :: ids[k] < |log|
    ensures |Lines(log, ids)| == |ids|
    ensures forall k | 0 <= k < |ids| :: Lines(log, ids)[k] == Line(log[ids[k]].sender, log[ids[k]].text)
  {
    if ids != [] {
      assert forall k | 0 <= k < |ids[1..]| :: ids[1..][k] == ids[k + 1];
      LinesAt(log, ids[1..]);
    }
  }

  lemma {:induction false} IdsPrefix(gone: set<nat>, from: nat, x: nat, n: nat)
    requires from <= x <= n
    ensures Ids(gone, from, x) <= Ids(gone, from, n)
    decreases n - x
  {
    if x < n {
      if x in gone { IdsSame(gone, from, x); } else { IdsNext(gone, from, x); }
      IdsPrefix(gone, from, x + 1, n);
    }
  }

  /** Position |Ids(x)| of the list holds x. */
  lemma IdsIndex(gone: set<nat>, from: nat, n: nat, x: nat)
    requires from <= x < n && x !in gone
    ensures |Ids(gone, from, x)| < |Ids(gone, from, n)| && Ids(gone, from, n)[|Ids(gone, from, x)|] == x
  {
    IdsNext(gone, from, x);
    IdsPrefix(gone, from, x + 1, n);
  }

  lemma {:induction false} IndexOfId(gone: set<nat>, from: nat, n: nat, k: nat)
    requires k < |Ids(gone, from, n)|
    ensures
      var x := Ids(gone, from, n)[k];
      from <= x < n && x !in gone && |Ids(gone, from, x)| == k
    decreases n
  {
    if k < |Ids(gone, from, n - 1)| {
      IndexOfId(gone, from, n - 1, k);
      assert Ids(gone, from, n)[k] == Ids(gone, from, n - 1)[k];
    }
  }

  /** What was delivered since the origin, as lines of a log. */
  function DeliveredSince(st: S.Stream, o: Origin): seq<Line>
    requires st.cursor <= |st.log|
  {
    Lines(st.log, Ids(o.gone, o.from, st.cursor))
  }

  /**
   The rows of c in db are those in rows and one more for every line: line k has the number base + k + 1.
   */
  ghost predicate Grown(rows: map<Uuid, T.Row>, db: T.Db, c: Uuid, base: nat, lines: seq<Line>) {
    && c in db.counters && db.counters[c] == base + |lines|
    && (forall k: nat {:trigger LineAt(db, c, base, lines, k)} | k < |lines| :: LineAt(db, c, base, lines, k))
    && (forall m: Uuid | RowOfConv(rows, m, c) :: RowOfConv(db.msgs, m, c) && db.msgs[m] == rows[m])
    && (forall m: Uuid | RowOfConv(db.msgs, m, c) :: RowOfConv(rows, m, c) || NewRow(db.msgs[m], c, base, lines))
  }

  /** A calm moment of the conversation: nothing of it is running and nothing has been lost since the origin. */
  ghost predicate CalmNow(s: Sys, o: Origin) {
    && o.conv in s.streams && s.streams[o.conv].dropped == o.gone && !Busy(s.jobs, o.conv)
    && o.conv in s.db.counters && s.streams[o.conv].cursor <= |s.streams[o.conv].log|
  }

  lemma NewRowIsLine(cfg: Config, s: Sys, o: Origin, m: Uuid)
    requires Inv(cfg, s) && CalmInv(s, o) && CalmNow(s, o) && RowOfConv(s.db.msgs, m, o.conv) && m >= o.jobs
    ensures NewRow(s.db.msgs[m], o.conv, o.base, DeliveredSince(s.streams[o.conv], o))
  {
    hide StreamsOk, PcsOk, LivesOk, SendersOk, TxOk, ConnsOk, AcksOk, SerialOk, ServedInOrder, Ids;
    var st := s.streams[o.conv];
    var ids := Ids(o.gone, o.from, st.cursor);
    LinesAt(st.log, ids);
    assert RowOk(m, s.db.msgs[m], s.jobs, s.lives);
    var j := s.jobs[m];
    assert JobOk(s.streams, j) && Steady(j, m, st, o);
    EntryKept(cfg, s, o, m);
    IdsIndex(o.gone, o.from, st.cursor, j.entry);
  }

  /** The entry of a job of the run was not lost before. */
  lemma EntryKept(cfg: Config, s: Sys, o: Origin, i: nat)
    requires StreamsOk(s.streams, s.minted) && JobsOk(s.streams, s.jobs) && i < |s.jobs|
    requires s.jobs[i].conv == o.conv && StreamOf(s.streams, o.conv).dropped == o.gone
    ensures s.jobs[i].entry !in o.gone
  {
    assert JobOk(s.streams, s.jobs[i]) && S.WellFormed(s.streams[o.conv]);
    assert s.jobs[i].entry in s.streams[o.conv].pending + s.streams[o.conv].acked;
  }

  lemma IdIsStored(cfg: Config, s: Sys, o: Origin, x: nat)
    requires Inv(cfg, s) && CalmInv(s, o) && CalmNow(s, o)
    requires o.from <= x < s.streams[o.conv].cursor && x !in o.gone
    ensures x in s.streams[o.conv].acked && (o.tidy ==> x !in s.streams[o.conv].entries)
    ensures
      var p := s.streams[o.conv].log[x];
      RowAt(s.db, o.conv, NumberOf(o, x), Line(p.sender, p.text))
  {
    var st := s.streams[o.conv];
    assert HasJob(s.jobs, o, x);
    var i: nat :| IsJob(s.jobs, i, o, x);
    JobSteps.JobFacts(cfg, s, i);
    assert Steady(s.jobs[i], i, st, o) && RowThere(i, s.jobs[i], s.db.msgs, s.lives);
    LifeIsPresent(cfg, s, o, i);
    assert RowOk(i, s.db.msgs[i], s.jobs, s.lives);
    assert IsRow(s.db, i, o.conv, NumberOf(o, x), Line(st.log[x].sender, st.log[x].text));
  }

  /** A stored job of the run has its number from the present life. */
  lemma LifeIsPresent(cfg: Config, s: Sys, o: Origin, i: nat)
    requires Inv(cfg, s) && CalmInv(s, o) && CalmNow(s, o)
    requires o.jobs <= i < |s.jobs| && s.jobs[i].conv == o.conv && s.jobs[i].num.Some?
    ensures s.jobs[i].num.value.life == Life(s.lives, o.conv)
  {
    var st := s.streams[o.conv];
    var j := s.jobs[i];
    JobSteps.JobFacts(cfg, s, i);
    assert Steady(j, i, st, o);
    EntryKept(cfg, s, o, i);
    assert SenderHere(st.log, s.db.parts, o, j.entry);
    assert j.payload.sender in s.db.parts;
  }

  lemma LastNumber(cfg: Config, s: Sys, o: Origin, lines: seq<Line>)
    requires Inv(cfg, s) && CalmInv(s, o) && CalmNow(s, o) && lines == DeliveredSince(s.streams[o.conv], o)
    ensures s.db.counters[o.conv] == o.base + |lines|
  {
    LinesAt(s.streams[o.conv].log, Ids(o.gone, o.from, s.streams[o.conv].cursor));
    QuietDrawn(cfg, s, o);
  }

  lemma LineStored(cfg: Config, s: Sys, o: Origin, lines: seq<Line>, k: nat)
    requires Inv(cfg, s) && CalmInv(s, o) && CalmNow(s, o) && lines == DeliveredSince(s.streams[o.conv], o)
    requires k < |lines|
    ensures LineAt(s.db, o.conv, o.base, lines, k)
  {
    hide RowAt;
    var st := s.streams[o.conv];
    var ids := Ids(o.gone, o.from, st.cursor);
    LinesAt(st.log, ids);
    IndexOfId(o.gone, o.from, st.cursor, k);
    IdIsStored(cfg, s, o, ids[k]);
    RowIsLine(s.db, o.conv, o.base, lines, k, NumberOf(o, ids[k]), Line(st.log[ids[k]].sender, st.log[ids[k]].text));
  }

  lemma RowIsLine(db: T.Db, c: Uuid, base: nat, lines: seq<Line>, k: nat, n: nat, line: Line)
    requires k < |lines| && n == base + k + 1 && line == lines[k] && RowAt(db, c, n, line)
    ensures LineAt(db, c, base, lines, k)
  {
  }

  lemma SinceLog(cfg: Config, s: Sys, o: Origin, lines: seq<Line>)
    requires Inv(cfg, s) && CalmInv(s, o) && CalmNow(s, o) && lines == DeliveredSince(s.streams[o.conv], o)
    ensures Grown(o.rows, s.db, o.conv, o.base, lines)
    ensures EntriesAre(s.streams[o.conv], o)
  {
    LastNumber(cfg, s, o, lines);
    forall k: nat | k < |lines| ensures LineAt(s.db, o.conv, o.base, lines, k) {
      LineStored(cfg, s, o, lines, k);
    }
    RowsGrown(cfg, s, o, lines);
    EntriesDone(cfg, s, o);
  }

  /** Nothing delivered since the origin is pending or, in a tidy run, still in the stream. */
  ghost predicate EntriesAre(st: S.Stream, o: Origin) {
    && (forall x | x in st.pending :: x < o.from)
    && (o.tidy ==> forall x | x in st.entries :: x < o.from || x >= st.cursor)
  }

  lemma RowsGrown(cfg: Config, s: Sys, o: Origin, lines: seq<Line>)
    requires Inv(cfg, s) && CalmInv(s, o) && CalmNow(s, o) && lines == DeliveredSince(s.streams[o.conv], o)
    ensures forall m: Uuid | RowOfConv(o.rows, m, o.conv) ::
      RowOfConv(s.db.msgs, m, o.conv) && s.db.msgs[m] == o.rows[m]
    ensures forall m: Uuid | RowOfConv(s.db.msgs, m, o.conv) ::
      RowOfConv(o.rows, m, o.conv) || NewRow(s.db.msgs[m], o.conv, o.base, lines)
  {
    forall m: Uuid | RowOfConv(o.rows, m, o.conv)
      ensures RowOfConv(s.db.msgs, m, o.conv) && s.db.msgs[m] == o.rows[m]
    {
      assert RowKept(s.db.msgs, o, m);
    }
    forall m: Uuid | RowOfConv(s.db.msgs, m, o.conv)
      ensures RowOfConv(o.rows, m, o.conv) || NewRow(s.db.msgs[m], o.conv, o.base, lines)
    {
      if m < o.jobs { assert RowKept(s.db.msgs, o, m); } else { NewRowIsLine(cfg, s, o, m); }
    }
  }

  lemma EntriesDone(cfg: Config, s: Sys, o: Origin)
    requires Inv(cfg, s) && CalmInv(s, o) && CalmNow(s, o)
    ensures EntriesAre(s.streams[o.conv], o)
  {
    var st := s.streams[o.conv];
    assert S.WellFormed(st);
    forall x | x in st.pending ensures x < o.from {
      assert x in st.pending + st.acked;
      if x >= o.from { IdIsStored(cfg, s, o, x); }
    }
    if o.tidy {
      forall x | x in st.entries ensures x < o.from || x >= st.cursor {
        if o.from <= x < st.cursor { IdIsStored(cfg, s, o, x); }
      }
    }
  }

  // ------------------------------------------------------------------ the theorems

  /**
   Whatever happened before: take any moment at which no handler of c is running and the senders of its
   unread entries are there, and any continuation in which, for c, no fault and no crash hits a handler,
   only present senders publish, and nothing is deleted or trimmed undelivered. Whenever no handler of c is
   running, the rows of c are the old ones and exactly one for every entry delivered since, in stream order,
   numbered consecutively after the old last_seq; none of those entries is pending, and none is left in the
   stream if the XDELs went through.
   */
  lemma CalmSince(cfg: Config, before: seq<Step>, steps: seq<Step>, c: Uuid, tidy: bool)
    requires cfg.serial && !Busy(Reached(cfg, before).jobs, c) && ReadySenders(Reached(cfg, before), c)
    requires CalmRun(cfg, Reached(cfg, before), steps, c, tidy) && PresentRun(cfg, Reached(cfg, before), steps, c)
    requires CalmNow(Reached(cfg, before + steps), OriginOf(Reached(cfg, before), c, tidy))
    ensures
      var s0, s := Reached(cfg, before), Reached(cfg, before + steps);
      var o := OriginOf(s0, c, tidy);
      && o.from <= s.streams[c].cursor
      && Grown(s0.db.msgs, s.db, c, Count(s0.db.counters, c), DeliveredSince(s.streams[c], o))
      && EntriesAre(s.streams[c], o)
  {
    var s0 := Reached(cfg, before);
    var o := OriginOf(s0, c, tidy);
    ReachedOk(cfg, before);
    QuietOrigin(cfg, s0, c, tidy);
    RunCalm(cfg, s0, steps, o);
    RunAppend(cfg, INIT, before, steps);
    var s := Reached(cfg, before + steps);
    SinceLog(cfg, s, o, DeliveredSince(s.streams[c], o));
  }

  // From the empty system: everybody who was ever minted in c is there, so only present senders publish.

  ghost predicate Here(s: Sys, c: Uuid, p: Uuid) {
    p in s.minted && s.minted[p].conv == c ==> p in s.db.parts
  }

  ghost predicate AllHere(s: Sys, c: Uuid) {
    forall p {:trigger Here(s, c, p)} :: Here(s, c, p)
  }

  lemma AllStay(cfg: Config, s: Sys, step: Step, s': Sys, c: Uuid, tidy: bool)
    requires Inv(cfg, s) && s' == Do(cfg, s, step) && AllHere(s, c) && Calm(s, step, c, tidy)
    ensures AllHere(s', c)
  {
    if OfHandler(step) {
      Moves.HandlerLeaves(cfg, s, step, s');
      forall p ensures Here(s', c, p) {
        assert Here(s, c, p);
      }
    } else {
      OtherTables(cfg, s, step, s', c);
      forall p ensures Here(s', c, p) {
        assert Here(s, c, p);
        MintedPresent(cfg, s, step, s', c, p);
      }
    }
  }

  lemma MintedPresent(cfg: Config, s: Sys, step: Step, s': Sys, c: Uuid, p: Uuid)
    requires LivesOk(s.db, s.minted, s.lives) && !OfHandler(step) && s' == DoOther(cfg, s, step)
    requires KeepsTables(s, s', c) && Here(s, c, p)
    ensures Here(s', c, p)
  {
    if step.Join? { JoinPresent(s, step.id, step.user, step.c, s', c, p); } else { assert s'.minted == s.minted; }
  }

  lemma JoinPresent(s: Sys, id: Uuid, user: string, d: Uuid, s': Sys, c: Uuid, p: Uuid)
    requires s' == DoJoin(s, id, user, d) && Here(s, c, p)
    ensures Here(s', c, p)
  {
  }

  lemma {:induction false} AllPresent(cfg: Config, s: Sys, steps: seq<Step>, c: Uuid, tidy: bool)
    requires Inv(cfg, s) && AllHere(s, c) && CalmRun(cfg, s, steps, c, tidy)
    ensures PresentRun(cfg, s, steps, c)
    decreases |steps|
  {
    if steps != [] {
      var s1 := Do(cfg, s, steps[0]);
      assert steps[0].Publish? ==> Here(s, c, steps[0].sender);
      AllStay(cfg, s, steps[0], s1, c, tidy);
      StepOk(cfg, s, steps[0]);
      AllPresent(cfg, s1, steps[1..], c, tidy);
    }
  }

  function UpTo(n: nat): (r: seq<nat>)
    ensures |r| == n && forall k | 0 <= k < n :: r[k] == k
  {
    seq(n, k => k)
  }

  lemma {:induction false} IdsAll(n: nat)
    ensures Ids({}, 0, n) == UpTo(n)
  {
    if n > 0 { IdsAll(n - 1); }
  }

  /** The delivered part of c's stream, as lines of a log. */
  function Delivered(st: S.Stream): seq<Line>
    requires st.cursor <= |st.log|
  {
    Lines(st.log, UpTo(st.cursor))
  }

  lemma GrownFromNothing(db: T.Db, c: Uuid, lines: seq<Line>)
    requires Grown(map[], db, c, 0, lines)
    ensures IsLog(db, c, lines)
  {
    assert forall m: Uuid | RowOfConv(db.msgs, m, c) :: NewRow(db.msgs[m], c, 0, lines);
    forall m | m in db.msgs && db.msgs[m].conv == c ensures NewRow(db.msgs[m], c, 0, lines) {
      assert RowOfConv(db.msgs, m, c);
    }
  }

  /**
   From the empty system on: in every run that has been calm for c from its beginning, whenever no handler of
   c is running, the k-th entry published is the row with number k for every delivered entry, there is no other
   row, and nothing is pending. When nothing is undelivered that is all that was published; if the XDELs went
   through as well, the stream holds exactly what is undelivered.
   */
  lemma CalmLog(cfg: Config, steps: seq<Step>, c: Uuid, tidy: bool)
    requires cfg.serial && CalmRun(cfg, INIT, steps, c, tidy)
    requires CalmNow(Reached(cfg, steps), OriginOf(INIT, c, tidy))
    ensures
      var s := Reached(cfg, steps);
      var st := s.streams[c];
      && IsLog(s.db, c, Delivered(st)) && st.pending == {}
      && (Unread(st.entries, st.cursor) == [] ==> st.cursor == |st.log|)
      && (tidy ==> forall x | x in st.entries :: x >= st.cursor)
  {
    hide Grown, IsLog, PresentRun, EntriesAre;
    hide JobsOk, PcsOk, LivesOk, SendersOk, NumbersOk, TxOk, ConnsOk, AcksOk, SerialOk, ServedInOrder;
    InitInv(cfg);
    AllPresent(cfg, INIT, steps, c, tidy);
    var s := Reached(cfg, steps);
    assert [] + steps == steps;
    CalmSince(cfg, [], steps, c, tidy);
    var st := s.streams[c];
    IdsAll(st.cursor);
    GrownFromNothing(s.db, c, Delivered(st));
    ReachedOk(cfg, steps);
    AllDelivered(s, c);
  }

  lemma AllDelivered(s: Sys, c: Uuid)
    requires StreamsOk(s.streams, s.minted) && c in s.streams && s.streams[c].dropped == {}
    ensures var st := s.streams[c]; Unread(st.entries, st.cursor) == [] ==> st.cursor == |st.log|
  {
    var st := s.streams[c];
    assert S.WellFormed(st);
    assert st.cursor < |st.log| ==> st.cursor in st.entries;
    assert st.cursor < |st.log| ==> st.cursor in Unread(st.entries, st.cursor);
  }
}
