/**
 The history window of internal/plugins/postgres/message.go:71-106: what it selects, and when that is
 the end of the conversation's log.
 */
module History {
  import opened Common
  import opened Machine
  import opened PipelineTheorems
  import T = Tables
  import S = Streams

  const WINDOW: Time := 60_000

  /** WHERE conversation_id = c AND created_at >= now() - interval '1 minutes' */
  predicate InWindow(db: T.Db, c: Uuid, now: Time, m: Uuid) {
    m in db.msgs && db.msgs[m].conv == c && db.msgs[m].createdAt >= now - WINDOW
  }

  /** The UNIQUE (conversation_id, seq) constraint for conversation c. */
  ghost predicate SeqsUnique(db: T.Db, c: Uuid) {
    forall m, n | m in db.msgs && n in db.msgs && m != n && db.msgs[m].conv == c && db.msgs[n].conv == c ::
      db.msgs[m].seqNo != db.msgs[n].seqNo
  }

  /** A message as it is returned to the reader. */
  datatype Shown = Shown(id: Uuid, row: T.Row)

  function Ids(list: seq<Shown>): (ids: seq<Uuid>)
    ensures |ids| == |list| && forall i | 0 <= i < |list| :: ids[i] == list[i].id
  {
    seq(|list|, i requires 0 <= i < |list| => list[i].id)
  }

  /** ids lists the rows of the window, all of them, ORDER BY seq. */
  ghost predicate IsWindow(db: T.Db, c: Uuid, now: Time, ids: seq<Uuid>) {
    && (forall i | 0 <= i < |ids| :: InWindow(db, c, now, ids[i]))
    && (forall m | InWindow(db, c, now, m) :: m in ids)
    && (forall i, j | 0 <= i < j < |ids| :: ids[i] != ids[j] && db.msgs[ids[i]].seqNo <= db.msgs[ids[j]].seqNo)
  }

  /** The window is one minute long, its oldest moment included. */
  lemma WindowIsMinute(db: T.Db, c: Uuid, now: Time, ids: seq<Uuid>)
    requires IsWindow(db, c, now, ids)
    ensures forall m :: m in ids <==> m in db.msgs && db.msgs[m].conv == c && db.msgs[m].createdAt >= now - 60_000
  {
    forall m ensures m in ids <==> InWindow(db, c, now, m) {
    }
  }

  /** Different messages in the order of their numbers. */
  ghost predicate InOrder(list: seq<Shown>) {
    forall i, j | 0 <= i < j < |list| :: list[i].id != list[j].id && list[i].row.seqNo <= list[j].row.seqNo
  }

  lemma OneMore(list: seq<Shown>, x: Shown, list': seq<Shown>)
    requires InOrder(list) && x.id !in Ids(list) && list' == list + [x]
    requires forall i | 0 <= i < |list| :: list[i].row.seqNo <= x.row.seqNo
    ensures InOrder(list') && Ids(list') == Ids(list) + [x.id]
  {
    forall i | 0 <= i < |list| ensures list[i].id != x.id {
      assert Ids(list)[i] == list[i].id;
    }
  }

  /** All rows of the window in order are the window. */
  lemma OrderedWindow(db: T.Db, c: Uuid, now: Time, list: seq<Shown>)
    requires InOrder(list) && forall m | InWindow(db, c, now, m) :: m in Ids(list)
    requires forall x | x in list :: InWindow(db, c, now, x.id) && x.row == db.msgs[x.id]
    ensures IsWindow(db, c, now, Ids(list))
  {
    var ids := Ids(list);
    forall i | 0 <= i < |ids| ensures InWindow(db, c, now, ids[i]) && list[i].row == db.msgs[ids[i]] {
      assert list[i] in list;
    }
  }

  /** Some row of a set has the least number. */
  lemma LeastExists(db: T.Db, todo: set<Uuid>)
    requires todo != {} && forall m | m in todo :: m in db.msgs
    ensures exists m :: m in todo && forall n | n in todo :: db.msgs[m].seqNo <= db.msgs[n].seqNo
  {
    var x :| x in todo;
    var rest := todo - {x};
    if rest == {} {
      assert todo == {x};
    } else {
      LeastExists(db, rest);
      var y :| y in rest && forall n | n in rest :: db.msgs[y].seqNo <= db.msgs[n].seqNo;
      var least := if db.msgs[x].seqNo <= db.msgs[y].seqNo then x else y;
      assert least in todo && forall n | n in todo :: db.msgs[least].seqNo <= db.msgs[n].seqNo;
    }
  }

  ghost predicate Belongs(db: T.Db, c: Uuid, m: Uuid) { m in db.msgs && db.msgs[m].conv == c }

  /** The rows in the window are the end of the log: every later row is in the window too. */
  ghost predicate Suffix(db: T.Db, c: Uuid, now: Time) {
    forall m, n {:trigger Belongs(db, c, m), Belongs(db, c, n)} |
      Belongs(db, c, m) && Belongs(db, c, n) && db.msgs[m].seqNo < db.msgs[n].seqNo ::
      InWindow(db, c, now, m) ==> InWindow(db, c, now, n)
  }

  /** The stamps of a conversation's rows follow their numbers. */
  ghost predicate StampsFollow(db: T.Db, c: Uuid) {
    forall m, n {:trigger Belongs(db, c, m), Belongs(db, c, n)} |
      Belongs(db, c, m) && Belongs(db, c, n) && db.msgs[m].seqNo < db.msgs[n].seqNo ::
      db.msgs[m].createdAt <= db.msgs[n].createdAt
  }

  /** The window is a suffix of the log at every moment exactly when the stamps follow the numbers. */
  lemma SuffixIff(db: T.Db, c: Uuid)
    ensures (forall now {:trigger Suffix(db, c, now)} :: Suffix(db, c, now)) <==> StampsFollow(db, c)
  {
    if forall now {:trigger Suffix(db, c, now)} :: Suffix(db, c, now) {
      forall m, n | Belongs(db, c, m) && Belongs(db, c, n) && db.msgs[m].seqNo < db.msgs[n].seqNo
        ensures db.msgs[m].createdAt <= db.msgs[n].createdAt
      {
        var now := db.msgs[m].createdAt + WINDOW;
        assert Suffix(db, c, now);
        assert InWindow(db, c, now, m);
      }
    }
  }

  /** With one handler at a time per stream, what a reader is shown is the end of the log, whenever it looks. */
  lemma WindowIsSuffix(cfg: Config, steps: seq<Step>, c: Uuid, now: Time)
    requires cfg.serial
    ensures StampsFollow(Reached(cfg, steps).db, c) && Suffix(Reached(cfg, steps).db, c, now)
  {
    var db := Reached(cfg, steps).db;
    forall m, n | Belongs(db, c, m) && Belongs(db, c, n) && db.msgs[m].seqNo < db.msgs[n].seqNo
      ensures db.msgs[m].createdAt <= db.msgs[n].createdAt
    {
      NumbersFollowStream(cfg, steps, m, n);
    }
    SuffixIff(db, c);
  }

  lemma SeqsAlwaysUnique(cfg: Config, steps: seq<Step>, c: Uuid)
    ensures SeqsUnique(Reached(cfg, steps).db, c)
  {
    var db := Reached(cfg, steps).db;
    forall m, n | m in db.msgs && n in db.msgs && m != n && db.msgs[m].conv == c && db.msgs[n].conv == c
      ensures db.msgs[m].seqNo != db.msgs[n].seqNo
    {
      RowsNumbered(cfg, steps, m);
    }
  }

  /**
   With effective transactions as well, the rows shown carry consecutive numbers that end with
   last_seq: nothing is missing between the first row shown and the present.
   */
  lemma WindowIsGapFree(cfg: Config, steps: seq<Step>, c: Uuid, now: Time, ids: seq<Uuid>)
    requires cfg.serial && cfg.shared && c in Reached(cfg, steps).db.counters
    requires IsWindow(Reached(cfg, steps).db, c, now, ids)
    ensures var db := Reached(cfg, steps).db;
      forall i | 0 <= i < |ids| :: db.msgs[ids[i]].seqNo + (|ids| - 1 - i) == db.counters[c]
  {
    var db := Reached(cfg, steps).db;
    WindowIsSuffix(cfg, steps, c, now);
    SeqsAlwaysUnique(cfg, steps, c);
    ReachedOk(cfg, steps);
    RowsBelowCounter(Reached(cfg, steps), c);
    forall n: nat {:trigger T.SeqTaken(db, c, n)} | 1 <= n <= db.counters[c] ensures T.SeqTaken(db, c, n) {
      GapFree(cfg, steps, c, n);
    }
    Consecutive(db, c, now, ids, 0);
  }

  lemma Consecutive(db: T.Db, c: Uuid, now: Time, ids: seq<Uuid>, from: nat)
    requires c in db.counters && IsWindow(db, c, now, ids) && Suffix(db, c, now) && SeqsUnique(db, c)
    requires forall n: nat {:trigger T.SeqTaken(db, c, n)} | 1 <= n <= db.counters[c] :: T.SeqTaken(db, c, n)
    requires forall m | m in db.msgs && db.msgs[m].conv == c :: db.msgs[m].seqNo <= db.counters[c]
    requires from <= |ids|
    ensures forall i | from <= i < |ids| :: db.msgs[ids[i]].seqNo + (|ids| - 1 - i) == db.counters[c]
    decreases |ids| - from
  {
    if from < |ids| {
      Consecutive(db, c, now, ids, from + 1);
      NextShown(db, c, now, ids, from);
    }
  }

  /** The row after a row shown is shown next; after the last one there is none. */
  lemma NextShown(db: T.Db, c: Uuid, now: Time, ids: seq<Uuid>, i: nat)
    requires c in db.counters && IsWindow(db, c, now, ids) && Suffix(db, c, now) && SeqsUnique(db, c)
    requires forall n: nat {:trigger T.SeqTaken(db, c, n)} | 1 <= n <= db.counters[c] :: T.SeqTaken(db, c, n)
    requires forall m | m in db.msgs && db.msgs[m].conv == c :: db.msgs[m].seqNo <= db.counters[c]
    requires i < |ids|
    ensures db.msgs[ids[i]].seqNo == if i + 1 < |ids| then db.msgs[ids[i + 1]].seqNo - 1 else db.counters[c]
  {
    var n := db.msgs[ids[i]].seqNo + 1;
    assert InWindow(db, c, now, ids[i]) && Belongs(db, c, ids[i]);
    if n <= db.counters[c] {
      assert T.SeqTaken(db, c, n);
      var m :| m in db.msgs && db.msgs[m].conv == c && db.msgs[m].seqNo == n;
      assert Belongs(db, c, m) && InWindow(db, c, now, m);
      var j :| 0 <= j < |ids| && ids[j] == m;
      assert i < j;
    }
    if i + 1 < |ids| {
      assert InWindow(db, c, now, ids[i + 1]) && ids[i] != ids[i + 1];
    }
  }

  // ------------------------------------------------------------------ overlapping handlers

  const OVERLAP: Config := Config(false, false)

  const FIRST := S.Payload("m", 7, 1, "x", 0)
  const SECOND := S.Payload("n", 7, 1, "y", 0)

  /** Conversation 7 with participant 1 and two published messages. */
  function World(st: S.Stream, jobs: seq<Job>, msgs: map<Uuid, T.Row>, last: nat, now: Time): Sys {
    Sys(T.Db(map[7 := 0], map[7 := last], map[1 := T.Participant("u", 7, 0, 0, None)], msgs),
        map[7 := st], jobs, [], map[], map[], map[], map[1 := Mint(7, 0)], now)
  }

  function Queued(log: seq<S.Payload>, entries: seq<nat>, cursor: nat, pending: set<nat>): S.Stream {
    S.Stream(log, entries, true, cursor, pending, {}, {})
  }

  function Handler(entry: nat, p: S.Payload, pc: Pc, num: Option<Draw>, stored: bool): Job {
    Job(7, entry, p, pc, 0, None, num, stored, {})
  }

  const SETTLE: seq<Step> := [CreateConv(7), CreateCounter(7), Join(1, "u", 7), CreateGroup(7)]
  const PUBLISH: seq<Step> := [Publish(1, "x", "m", 0), Publish(1, "y", "n", 0)]
  const DELIVER: seq<Step> := [Deliver(7, true), Deliver(7, true)]
  const DRAW: seq<Step> := [Begin(0, true), Begin(1, true), DrawNumber(0, Fine), DrawNumber(1, Fine)]
  const INSERT: seq<Step> := [InsertRow(1, Fine), Tick(60_001), InsertRow(0, Fine)]

  const BOTH := Queued([FIRST, SECOND], [0, 1], 2, {0, 1})

  lemma Settles()
    ensures Run(OVERLAP, INIT, SETTLE) == World(Queued([], [], 0, {}), [], map[], 0, 0)
  {
    var s1 := Do(OVERLAP, INIT, CreateConv(7));
    var s2 := Do(OVERLAP, s1, CreateCounter(7));
    assert s2 == INIT.(db := T.Db(map[7 := 0], map[7 := 0], map[], map[]));
    Joins(s2);
    assert SETTLE[1..][1..] == [Join(1, "u", 7), CreateGroup(7)];
    assert Run(OVERLAP, s2, SETTLE[1..][1..]) == World(Queued([], [], 0, {}), [], map[], 0, 0);
  }

  lemma Joins(s: Sys)
    requires s == INIT.(db := T.Db(map[7 := 0], map[7 := 0], map[], map[]))
    ensures Run(OVERLAP, s, [Join(1, "u", 7), CreateGroup(7)]) == World(Queued([], [], 0, {}), [], map[], 0, 0)
  {
    var s3 := Do(OVERLAP, s, Join(1, "u", 7));
    assert s3.db.parts == map[1 := T.Participant("u", 7, 0, 0, None)];
    assert [Join(1, "u", 7), CreateGroup(7)][1..] == [CreateGroup(7)];
    assert Run(OVERLAP, s3, [CreateGroup(7)]) == Do(OVERLAP, s3, CreateGroup(7));
  }

  lemma Publishes()
    ensures Run(OVERLAP, World(Queued([], [], 0, {}), [], map[], 0, 0), PUBLISH)
            == World(Queued([FIRST, SECOND], [0, 1], 0, {}), [], map[], 0, 0)
  {
    Published([], [], FIRST, "x", "m", [FIRST], [0]);
    Published([FIRST], [0], SECOND, "y", "n", [FIRST, SECOND], [0, 1]);
    assert PUBLISH[1..] == [PUBLISH[1]];
  }

  lemma Published(log: seq<S.Payload>, entries: seq<nat>, p: S.Payload, text: string, m: string,
                  log': seq<S.Payload>, entries': seq<nat>)
    requires p == S.Payload(m, 7, 1, text, 0) && |entries| < 5
    requires log' == log + [p] && entries' == entries + [|log|]
    ensures Do(OVERLAP, World(Queued(log, entries, 0, {}), [], map[], 0, 0), Publish(1, text, m, 0))
            == World(Queued(log', entries', 0, {}), [], map[], 0, 0)
  {
    var s := World(Queued(log, entries, 0, {}), [], map[], 0, 0);
    var s' := Do(OVERLAP, s, Publish(1, text, m, 0));
    assert s'.streams == map[7 := Queued(log', entries', 0, {})];
  }

  lemma Delivers()
    ensures Run(OVERLAP, World(Queued([FIRST, SECOND], [0, 1], 0, {}), [], map[], 0, 0), DELIVER)
            == World(BOTH, Pair(AtBegin, None, AtBegin, None, false), map[], 0, 0)
  {
    var log := [FIRST, SECOND];
    assert [0, 1][1..] == [1];
    assert S.FirstNew([0, 1], 1) == Some(1);
    Delivered(0, {}, []);
    Delivered(1, {0}, [Handler(0, FIRST, AtBegin, None, false)]);
    assert {} + {0} == {0} && {0} + {1} == {0, 1};
    assert DELIVER[1..] == [DELIVER[1]];
  }

  lemma Delivered(x: nat, pending: set<nat>, jobs: seq<Job>)
    requires x < 2 && S.FirstNew([0, 1], x) == Some(x)
    ensures
      var log := [FIRST, SECOND];
      Do(OVERLAP, World(Queued(log, [0, 1], x, pending), jobs, map[], 0, 0), Deliver(7, true))
        == World(Queued(log, [0, 1], x + 1, pending + {x}),
                 jobs + [Handler(x, log[x], AtBegin, None, false)], map[], 0, 0)
  {
    var log := [FIRST, SECOND];
    var s := World(Queued(log, [0, 1], x, pending), jobs, map[], 0, 0);
    var s' := Do(OVERLAP, s, Deliver(7, true));
    assert s'.streams == map[7 := Queued(log, [0, 1], x + 1, pending + {x})];
  }

  function Pair(pc: Pc, num: Option<Draw>, pc': Pc, num': Option<Draw>, stored': bool): seq<Job> {
    [Handler(0, FIRST, pc, num, false), Handler(1, SECOND, pc', num', stored')]
  }

  lemma Draws()
    ensures Run(OVERLAP, World(BOTH, Pair(AtBegin, None, AtBegin, None, false), map[], 0, 0), DRAW)
            == World(BOTH, Pair(AtInsert, Some(Draw(0, 1)), AtInsert, Some(Draw(0, 2)), false), map[], 2, 0)
  {
    var s := World(BOTH, Pair(AtBegin, None, AtBegin, None, false), map[], 0, 0);
    var s1 := DoBegin(s, 0, true);
    assert s1.jobs == Pair(AtDraw, None, AtBegin, None, false);
    var s2 := DoBegin(s1, 1, true);
    assert s2.jobs == Pair(AtDraw, None, AtDraw, None, false);
    var s3 := DoDraw(OVERLAP, s2, 0, Fine);
    assert s3 == World(BOTH, Pair(AtInsert, Some(Draw(0, 1)), AtDraw, None, false), map[], 1, 0);
    var s4 := DoDraw(OVERLAP, s3, 1, Fine);
    assert s4 == World(BOTH, Pair(AtInsert, Some(Draw(0, 1)), AtInsert, Some(Draw(0, 2)), false), map[], 2, 0);
    assert DRAW[1..][1..][1..] == [DRAW[3]];
  }

  lemma Inserts()
    ensures
      var s := World(BOTH, Pair(AtInsert, Some(Draw(0, 1)), AtInsert, Some(Draw(0, 2)), false), map[], 2, 0);
      Run(OVERLAP, s, INSERT).db.msgs == map[0 := T.Row(7, 1, 1, "x", 60_001), 1 := T.Row(7, 1, 2, "y", 0)]
  {
    var s := World(BOTH, Pair(AtInsert, Some(Draw(0, 1)), AtInsert, Some(Draw(0, 2)), false), map[], 2, 0);
    var s1 := DoInsert(OVERLAP, s, 1, Fine);
    assert s1.db.msgs == map[1 := T.Row(7, 1, 2, "y", 0)];
    assert INSERT[1..][1..] == [INSERT[2]];
  }

  lemma FiveRuns(cfg: Config, s: Sys, a: seq<Step>, b: seq<Step>, c: seq<Step>, d: seq<Step>, e: seq<Step>)
    ensures Run(cfg, s, a + b + c + d + e) == Run(cfg, Run(cfg, Run(cfg, Run(cfg, Run(cfg, s, a), b), c), d), e)
  {
    RunAppend(cfg, s, a, b);
    RunAppend(cfg, s, a + b, c);
    RunAppend(cfg, s, a + b + c, d);
    RunAppend(cfg, s, a + b + c + d, e);
  }

  lemma Races(steps: seq<Step>)
    requires steps == SETTLE + PUBLISH + DELIVER + DRAW + INSERT
    ensures Reached(OVERLAP, steps).db.msgs == map[0 := T.Row(7, 1, 1, "x", 60_001), 1 := T.Row(7, 1, 2, "y", 0)]
  {
    FiveRuns(OVERLAP, INIT, SETTLE, PUBLISH, DELIVER, DRAW, INSERT);
    Settles();
    Publishes();
    Delivers();
    Draws();
    Inserts();
  }

  /**
   When two handlers of a stream overlap, the window can show a row and leave out a later one: the
   first handler draws number 1, the second draws and stores number 2, and more than a minute later
   number 1 is stored.
   */
  lemma OverlapBreaksWindow()
    ensures exists steps, now :: !Suffix(Reached(OVERLAP, steps).db, 7, now)
  {
    var steps := SETTLE + PUBLISH + DELIVER + DRAW + INSERT;
    Races(steps);
    var db := Reached(OVERLAP, steps).db;
    assert Belongs(db, 7, 0) && Belongs(db, 7, 1);
    assert !Suffix(db, 7, 120_000);
  }
}
