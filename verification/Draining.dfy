/**
 The consumer loop drains a stream: without faults it appends exactly the unread payloads to the
 conversation's log, in stream order.
 */
module Draining {
  import opened Common
  import opened Handling
  import T = Tables
  import S = Streams

  /** Entries the group has not passed yet, oldest first. */
  function Unread(entries: seq<nat>, cursor: nat): (r: seq<nat>)
    ensures |r| <= |entries|
    ensures forall x :: x in r <==> x in entries && x >= cursor
  {
    if entries == [] then []
    else
      var rest := Unread(entries[1..], cursor);
      assert entries == [entries[0]] + entries[1..];
      if entries[0] >= cursor then [entries[0]] + rest else rest
  }

  lemma {:induction false} UnreadFirst(entries: seq<nat>, cursor: nat)
    ensures var u := Unread(entries, cursor);
      S.FirstNew(entries, cursor) == if u == [] then None else Some(u[0])
  {
    if entries != [] && entries[0] < cursor { UnreadFirst(entries[1..], cursor); }
  }

  lemma {:induction false} UnreadAll(entries: seq<nat>, cursor: nat)
    requires forall k | 0 <= k < |entries| :: entries[k] >= cursor
    ensures Unread(entries, cursor) == entries
  {
    if entries != [] { UnreadAll(entries[1..], cursor); }
  }

  lemma {:induction false} UnreadHead(entries: seq<nat>, cursor: nat)
    requires S.Ascending(entries) && entries != [] && entries[0] >= cursor
    ensures Unread(entries, cursor) == entries
    ensures Unread(entries, entries[0] + 1) == entries[1..]
    ensures S.Without(entries, entries[0]) == entries[1..]
    ensures Unread(entries[1..], entries[0] + 1) == entries[1..]
  {
    var rest := entries[1..];
    UnreadAll(rest, cursor);
    UnreadAll(rest, entries[0] + 1);
    WithoutAbsent(rest, entries[0]);
  }

  /** An entry that was passed long ago does not matter. */
  lemma UnreadSkips(first: nat, rest: seq<nat>, cursor: nat, id: nat)
    requires first < cursor <= id
    ensures Unread([first] + rest, cursor) == Unread(rest, cursor)
    ensures Unread([first] + rest, id + 1) == Unread(rest, id + 1)
    ensures Unread(S.Without([first] + rest, id), id + 1) == Unread(S.Without(rest, id), id + 1)
  {
    assert ([first] + rest)[1..] == rest;
    var kept := S.Without(rest, id);
    assert S.Without([first] + rest, id) == [first] + kept;
    assert ([first] + kept)[1..] == kept;
  }

  /** Moving the cursor past the first unread entry leaves the others unread, with or without the entry. */
  lemma {:induction false} UnreadRest(entries: seq<nat>, cursor: nat, id: nat)
    requires S.Ascending(entries) && S.FirstNew(entries, cursor) == Some(id)
    ensures Unread(entries, cursor) == [id] + Unread(entries, id + 1)
    ensures Unread(S.Without(entries, id), id + 1) == Unread(entries, id + 1)
  {
    if entries[0] >= cursor {
      UnreadHead(entries, cursor);
    } else {
      var rest := entries[1..];
      assert S.Ascending(rest);
      UnreadRest(rest, cursor, id);
      assert entries == [entries[0]] + rest;
      UnreadSkips(entries[0], rest, cursor, id);
    }
  }

  lemma {:induction false} WithoutAbsent(s: seq<nat>, id: nat)
    requires id !in s
    ensures S.Without(s, id) == s
  {
    if s != [] { WithoutAbsent(s[1..], id); }
  }

  // ------------------------------------------------------------------ one round

  /** Every read that is executed moves one entry on, whatever happens to its handler. */
  lemma ReadShrinks(shared: bool, db: T.Db, st: S.Stream, r: Round, st': S.Stream)
    requires S.WellFormed(st) && st.group && r.read != Refused && st' == OneRound(shared, db, st, r).1
    ensures
      var u := Unread(st.entries, st.cursor);
      && S.WellFormed(st') && st'.group && st'.log == st.log
      && Unread(st'.entries, st'.cursor) == (if u == [] then [] else u[1..])
  {
    UnreadFirst(st.entries, st.cursor);
    S.XReadGroupOk(st);
    if S.XReadGroup(st).Some? {
      var (st1, id) := S.XReadGroup(st).value;
      UnreadRest(st.entries, st.cursor, id);
      HandledStream(shared, db, st1, id, MessageOf(st1.log[id], r.id), r.now, r.faults);
      PastEntry(st1, st', id);
    }
  }

  lemma PastEntry(st1: S.Stream, st': S.Stream, id: nat)
    requires S.WellFormed(st1) && st1.cursor == id + 1
    requires st' == st1 || st' == S.XAck(st1, id) || st' == S.XDel(S.XAck(st1, id), id)
    requires Unread(S.Without(st1.entries, id), id + 1) == Unread(st1.entries, id + 1)
    ensures S.WellFormed(st') && st'.group == st1.group && st'.log == st1.log
    ensures Unread(st'.entries, st'.cursor) == Unread(st1.entries, id + 1)
  {
    S.XAckOk(st1, id);
    S.XDelOk(S.XAck(st1, id), id);
  }

  /** What a handler can do to the stream. */
  lemma HandledStream(shared: bool, db: T.Db, st: S.Stream, id: nat, m: Message, now: Time, f: Faults)
    ensures var st' := Handle(shared, db, st, id, m, now, f).1;
      st' == st || st' == S.XAck(st, id) || st' == S.XDel(S.XAck(st, id), id)
  {
  }

  /** The next save of this message will succeed. */
  ghost predicate Savable(db: T.Db, c: Uuid, p: S.Payload) {
    p.conv == c && p.sender in db.parts
  }

  /** The conversation is initialised and no row lies above its counter. */
  ghost predicate Sound(db: T.Db, c: Uuid) {
    && c != NIL && c in db.convs && c in db.counters
    && forall m | m in db.msgs && db.msgs[m].conv == c :: db.msgs[m].seqNo <= db.counters[c]
  }

  /** The tables after storing payload p with the next number. */
  function Stored(db: T.Db, c: Uuid, p: S.Payload, id: Uuid, now: Time): T.Db
    requires c in db.counters
  {
    var n := db.counters[c] + 1;
    db.(counters := db.counters[c := n], msgs := db.msgs[id := T.Row(c, p.sender, n, p.text, now)])
  }

  predicate Faultless(r: Round) { r.read == Fine && r.faults == NO_FAULTS }

  /** A faultless round stores the first unread payload and removes its entry from the stream. */
  lemma FaultlessRound(shared: bool, db: T.Db, st: S.Stream, r: Round, c: Uuid)
    requires S.WellFormed(st) && st.group && Faultless(r) && Sound(db, c) && r.id !in db.msgs
    requires Unread(st.entries, st.cursor) != []
    requires Unread(st.entries, st.cursor)[0] < |st.log|
    requires Savable(db, c, st.log[Unread(st.entries, st.cursor)[0]])
    ensures
      var id := Unread(st.entries, st.cursor)[0];
      var (db', st') := OneRound(shared, db, st, r);
      && db' == Stored(db, c, st.log[id], r.id, r.now)
      && st'.entries == S.Without(st.entries, id)
      && st'.pending == st.pending && st'.acked == st.acked + {id} && st'.dropped == st.dropped
  {
    UnreadFirst(st.entries, st.cursor);
    S.XReadGroupOk(st);
    var id := Unread(st.entries, st.cursor)[0];
    var (st1, x) := S.XReadGroup(st).value;
    assert x == id && st1.pending - {id} == st.pending;
    var m := MessageOf(st.log[id], r.id);
    FaultlessSave(shared, db, m, r.now, c);
  }

  lemma FaultlessSave(shared: bool, db: T.Db, m: Message, now: Time, c: Uuid)
    requires Sound(db, c) && m.conv == c && m.sender in db.parts && m.id !in db.msgs
    ensures
      var n := db.counters[c] + 1;
      SaveInTx(shared, db, m, now, NO_FAULTS.save) ==
        (db.(counters := db.counters[c := n], msgs := db.msgs[m.id := T.Row(c, m.sender, n, m.text, now)]), Ok(n))
  {
  }

  // ------------------------------------------------------------------ the whole loop

  datatype Line = Line(sender: Uuid, text: string)

  ghost predicate RowAt(db: T.Db, c: Uuid, n: nat, line: Line) {
    exists m :: IsRow(db, m, c, n, line)
  }

  ghost predicate IsRow(db: T.Db, m: Uuid, c: Uuid, n: nat, line: Line) {
    m in db.msgs && db.msgs[m].conv == c && db.msgs[m].seqNo == n
    && Line(db.msgs[m].sender, db.msgs[m].text) == line
  }

  /** Line k of the given lines is the row after last + k. */
  ghost predicate LineAt(db: T.Db, c: Uuid, last: nat, lines: seq<Line>, k: nat)
    requires k < |lines|
  {
    RowAt(db, c, last + k + 1, lines[k])
  }

  /**
   db' is db with the given lines appended to conversation c: new rows, numbered consecutively after
   last_seq and one for each line, and nothing else changed.
   */
  ghost predicate Appended(db: T.Db, db': T.Db, c: Uuid, lines: seq<Line>) {
    && c in db.counters && db'.counters == db.counters[c := db.counters[c] + |lines|]
    && db'.parts == db.parts && db'.convs == db.convs
    && (forall k: nat {:trigger LineAt(db', c, db.counters[c], lines, k)} | k < |lines| ::
          LineAt(db', c, db.counters[c], lines, k))
    && (forall m | m in db.msgs :: m in db'.msgs && db'.msgs[m] == db.msgs[m])
    && (forall m | m in db'.msgs && m !in db.msgs :: NewRow(db'.msgs[m], c, db.counters[c], lines))
    && (forall m, n | m in db'.msgs && m !in db.msgs && n in db'.msgs && n !in db.msgs && m != n ::
          db'.msgs[m].seqNo != db'.msgs[n].seqNo)
  }

  ghost predicate NewRow(row: T.Row, c: Uuid, last: nat, lines: seq<Line>) {
    && row.conv == c && last < row.seqNo <= last + |lines|
    && lines[row.seqNo - last - 1] == Line(row.sender, row.text)
  }

  /** The whole log of a conversation without gaps: row number k holds line k, and there is no other row. */
  ghost predicate IsLog(db: T.Db, c: Uuid, lines: seq<Line>) {
    && c in db.counters && db.counters[c] == |lines|
    && (forall k: nat {:trigger LineAt(db, c, 0, lines, k)} | k < |lines| :: LineAt(db, c, 0, lines, k))
    && (forall m | m in db.msgs && db.msgs[m].conv == c :: NewRow(db.msgs[m], c, 0, lines))
  }

  function Lines(log: seq<S.Payload>, ids: seq<nat>): seq<Line>
    requires forall k | 0 <= k < |ids| :: ids[k] < |log|
  {
    if ids == [] then [] else [Line(log[ids[0]].sender, log[ids[0]].text)] + Lines(log, ids[1..])
  }

  /** Storing a payload appends its line. */
  lemma StoredAppends(db: T.Db, db': T.Db, c: Uuid, p: S.Payload, id: Uuid, now: Time)
    requires c in db.counters && id !in db.msgs && db' == Stored(db, c, p, id, now)
    ensures Appended(db, db', c, [Line(p.sender, p.text)])
  {
    assert IsRow(db', id, c, db.counters[c] + 1, Line(p.sender, p.text));
    assert LineAt(db', c, db.counters[c], [Line(p.sender, p.text)], 0);
  }

  lemma AppendedNothing(db: T.Db, c: Uuid)
    requires c in db.counters
    ensures Appended(db, db, c, [])
  {
  }

  lemma LinesTwice(db: T.Db, db1: T.Db, db': T.Db, c: Uuid, a: seq<Line>, b: seq<Line>, k: nat)
    requires Appended(db, db1, c, a) && Appended(db1, db', c, b) && k < |a + b|
    ensures LineAt(db', c, db.counters[c], a + b, k)
  {
    var last := db.counters[c];
    if k < |a| {
      assert LineAt(db1, c, last, a, k);
      var m :| IsRow(db1, m, c, last + k + 1, a[k]);
      assert IsRow(db', m, c, last + k + 1, (a + b)[k]);
    } else {
      assert LineAt(db', c, db1.counters[c], b, k - |a|);
    }
  }

  lemma NewRowsTwice(db: T.Db, db1: T.Db, db': T.Db, c: Uuid, a: seq<Line>, b: seq<Line>, m: Uuid)
    requires Appended(db, db1, c, a) && Appended(db1, db', c, b) && m in db'.msgs && m !in db.msgs
    ensures NewRow(db'.msgs[m], c, db.counters[c], a + b)
    ensures m in db1.msgs <==> db'.msgs[m].seqNo <= db1.counters[c]
  {
    if m in db1.msgs { assert NewRow(db1.msgs[m], c, db.counters[c], a); }
    else { assert NewRow(db'.msgs[m], c, db1.counters[c], b); }
  }

  lemma AppendedTwice(db: T.Db, db1: T.Db, db': T.Db, c: Uuid, a: seq<Line>, b: seq<Line>)
    requires Appended(db, db1, c, a) && Appended(db1, db', c, b)
    ensures Appended(db, db', c, a + b)
  {
    forall k: nat | k < |a + b| ensures LineAt(db', c, db.counters[c], a + b, k) {
      LinesTwice(db, db1, db', c, a, b, k);
    }
    forall m | m in db'.msgs && m !in db.msgs ensures NewRow(db'.msgs[m], c, db.counters[c], a + b) {
      NewRowsTwice(db, db1, db', c, a, b, m);
    }
    forall m, n | m in db'.msgs && m !in db.msgs && n in db'.msgs && n !in db.msgs && m != n
      ensures db'.msgs[m].seqNo != db'.msgs[n].seqNo
    {
      NewRowsTwice(db, db1, db', c, a, b, m);
      NewRowsTwice(db, db1, db', c, a, b, n);
    }
  }

  /** Fresh row ids, pairwise different: what uuid.New gives. */
  ghost predicate FreshIds(db: T.Db, rounds: seq<Round>) {
    && (forall k | 0 <= k < |rounds| :: rounds[k].id !in db.msgs)
    && (forall k, h | 0 <= k < h < |rounds| :: rounds[k].id != rounds[h].id)
  }

  /** How a drained stream relates to the one before: only the unread entries have moved. */
  ghost predicate Drained(st: S.Stream, st': S.Stream) {
    && Unread(st'.entries, st'.cursor) == []
    && st'.pending == st.pending && st'.dropped == st.dropped && st'.log == st.log
    && (forall x :: x in st'.acked <==> x in st.acked || x in Unread(st.entries, st.cursor))
    && (forall x :: x in st'.entries <==> x in st.entries && x < st.cursor)
  }

  ghost predicate AllSavable(db: T.Db, st: S.Stream, c: Uuid) {
    forall k | 0 <= k < |Unread(st.entries, st.cursor)| ::
      var x := Unread(st.entries, st.cursor)[k];
      x < |st.log| && Savable(db, c, st.log[x])
  }

  lemma NextDrained(st: S.Stream, st1: S.Stream, st': S.Stream, id: nat)
    requires S.WellFormed(st) && S.WellFormed(st1) && st1.entries == S.Without(st.entries, id)
    requires Unread(st.entries, st.cursor) != [] && id == Unread(st.entries, st.cursor)[0]
    requires Unread(st1.entries, st1.cursor) == Unread(st.entries, st.cursor)[1..]
    requires st1.pending == st.pending && st1.acked == st.acked + {id} && st1.dropped == st.dropped && st1.log == st.log
    requires Drained(st1, st')
    ensures Drained(st, st')
  {
    Remaining(st, st1, id);
    var u := Unread(st.entries, st.cursor);
    assert u == [id] + u[1..];
  }

  /**
   With a single consumer loop, no fault, no delete and no trimming, enough rounds drain the stream:
   nothing stays unread, the pending list is as before, the drained entries are acknowledged and
   deleted, and the conversation's log is extended by exactly the unread payloads in XADD order.
   */
  lemma {:induction false} DrainAppends(
      shared: bool, db: T.Db, st: S.Stream, rounds: seq<Round>, c: Uuid)
    requires S.WellFormed(st) && st.group && Sound(db, c)
    requires forall k | 0 <= k < |rounds| :: Faultless(rounds[k])
    requires FreshIds(db, rounds) && |rounds| >= |Unread(st.entries, st.cursor)|
    requires AllSavable(db, st, c)
    ensures
      var (db', st') := Loop(shared, db, st, rounds);
      && Appended(db, db', c, Lines(st.log, Unread(st.entries, st.cursor)))
      && Drained(st, st')
    decreases |rounds|
  {
    var u := Unread(st.entries, st.cursor);
    if rounds == [] {
      AppendedNothing(db, c);
    } else if u == [] {
      UnreadFirst(st.entries, st.cursor);
      assert OneRound(shared, db, st, rounds[0]) == (db, st);
      DrainAppends(shared, db, st, rounds[1..], c);
    } else {
      var (db1, st1) := OneRound(shared, db, st, rounds[0]);
      FirstDrained(shared, db, st, rounds, c, db1, st1);
      DrainAppends(shared, db1, st1, rounds[1..], c);
      var (db', st') := Loop(shared, db1, st1, rounds[1..]);
      NextDrained(st, st1, st', u[0]);
      LinesCons(st.log, u);
      AppendedTwice(db, db1, db', c, [Line(st.log[u[0]].sender, st.log[u[0]].text)], Lines(st.log, u[1..]));
      assert Loop(shared, db, st, rounds) == (db', st');
    }
  }

  lemma FirstDrained(
      shared: bool, db: T.Db, st: S.Stream, rounds: seq<Round>, c: Uuid, db1: T.Db, st1: S.Stream)
    requires S.WellFormed(st) && st.group && Sound(db, c)
    requires rounds != [] && Faultless(rounds[0]) && FreshIds(db, rounds) && AllSavable(db, st, c)
    requires Unread(st.entries, st.cursor) != [] && (db1, st1) == OneRound(shared, db, st, rounds[0])
    ensures
      var u := Unread(st.entries, st.cursor);
      && S.WellFormed(st1) && st1.group && st1.log == st.log && Sound(db1, c)
      && Appended(db, db1, c, [Line(st.log[u[0]].sender, st.log[u[0]].text)])
      && FreshIds(db1, rounds[1..]) && AllSavable(db1, st1, c)
      && Unread(st1.entries, st1.cursor) == u[1..] && st1.entries == S.Without(st.entries, u[0])
      && st1.pending == st.pending && st1.acked == st.acked + {u[0]} && st1.dropped == st.dropped
  {
    var u := Unread(st.entries, st.cursor);
    var p := st.log[u[0]];
    FaultlessRound(shared, db, st, rounds[0], c);
    ReadShrinks(shared, db, st, rounds[0], st1);
    StoredAppends(db, db1, c, p, rounds[0].id, rounds[0].now);
    StillFresh(db, db1, c, p, rounds);
    assert forall k | 0 <= k < |u[1..]| :: u[1..][k] == u[k + 1];
  }

  lemma LinesCons(log: seq<S.Payload>, u: seq<nat>)
    requires u != [] && forall k | 0 <= k < |u| :: u[k] < |log|
    ensures forall k | 0 <= k < |u[1..]| :: u[1..][k] < |log|
    ensures Lines(log, u) == [Line(log[u[0]].sender, log[u[0]].text)] + Lines(log, u[1..])
  {
    assert forall k | 0 <= k < |u[1..]| :: u[1..][k] == u[k + 1];
  }

  lemma StillFresh(db: T.Db, db1: T.Db, c: Uuid, p: S.Payload, rounds: seq<Round>)
    requires FreshIds(db, rounds) && rounds != [] && c in db.counters
    requires db1 == Stored(db, c, p, rounds[0].id, rounds[0].now)
    ensures FreshIds(db1, rounds[1..])
  {
  }

  lemma Remaining(st: S.Stream, st1: S.Stream, id: nat)
    requires S.WellFormed(st) && S.WellFormed(st1) && st1.entries == S.Without(st.entries, id)
    requires Unread(st.entries, st.cursor) != [] && id == Unread(st.entries, st.cursor)[0]
    requires Unread(st1.entries, st1.cursor) == Unread(st.entries, st.cursor)[1..]
    ensures forall x :: x in st1.entries && x < st1.cursor <==> x in st.entries && x < st.cursor
  {
    var u := Unread(st.entries, st.cursor);
    assert u == [id] + u[1..];
    forall x ensures x in st1.entries && x < st1.cursor <==> x in st.entries && x < st.cursor {
      assert x in u <==> x in st.entries && x >= st.cursor;
      assert x in u[1..] <==> x in st1.entries && x >= st1.cursor;
    }
  }
}
