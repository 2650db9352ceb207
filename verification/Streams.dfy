/**
 The Redis stream of one conversation with its consumer group, and the stream commands that
 internal/plugins/redis/queue.go issues. Entry ids are numbered by XADD order.
 */
module Streams {
  import opened Common

  datatype Payload = Payload(
    clientMsgId: string, conv: Uuid, sender: Uuid, text: string, createdAt: Time)

  /**
   entries: ids still in the stream, oldest first; cursor: the group has passed every id below it;
   pending: the group's pending list. log, acked and dropped are history: everything ever added,
   everything ever acknowledged, everything trimmed before it was delivered.
   */
  datatype Stream = Stream(
    log: seq<Payload>,
    entries: seq<nat>,
    group: bool,
    cursor: nat,
    pending: set<nat>,
    acked: set<nat>,
    dropped: set<nat>)

  const EMPTY := Stream([], [], false, 0, {}, {}, {})

  const MAX_LEN := 1000

  function Append(st: Stream, p: Payload): Stream {
    st.(log := st.log + [p], entries := st.entries + [|st.log|])
  }

  /** Removes the k oldest entries, delivered or not. */
  function Trim(st: Stream, k: nat): Stream
    requires k <= |st.entries|
  {
    st.(entries := st.entries[k..],
        dropped := st.dropped + set x | x in st.entries[..k] && x >= st.cursor)
  }

  /** XADD MAXLEN ~ 1000: some of the oldest entries may go, but the newest 1000 always stay. */
  function XAdd(st: Stream, p: Payload, evict: nat): Stream {
    var added := Append(st, p);
    if |added.entries| >= MAX_LEN + evict then Trim(added, evict) else added
  }

  /** XGROUP CREATE key group 0 MKSTREAM; an existing group (BUSYGROUP) is left as it is. */
  function XGroupCreate(st: Stream): Stream {
    st.(group := true)
  }

  /** The oldest entry the group has not passed yet. */
  function FirstNew(entries: seq<nat>, cursor: nat): (r: Option<nat>)
    ensures r.Some? ==> r.value in entries && r.value >= cursor
    ensures r.None? ==> forall x | x in entries :: x < cursor
  {
    if entries == [] then None
    else if entries[0] >= cursor then Some(entries[0])
    else
      var r := FirstNew(entries[1..], cursor);
      assert entries == [entries[0]] + entries[1..];
      r
  }

  /** XREADGROUP ... STREAMS key > COUNT 1 */
  function XReadGroup(st: Stream): Option<(Stream, nat)> {
    if !st.group then None
    else match FirstNew(st.entries, st.cursor)
      case None => None
      case Some(id) => Some((st.(cursor := id + 1, pending := st.pending + {id}), id))
  }

  /** XACK removes the id from the pending list; an id that is not there is ignored. */
  function XAck(st: Stream, id: nat): Stream {
    if id in st.pending then st.(pending := st.pending - {id}, acked := st.acked + {id}) else st
  }

  function Without(s: seq<nat>, id: nat): (r: seq<nat>)
    ensures forall x :: x in r <==> x in s && x != id
    ensures |r| <= |s|
  {
    if s == [] then []
    else if s[0] == id then Without(s[1..], id)
    else [s[0]] + Without(s[1..], id)
  }

  /** XDEL */
  function XDel(st: Stream, id: nat): Stream {
    st.(entries := Without(st.entries, id))
  }

  // ---------------------------------------------------------------- stages of an entry

  predicate Ascending(s: seq<nat>) {
    forall i, j | 0 <= i < j < |s| :: s[i] < s[j]
  }

  predicate Undelivered(st: Stream, id: nat) { id in st.entries && id >= st.cursor }

  ghost predicate WellFormed(st: Stream) {
    && Ascending(st.entries)
    && (forall x | x in st.entries :: x < |st.log|)
    && st.cursor <= |st.log|
    && st.pending !! st.acked
    && st.dropped !! (st.pending + st.acked)
    && (forall x | x in st.pending + st.acked :: x < st.cursor)
    && (forall x | x in st.dropped :: x < |st.log|)
    && (forall x: nat | x < st.cursor :: x in st.pending || x in st.acked || x in st.dropped)
    && (forall x: nat | st.cursor <= x < |st.log| :: x in st.entries || x in st.dropped)
    && (forall x | x in st.entries :: x !in st.dropped)
    && (!st.group ==> st.cursor == 0)
  }

  lemma {:induction false} FirstNewIsLeast(s: seq<nat>, cursor: nat)
    requires Ascending(s)
    ensures var r := FirstNew(s, cursor);
      r.Some? ==> forall x | x in s && x >= cursor :: r.value <= x
  {
    if s != [] && s[0] < cursor {
      assert Ascending(s[1..]);
      FirstNewIsLeast(s[1..], cursor);
      forall x | x in s && x >= cursor && FirstNew(s, cursor).Some? ensures FirstNew(s, cursor).value <= x {
        assert x in s[1..];
      }
    }
  }

  lemma {:induction false} WithoutAscending(s: seq<nat>, id: nat)
    requires Ascending(s)
    ensures Ascending(Without(s, id))
  {
    if s != [] {
      assert Ascending(s[1..]);
      WithoutAscending(s[1..], id);
      var r := Without(s[1..], id);
      if s[0] != id {
        forall j | 0 <= j < |r| ensures s[0] < r[j] {
          assert r[j] in s[1..];
        }
      }
    }
  }

  lemma AppendOk(st: Stream, p: Payload)
    requires WellFormed(st)
    ensures WellFormed(Append(st, p))
  {
    var all := st.entries + [|st.log|];
    forall i, j | 0 <= i < j < |all| ensures all[i] < all[j] {
      assert all[i] in st.entries;
    }
    assert all[|st.entries|] == |st.log|;
    forall x | x in st.entries ensures x in all {
      var i :| 0 <= i < |st.entries| && st.entries[i] == x;
      assert all[i] == x;
    }
  }

  lemma TrimOk(st: Stream, k: nat)
    requires WellFormed(st) && k <= |st.entries|
    ensures WellFormed(Trim(st, k))
  {
    var old_, kept := st.entries[..k], st.entries[k..];
    assert st.entries == old_ + kept;
    forall x | x in old_ ensures x in st.entries { }
    forall x | x in kept ensures x in st.entries && x !in old_ {
      var j :| 0 <= j < |kept| && kept[j] == x;
      assert st.entries[k + j] == x;
    }
  }

  lemma XAddOk(st: Stream, p: Payload, evict: nat)
    requires WellFormed(st)
    ensures WellFormed(XAdd(st, p, evict))
  {
    AppendOk(st, p);
    var added := Append(st, p);
    if |added.entries| >= MAX_LEN + evict { TrimOk(added, evict); }
  }

  /** Trimming by an XADD can take exactly the gone oldest entries if and only if it takes none or 1000 stay. */
  lemma TrimmedIff(st: Stream, p: Payload, gone: nat)
    requires gone <= |st.entries| + 1
    ensures (exists evict: nat :: XAdd(st, p, evict).entries == (st.entries + [|st.log|])[gone..])
            <==> gone == 0 || |st.entries| + 1 - gone >= 1000
    ensures |st.entries| < 1000 ==> forall evict: nat :: XAdd(st, p, evict) == Append(st, p)
  {
    var all := st.entries + [|st.log|];
    forall evict: nat | XAdd(st, p, evict).entries == all[gone..] ensures gone == 0 || |all| - gone >= 1000 {
      assert XAdd(st, p, evict).entries == all || XAdd(st, p, evict).entries == all[evict..];
    }
    if gone == 0 || |all| - gone >= 1000 {
      assert XAdd(st, p, gone).entries == all[gone..];
    }
  }

  lemma XGroupCreateOk(st: Stream)
    requires WellFormed(st)
    ensures WellFormed(XGroupCreate(st))
  {
  }

  lemma XReadGroupOk(st: Stream)
    requires WellFormed(st)
    ensures XReadGroup(st).Some? ==>
      && var (st', id) := XReadGroup(st).value;
      && WellFormed(st')
      && Undelivered(st, id)
      && id !in st.pending && id !in st.acked && id !in st.dropped
      && id < |st.log|
  {
    if XReadGroup(st).Some? {
      var (st', id) := XReadGroup(st).value;
      FirstNewIsLeast(st.entries, st.cursor);
      forall x: nat | x < st'.cursor ensures x in st'.pending || x in st'.acked || x in st'.dropped {
        if st.cursor <= x < id && x in st.entries { assert false; }
      }
    }
  }

  lemma XAckOk(st: Stream, id: nat)
    requires WellFormed(st)
    ensures WellFormed(XAck(st, id))
  {
  }

  lemma XDelOk(st: Stream, id: nat)
    requires WellFormed(st) && id < st.cursor
    ensures WellFormed(XDel(st, id))
  {
    WithoutAscending(st.entries, id);
  }
}
