/**
 The connection index of internal/app/registry/registry.go as a value: three maps and the worker
 contexts created so far. C stands for a client connection.
 */
module Hub {
  import opened Common

  /** A context made by context.WithCancel for a room, with the number of times it was cancelled. */
  datatype Context = Context(conv: Uuid, cancels: nat)

  /** workers maps a room to the context whose CancelFunc it holds. */
  datatype Hub<C> = Hub(
    clients: map<Uuid, C>,
    rooms: map<Uuid, map<Uuid, C>>,
    workers: map<Uuid, nat>,
    contexts: seq<Context>)
  {
    /** Reading a missing room gives the nil map. */
    function Room(conv: Uuid): map<Uuid, C> {
      if conv in rooms then rooms[conv] else map[]
    }
  }

  function Empty<C>(): Hub<C> { Hub(map[], map[], map[], []) }

  function Register<C>(h: Hub<C>, conv: Uuid, sender: Uuid, c: C): Hub<C> {
    var h1 := if conv in h.rooms then h else
      h.(rooms := h.rooms[conv := map[]],
         workers := h.workers[conv := |h.contexts|],
         contexts := h.contexts + [Context(conv, 0)]);
    var members: map<Uuid, C> := h1.Room(conv)[sender := c];
    h1.(rooms := h1.rooms[conv := members],
        clients := h1.clients[sender := c])
  }

  function Cancel(contexts: seq<Context>, n: nat): seq<Context> {
    if n < |contexts| then contexts[n := contexts[n].(cancels := contexts[n].cancels + 1)] else contexts
  }

  /** Nobody would be left in the room. */
  predicate LastOne<C>(h: Hub<C>, conv: Uuid, sender: Uuid) { |h.Room(conv) - {sender}| == 0 }

  /** Drops the room and stops its worker. */
  function Close<C>(h: Hub<C>, conv: Uuid): Hub<C> {
    var h' := h.(rooms := h.rooms - {conv});
    if conv in h.workers then
      h'.(contexts := Cancel(h.contexts, h.workers[conv]), workers := h.workers - {conv})
    else h'
  }

  function Unregister<C>(h: Hub<C>, conv: Uuid, sender: Uuid): (r: Hub<C>)
    ensures r.clients == h.clients - {sender}
  {
    var h' := h.(clients := h.clients - {sender});
    if LastOne(h, conv, sender) then Close(h', conv)
    else h'.(rooms := h.rooms[conv := h.Room(conv) - {sender}])
  }

  lemma Updated<A, B>(m: map<A, B>, k: A, v: B)
    ensures |m[k := v]| == |m| + if k in m then 0 else 1
  {
    assert m[k := v].Keys == m.Keys + {k};
  }

  lemma Removed<A, B>(m: map<A, B>, k: A)
    ensures |m - {k}| == |m| - if k in m then 1 else 0
  {
    assert (m - {k}).Keys == m.Keys - {k};
  }

  lemma NothingMissing<C>(h: Hub<C>, conv: Uuid, sender: Uuid)
    requires !LastOne(h, conv, sender)
    ensures conv in h.rooms
  {
    assert conv !in h.rooms ==> h.Room(conv) - {sender} == map[];
  }

  datatype Call<C> = Reg(conv: Uuid, sender: Uuid, c: C) | Unreg(conv: Uuid, sender: Uuid)

  function Apply<C>(h: Hub<C>, call: Call<C>): Hub<C> {
    match call
    case Reg(conv, sender, c) => Register(h, conv, sender, c)
    case Unreg(conv, sender) => Unregister(h, conv, sender)
  }

  function Calls<C>(h: Hub<C>, calls: seq<Call<C>>): Hub<C>
    decreases |calls|
  {
    if calls == [] then h else Calls(Apply(h, calls[0]), calls[1..])
  }

  // ------------------------------------------------------------------ members

  /** Sender x is in room r. */
  predicate In<C>(h: Hub<C>, r: Uuid, x: Uuid) { r in h.rooms && x in h.rooms[r] }

  /** Register adds one member and leaves all others as they are. */
  lemma RegisterMembers<C>(h: Hub<C>, conv: Uuid, sender: Uuid, c: C)
    ensures
      var h' := Register(h, conv, sender, c);
      && (forall r, x {:trigger In(h', r, x)} ::
            In(h', r, x) <==> In(h, r, x) || (r == conv && x == sender))
      && (forall r, x {:trigger In(h', r, x)} | In(h', r, x) ::
            h'.rooms[r][x] == if r == conv && x == sender then c else h.rooms[r][x])
  {
  }

  /** A member of room r of h' is a member of room r of h, with the same connection. */
  ghost predicate Kept<C>(h: Hub<C>, h': Hub<C>, r: Uuid, x: Uuid) {
    In(h', r, x) ==> In(h, r, x) && h'.rooms[r][x] == h.rooms[r][x]
  }

  lemma OneLess<C>(h: Hub<C>, conv: Uuid, sender: Uuid, h': Hub<C>, r: Uuid, x: Uuid)
    requires conv in h.rooms && h'.rooms == h.rooms[conv := h.Room(conv) - {sender}]
    ensures In(h', r, x) <==> In(h, r, x) && !(r == conv && x == sender)
    ensures Kept(h, h', r, x)
  {
    if r == conv { assert h'.rooms[r] == h.Room(conv) - {sender}; }
  }

  lemma NobodyElse<C>(room: map<Uuid, C>, sender: Uuid, x: Uuid)
    requires |room - {sender}| == 0 && x in room
    ensures x == sender
  {
    assert x != sender ==> x in room - {sender};
  }

  lemma RoomLess<C>(h: Hub<C>, conv: Uuid, sender: Uuid, h': Hub<C>, r: Uuid, x: Uuid)
    requires LastOne(h, conv, sender) && h'.rooms == h.rooms - {conv}
    ensures In(h', r, x) <==> In(h, r, x) && !(r == conv && x == sender)
    ensures Kept(h, h', r, x)
  {
    if r == conv && x in h.Room(conv) { NobodyElse(h.Room(conv), sender, x); }
  }

  lemma UnregisterMember<C>(h: Hub<C>, conv: Uuid, sender: Uuid, h': Hub<C>, r: Uuid, x: Uuid)
    requires h' == Unregister(h, conv, sender)
    ensures In(h', r, x) <==> In(h, r, x) && !(r == conv && x == sender)
    ensures Kept(h, h', r, x)
  {
    if LastOne(h, conv, sender) {
      RoomLess(h, conv, sender, h', r, x);
    } else {
      NothingMissing(h, conv, sender);
      OneLess(h, conv, sender, h', r, x);
    }
  }

  /** Unregister removes one member and leaves all others as they are. */
  lemma UnregisterMembers<C>(h: Hub<C>, conv: Uuid, sender: Uuid, h': Hub<C>)
    requires h' == Unregister(h, conv, sender)
    ensures forall r, x {:trigger In(h', r, x)} ::
      In(h', r, x) <==> In(h, r, x) && !(r == conv && x == sender)
    ensures forall r, x {:trigger Kept(h, h', r, x)} :: Kept(h, h', r, x)
    ensures h'.clients == h.clients - {sender}
  {
    forall r, x {:trigger In(h', r, x)}
      ensures In(h', r, x) <==> In(h, r, x) && !(r == conv && x == sender)
    {
      UnregisterMember(h, conv, sender, h', r, x);
    }
    forall r, x {:trigger Kept(h, h', r, x)} ensures Kept(h, h', r, x) {
      UnregisterMember(h, conv, sender, h', r, x);
    }
  }

  /** Every connection the index refers to. */
  ghost function Known<C>(h: Hub<C>): set<C> {
    (set x | x in h.clients :: h.clients[x]) + set r, x | r in h.rooms && x in h.rooms[r] :: h.rooms[r][x]
  }

  /** ids names the sender of a connection: every connection is stored under its own id and room. */
  ghost predicate Labelled<C>(h: Hub<C>, sender: C -> Uuid, conv: C -> Uuid) {
    && (forall x {:trigger h.clients[x]} | x in h.clients :: sender(h.clients[x]) == x)
    && (forall r, x {:trigger In(h, r, x)} | In(h, r, x) ::
          sender(h.rooms[r][x]) == x && conv(h.rooms[r][x]) == r)
  }

  lemma RegisterLabelled<C>(h: Hub<C>, h': Hub<C>, c: C, sender: C -> Uuid, conv: C -> Uuid)
    requires Labelled(h, sender, conv) && h' == Register(h, conv(c), sender(c), c)
    ensures Labelled(h', sender, conv)
    ensures Known(h') <= Known(h) + {c}
  {
    RegisterMembers(h, conv(c), sender(c), c);
    forall d | d in Known(h') ensures d in Known(h) + {c} {
      if x :| x in h'.clients && h'.clients[x] == d {
        if d != c { assert d == h.clients[x]; }
      } else {
        var r, x :| r in h'.rooms && x in h'.rooms[r] && h'.rooms[r][x] == d;
        assert In(h', r, x);
      }
    }
  }

  lemma UnregisterLabelled<C>(h: Hub<C>, h': Hub<C>, c: Uuid, s: Uuid, sender: C -> Uuid, conv: C -> Uuid)
    requires Labelled(h, sender, conv) && h' == Unregister(h, c, s)
    ensures Labelled(h', sender, conv)
    ensures Known(h') <= Known(h)
  {
    UnregisterMembers(h, c, s, h');
    FewerLabelled(h, h', s, sender, conv);
  }

  lemma FewerLabelled<C>(h: Hub<C>, h': Hub<C>, s: Uuid, sender: C -> Uuid, conv: C -> Uuid)
    requires Labelled(h, sender, conv) && h'.clients == h.clients - {s}
    requires forall r, x {:trigger Kept(h, h', r, x)} :: Kept(h, h', r, x)
    ensures Labelled(h', sender, conv) && Known(h') <= Known(h)
  {
    forall r, x {:trigger In(h', r, x)} | In(h', r, x) ensures In(h, r, x) && h'.rooms[r][x] == h.rooms[r][x] {
      assert Kept(h, h', r, x);
    }
    forall d | d in Known(h') ensures d in Known(h) {
      if x :| x in h'.clients && h'.clients[x] == d {
        assert d == h.clients[x];
      } else {
        var r, x :| r in h'.rooms && x in h'.rooms[r] && h'.rooms[r][x] == d;
        assert In(h', r, x);
      }
    }
  }

  // ------------------------------------------------------------------ rooms and workers

  /** A context is cancelled at most once, and is uncancelled exactly while it is its room's worker. */
  ghost predicate CtxOk(workers: map<Uuid, nat>, ctx: Context, n: nat) {
    && ctx.cancels <= 1
    && (ctx.cancels == 0 <==> ctx.conv in workers && workers[ctx.conv] == n)
  }

  ghost predicate WorkersOk(workers: map<Uuid, nat>, contexts: seq<Context>) {
    && (forall r {:trigger workers[r]} | r in workers ::
          workers[r] < |contexts| && contexts[workers[r]].conv == r)
    && (forall n {:trigger CtxOk(workers, contexts[n], n)} | 0 <= n < |contexts| ::
          CtxOk(workers, contexts[n], n))
  }

  /** No room is empty, and exactly the rooms have workers. */
  ghost predicate RoomsOk<C>(h: Hub<C>) {
    && (forall r | r in h.rooms :: |h.rooms[r]| > 0)
    && (forall r :: r in h.workers <==> r in h.rooms)
    && WorkersOk(h.workers, h.contexts)
  }

  lemma WorkerStarts(workers: map<Uuid, nat>, contexts: seq<Context>, conv: Uuid)
    requires WorkersOk(workers, contexts) && conv !in workers
    ensures WorkersOk(workers[conv := |contexts|], contexts + [Context(conv, 0)])
  {
    var workers', contexts' := workers[conv := |contexts|], contexts + [Context(conv, 0)];
    forall n | 0 <= n < |contexts'| ensures CtxOk(workers', contexts'[n], n) {
      if n < |contexts| { assert CtxOk(workers, contexts[n], n); }
    }
  }

  lemma WorkerStops(workers: map<Uuid, nat>, contexts: seq<Context>, conv: Uuid)
    requires WorkersOk(workers, contexts) && conv in workers
    ensures WorkersOk(workers - {conv}, Cancel(contexts, workers[conv]))
  {
    var workers', contexts' := workers - {conv}, Cancel(contexts, workers[conv]);
    forall n | 0 <= n < |contexts'| ensures CtxOk(workers', contexts'[n], n) {
      assert CtxOk(workers, contexts[n], n);
    }
  }

  /** Makes the room, with its worker, if it is not there. */
  lemma OpenRooms<C>(h: Hub<C>, conv: Uuid, members: map<Uuid, C>, h': Hub<C>)
    requires RoomsOk(h) && conv !in h.rooms && |members| > 0
    requires h' == h.(rooms := h.rooms[conv := members], workers := h.workers[conv := |h.contexts|],
                      contexts := h.contexts + [Context(conv, 0)])
    ensures RoomsOk(h')
  {
    WorkerStarts(h.workers, h.contexts, conv);
  }

  lemma RegisterRooms<C>(h: Hub<C>, h': Hub<C>, conv: Uuid, sender: Uuid, c: C)
    requires RoomsOk(h) && h' == Register(h, conv, sender, c)
    ensures RoomsOk(h')
  {
    var h1, members := h.(clients := h.clients[sender := c]), h.Room(conv)[sender := c];
    Updated(h.Room(conv), sender, c);
    if conv in h.rooms {
      ThinRooms(h1, conv, members, h');
    } else {
      assert h.rooms[conv := map[]][conv := members] == h.rooms[conv := members];
      OpenRooms(h1, conv, members, h');
    }
  }

  lemma CloseRooms<C>(h: Hub<C>, conv: Uuid, h': Hub<C>)
    requires RoomsOk(h) && h' == Close(h, conv)
    ensures RoomsOk(h')
  {
    if conv in h.workers { WorkerStops(h.workers, h.contexts, conv); }
  }

  lemma ThinRooms<C>(h: Hub<C>, conv: Uuid, rest: map<Uuid, C>, h': Hub<C>)
    requires RoomsOk(h) && conv in h.rooms && |rest| > 0 && h' == h.(rooms := h.rooms[conv := rest])
    ensures RoomsOk(h')
  {
  }

  lemma UnregisterRooms<C>(h: Hub<C>, conv: Uuid, sender: Uuid, h': Hub<C>)
    requires RoomsOk(h) && h' == Unregister(h, conv, sender)
    ensures RoomsOk(h')
  {
    var h1 := h.(clients := h.clients - {sender});
    if LastOne(h, conv, sender) {
      CloseRooms(h1, conv, h');
    } else {
      NothingMissing(h, conv, sender);
      ThinRooms(h1, conv, h.Room(conv) - {sender}, h');
    }
  }

  lemma ApplyRooms<C>(h: Hub<C>, call: Call<C>)
    requires RoomsOk(h)
    ensures RoomsOk(Apply(h, call))
  {
    match call
    case Reg(conv, sender, c) => RegisterRooms(h, Apply(h, call), conv, sender, c);
    case Unreg(conv, sender) => UnregisterRooms(h, conv, sender, Apply(h, call));
  }

  /** After any sequence of calls, in any order and with any arguments. */
  lemma {:induction false} RoomsAlwaysOk<C>(h: Hub<C>, calls: seq<Call<C>>)
    requires RoomsOk(h)
    ensures RoomsOk(Calls(h, calls))
    decreases |calls|
  {
    if calls != [] {
      ApplyRooms(h, calls[0]);
      RoomsAlwaysOk(Apply(h, calls[0]), calls[1..]);
    }
  }

  /** What the registry keeps at all times: rooms and workers agree and connections are labelled. */
  ghost predicate IndexOk<C>(h: Hub<C>, sender: C -> Uuid, conv: C -> Uuid) {
    RoomsOk(h) && Labelled(h, sender, conv)
  }

  lemma RegisterIndex<C>(h: Hub<C>, h': Hub<C>, c: C, sender: C -> Uuid, conv: C -> Uuid)
    requires IndexOk(h, sender, conv) && h' == Register(h, conv(c), sender(c), c)
    ensures IndexOk(h', sender, conv) && Known(h') <= Known(h) + {c}
  {
    RegisterRooms(h, h', conv(c), sender(c), c);
    RegisterLabelled(h, h', c, sender, conv);
  }

  lemma UnregisterIndex<C>(h: Hub<C>, h': Hub<C>, c: C, sender: C -> Uuid, conv: C -> Uuid)
    requires IndexOk(h, sender, conv) && h' == Unregister(h, conv(c), sender(c))
    ensures IndexOk(h', sender, conv) && Known(h') <= Known(h)
  {
    UnregisterRooms(h, conv(c), sender(c), h');
    UnregisterLabelled(h, h', conv(c), sender(c), sender, conv);
  }

  // ------------------------------------------------------------------ conservation of contexts

  /** Number of calls of CancelFuncs so far. */
  function Cancelled(contexts: seq<Context>): nat {
    if contexts == [] then 0
    else Cancelled(contexts[..|contexts| - 1]) + contexts[|contexts| - 1].cancels
  }

  lemma {:induction false} CancelCounts(contexts: seq<Context>, n: nat)
    requires n < |contexts|
    ensures Cancelled(Cancel(contexts, n)) == Cancelled(contexts) + 1
  {
    var m := |contexts| - 1;
    var after := Cancel(contexts, n);
    if n == m {
      assert after[..m] == contexts[..m];
    } else {
      assert after[..m] == Cancel(contexts[..m], n);
      CancelCounts(contexts[..m], n);
    }
  }

  ghost predicate Balanced<C>(h: Hub<C>) { |h.contexts| == Cancelled(h.contexts) + |h.rooms| }

  lemma RegisterBalanced<C>(h: Hub<C>, conv: Uuid, sender: Uuid, c: C, h': Hub<C>)
    requires Balanced(h) && h' == Register(h, conv, sender, c)
    ensures Balanced(h')
  {
    assert h'.rooms == h.rooms[conv := h'.rooms[conv]];
    Updated(h.rooms, conv, h'.rooms[conv]);
    if conv !in h.rooms { assert h'.contexts[..|h.contexts|] == h.contexts; }
  }

  lemma CloseBalanced<C>(h: Hub<C>, conv: Uuid, h': Hub<C>)
    requires RoomsOk(h) && Balanced(h) && h' == Close(h, conv)
    ensures Balanced(h')
  {
    Removed(h.rooms, conv);
    if conv in h.workers { CancelCounts(h.contexts, h.workers[conv]); }
  }

  lemma UnregisterBalanced<C>(h: Hub<C>, conv: Uuid, sender: Uuid, h': Hub<C>)
    requires RoomsOk(h) && Balanced(h) && h' == Unregister(h, conv, sender)
    ensures Balanced(h')
  {
    if LastOne(h, conv, sender) {
      CloseBalanced(h.(clients := h.clients - {sender}), conv, h');
    } else {
      NothingMissing(h, conv, sender);
      Updated(h.rooms, conv, h.Room(conv) - {sender});
    }
  }

  lemma {:induction false} AlwaysBalanced<C>(h: Hub<C>, calls: seq<Call<C>>)
    requires RoomsOk(h) && Balanced(h)
    ensures Balanced(Calls(h, calls))
    decreases |calls|
  {
    if calls != [] {
      ApplyRooms(h, calls[0]);
      match calls[0] {
        case Reg(conv, sender, c) => RegisterBalanced(h, conv, sender, c, Apply(h, calls[0]));
        case Unreg(conv, sender) => UnregisterBalanced(h, conv, sender, Apply(h, calls[0]));
      }
      AlwaysBalanced(Apply(h, calls[0]), calls[1..]);
    }
  }

  /**
   Contexts are conserved over every run: those created are those cancelled plus one per room; each
   is cancelled at most once; and no room ever has two uncancelled contexts.
   */
  lemma ContextsConserved<C>(calls: seq<Call<C>>)
    ensures
      var h := Calls(Empty<C>(), calls);
      && |h.contexts| == Cancelled(h.contexts) + |h.rooms|
      && (forall n | 0 <= n < |h.contexts| :: h.contexts[n].cancels <= 1)
      && (forall m, n | 0 <= m < n < |h.contexts| && h.contexts[m].conv == h.contexts[n].conv ::
            h.contexts[m].cancels == 1 || h.contexts[n].cancels == 1)
      && (forall r | r in h.rooms :: |h.rooms[r]| > 0 && r in h.workers
            && h.workers[r] < |h.contexts| && h.contexts[h.workers[r]] == Context(r, 0))
      && (forall r | r in h.workers :: r in h.rooms)
  {
    var h := Calls(Empty<C>(), calls);
    RoomsAlwaysOk(Empty<C>(), calls);
    AlwaysBalanced(Empty<C>(), calls);
    forall n | 0 <= n < |h.contexts| ensures h.contexts[n].cancels <= 1 {
      assert CtxOk(h.workers, h.contexts[n], n);
    }
    forall m, n | 0 <= m < n < |h.contexts| && h.contexts[m].conv == h.contexts[n].conv
      ensures h.contexts[m].cancels == 1 || h.contexts[n].cancels == 1
    {
      assert CtxOk(h.workers, h.contexts[m], m) && CtxOk(h.workers, h.contexts[n], n);
    }
    forall r | r in h.rooms
      ensures r in h.workers && h.workers[r] < |h.contexts| && h.contexts[h.workers[r]] == Context(r, 0)
    {
      assert CtxOk(h.workers, h.contexts[h.workers[r]], h.workers[r]);
    }
  }

  // ------------------------------------------------------------------ clients and rooms agree

  ghost predicate Somewhere<C>(h: Hub<C>, x: Uuid) { exists r :: In(h, r, x) }

  /** clients is exactly the disjoint union of all rooms. */
  ghost predicate UnionOk<C>(h: Hub<C>) {
    && (forall r, x {:trigger In(h, r, x)} | In(h, r, x) :: x in h.clients && h.clients[x] == h.rooms[r][x])
    && (forall x {:trigger Somewhere(h, x)} | x in h.clients :: Somewhere(h, x))
    && (forall r, q, x {:trigger In(h, r, x), In(h, q, x)} | In(h, r, x) && In(h, q, x) :: r == q)
  }

  /** The sender is not registered in another room. */
  predicate AtHome<C>(h: Hub<C>, conv: Uuid, sender: Uuid) {
    sender in h.clients ==> In(h, conv, sender)
  }

  /** Register keeps clients equal to the union of the rooms exactly when the sender is not in another room. */
  lemma RegisterUnionIff<C>(h: Hub<C>, conv: Uuid, sender: Uuid, c: C)
    requires UnionOk(h)
    ensures UnionOk(Register(h, conv, sender, c)) <==> AtHome(h, conv, sender)
  {
    var h' := Register(h, conv, sender, c);
    RegisterMembers(h, conv, sender, c);
    if AtHome(h, conv, sender) {
      forall x | x in h'.clients ensures Somewhere(h', x) {
        if x == sender {
          assert In(h', conv, x);
        } else {
          assert Somewhere(h, x);
          var r :| In(h, r, x);
          assert In(h', r, x);
        }
      }
    } else {
      assert Somewhere(h, sender);
      var r :| In(h, r, sender);
      assert In(h', r, sender) && In(h', conv, sender);
    }
  }

  /** The same guard is exact for Unregister. */
  lemma UnregisterUnionIff<C>(h: Hub<C>, conv: Uuid, sender: Uuid, h': Hub<C>)
    requires UnionOk(h) && h' == Unregister(h, conv, sender)
    ensures UnionOk(h') <==> AtHome(h, conv, sender)
  {
    UnregisterMembers(h, conv, sender, h');
    RemovalUnionIff(h, h', conv, sender);
  }

  lemma RemovalUnionIff<C>(h: Hub<C>, h': Hub<C>, conv: Uuid, sender: Uuid)
    requires UnionOk(h) && h'.clients == h.clients - {sender}
    requires forall r, x {:trigger In(h', r, x)} ::
      In(h', r, x) <==> In(h, r, x) && !(r == conv && x == sender)
    requires forall r, x {:trigger Kept(h, h', r, x)} :: Kept(h, h', r, x)
    ensures UnionOk(h') <==> AtHome(h, conv, sender)
  {
    forall r, x {:trigger In(h', r, x)} | In(h', r, x) ensures h'.rooms[r][x] == h.rooms[r][x] {
      assert Kept(h, h', r, x);
    }
    if AtHome(h, conv, sender) {
      forall x | x in h'.clients ensures Somewhere(h', x) {
        assert Somewhere(h, x);
        var r :| In(h, r, x);
        assert In(h', r, x);
      }
    } else {
      assert Somewhere(h, sender);
      var r :| In(h, r, sender);
      assert In(h', r, sender) && sender !in h'.clients;
    }
  }

  /** Calls in which a sender id always names the same conversation. */
  ghost predicate Named<C>(calls: seq<Call<C>>, home: map<Uuid, Uuid>) {
    forall i | 0 <= i < |calls| :: calls[i].sender in home && home[calls[i].sender] == calls[i].conv
  }

  ghost predicate AllHome<C>(h: Hub<C>, home: map<Uuid, Uuid>) {
    forall r, x {:trigger In(h, r, x)} | In(h, r, x) :: x in home && home[x] == r
  }

  lemma ApplyUnion<C>(h: Hub<C>, call: Call<C>, home: map<Uuid, Uuid>)
    requires UnionOk(h) && AllHome(h, home) && call.sender in home && home[call.sender] == call.conv
    ensures UnionOk(Apply(h, call)) && AllHome(Apply(h, call), home)
  {
    if call.sender in h.clients {
      assert Somewhere(h, call.sender);
      var r :| In(h, r, call.sender);
    }
    assert AtHome(h, call.conv, call.sender);
    match call
    case Reg(conv, sender, c) =>
      RegisterUnionIff(h, conv, sender, c);
      RegisterMembers(h, conv, sender, c);
    case Unreg(conv, sender) =>
      UnregisterUnionIff(h, conv, sender, Apply(h, call));
      UnregisterMembers(h, conv, sender, Apply(h, call));
  }

  /** Over such calls clients always is the disjoint union of the rooms, and everybody is at home. */
  lemma {:induction false} UnionAlwaysOk<C>(h: Hub<C>, calls: seq<Call<C>>, home: map<Uuid, Uuid>)
    requires UnionOk(h) && AllHome(h, home) && Named(calls, home)
    ensures UnionOk(Calls(h, calls)) && AllHome(Calls(h, calls), home)
    decreases |calls|
  {
    if calls != [] {
      ApplyUnion(h, calls[0], home);
      UnionAlwaysOk(Apply(h, calls[0]), calls[1..], home);
    }
  }

  // ------------------------------------------------------------------ who stays registered

  /** c is the connection registered for this sender. */
  ghost predicate Registered<C>(h: Hub<C>, sender: Uuid, c: C) { sender in h.clients && h.clients[sender] == c }

  /** c is the member of the room with this sender id. */
  ghost predicate Member<C>(h: Hub<C>, conv: Uuid, sender: Uuid, c: C) {
    In(h, conv, sender) && h.rooms[conv][sender] == c
  }

  /**
   Unregister goes by sender id, not by connection. Called for c it takes out nobody but c, from the
   index and from the room, if and only if the id still stands for c there.
   */
  lemma UnregisterSparesIff<C>(h: Hub<C>, conv: Uuid, sender: Uuid, c: C, h': Hub<C>)
    requires h' == Unregister(h, conv, sender)
    ensures (forall x | x in h.clients && h.clients[x] != c :: x in h'.clients)
            <==> (sender in h.clients ==> Registered(h, sender, c))
    ensures (forall r, x {:trigger In(h, r, x)} | In(h, r, x) && h.rooms[r][x] != c :: In(h', r, x))
            <==> (In(h, conv, sender) ==> Member(h, conv, sender, c))
  {
    UnregisterMembers(h, conv, sender, h');
    assert In(h', conv, sender) ==> false;
    if In(h, conv, sender) && !Member(h, conv, sender, c) {
      assert In(h, conv, sender) && h.rooms[conv][sender] != c && !In(h', conv, sender);
    }
  }

  /** c is not registered by any of these calls. */
  ghost predicate Never<C>(calls: seq<Call<C>>, c: C) {
    forall i | 0 <= i < |calls| && calls[i].Reg? :: calls[i].c != c
  }

  predicate NoCallFor<C>(calls: seq<Call<C>>, sender: Uuid) {
    forall i | 0 <= i < |calls| :: calls[i].sender != sender
  }

  predicate NoCallIn<C>(calls: seq<Call<C>>, conv: Uuid, sender: Uuid) {
    forall i | 0 <= i < |calls| :: !(calls[i].sender == sender && calls[i].conv == conv)
  }

  lemma RegisterKeeps<C>(h: Hub<C>, r: Uuid, x: Uuid, d: C, h': Hub<C>, conv: Uuid, sender: Uuid, c: C)
    requires h' == Register(h, r, x, d)
    ensures Registered(h', sender, c) <==> if x == sender then d == c else Registered(h, sender, c)
    ensures Member(h', conv, sender, c) <==> if x == sender && r == conv then d == c else Member(h, conv, sender, c)
  {
  }

  lemma UnregisterKeeps<C>(h: Hub<C>, r: Uuid, x: Uuid, h': Hub<C>, conv: Uuid, sender: Uuid, c: C)
    requires h' == Unregister(h, r, x)
    ensures Registered(h', sender, c) <==> Registered(h, sender, c) && x != sender
    ensures Member(h', conv, sender, c) <==> Member(h, conv, sender, c) && !(x == sender && r == conv)
  {
    UnregisterMember(h, r, x, h', conv, sender);
    RemovalKeeps(h, r, x, h', conv, sender, c);
  }

  lemma RemovalKeeps<C>(h: Hub<C>, r: Uuid, x: Uuid, h': Hub<C>, conv: Uuid, sender: Uuid, c: C)
    requires h'.clients == h.clients - {x}
    requires In(h', conv, sender) <==> In(h, conv, sender) && !(conv == r && sender == x)
    requires Kept(h, h', conv, sender)
    ensures Registered(h', sender, c) <==> Registered(h, sender, c) && x != sender
    ensures Member(h', conv, sender, c) <==> Member(h, conv, sender, c) && !(x == sender && r == conv)
  {
  }

  /** One call leaves c registered exactly when it is not a call for the same sender id. */
  lemma CallKeeps<C>(h: Hub<C>, call: Call<C>, conv: Uuid, sender: Uuid, c: C)
    requires call.Reg? ==> call.c != c
    ensures Registered(Apply(h, call), sender, c) <==> Registered(h, sender, c) && call.sender != sender
    ensures Member(Apply(h, call), conv, sender, c)
            <==> Member(h, conv, sender, c) && !(call.sender == sender && call.conv == conv)
  {
    match call
    case Reg(r, x, d) => RegisterKeeps(h, r, x, d, Apply(h, call), conv, sender, c);
    case Unreg(r, x) => UnregisterKeeps(h, r, x, Apply(h, call), conv, sender, c);
  }

  lemma {:induction false} CallsKeep<C>(h: Hub<C>, calls: seq<Call<C>>, conv: Uuid, sender: Uuid, c: C)
    requires Never(calls, c)
    ensures Registered(Calls(h, calls), sender, c) <==> Registered(h, sender, c) && NoCallFor(calls, sender)
    ensures Member(Calls(h, calls), conv, sender, c) <==> Member(h, conv, sender, c) && NoCallIn(calls, conv, sender)
    decreases |calls|
  {
    if calls != [] {
      var rest := calls[1..];
      CallKeeps(h, calls[0], conv, sender, c);
      NoCallSplit(calls, conv, sender, c);
      CallsKeep(Apply(h, calls[0]), rest, conv, sender, c);
    }
  }

  lemma NoCallSplit<C>(calls: seq<Call<C>>, conv: Uuid, sender: Uuid, c: C)
    requires calls != []
    ensures Never(calls, c) ==> Never(calls[1..], c)
    ensures NoCallFor(calls, sender) <==> calls[0].sender != sender && NoCallFor(calls[1..], sender)
    ensures NoCallIn(calls, conv, sender)
            <==> !(calls[0].sender == sender && calls[0].conv == conv) && NoCallIn(calls[1..], conv, sender)
  {
    assert calls == [calls[0]] + calls[1..];
  }

  lemma {:induction false} CallsAppend<C>(h: Hub<C>, a: seq<Call<C>>, b: seq<Call<C>>)
    ensures Calls(h, a + b) == Calls(Calls(h, a), b)
    decreases |a|
  {
    if a == [] {
      assert a + b == b;
    } else {
      assert (a + b)[0] == a[0] && (a + b)[1..] == a[1..] + b;
      CallsAppend(Apply(h, a[0]), a[1..], b);
    }
  }

  lemma FirstCall<C>(h: Hub<C>, call: Call<C>, rest: seq<Call<C>>, h1: Hub<C>)
    requires h1 == Apply(h, call)
    ensures Calls(h, [call] + rest) == Calls(h1, rest)
  {
    assert ([call] + rest)[1..] == rest;
  }

  /**
   Over every sequence of calls: a connection that registers once stays registered if and only if no
   Register or Unregister of its sender id follows, whosever connection that call was for; and it stays in
   its room if and only if none follows for that room. Until then nothing takes it out, and after it
   nothing brings it back.
   */
  lemma RegisteredIff<C>(calls: seq<Call<C>>, i: nat)
    requires i < |calls| && calls[i].Reg?
    requires forall j | 0 <= j < |calls| && j != i && calls[j].Reg? :: calls[j].c != calls[i].c
    ensures
      var h, me := Calls(Empty<C>(), calls), calls[i];
      && (Registered(h, me.sender, me.c) <==> NoCallFor(calls[i + 1..], me.sender))
      && (Member(h, me.conv, me.sender, me.c) <==> NoCallIn(calls[i + 1..], me.conv, me.sender))
  {
    var before, me, after := calls[..i], calls[i], calls[i + 1..];
    var h := Calls(Empty<C>(), before);
    assert calls == before + ([me] + after);
    CallsAppend(Empty<C>(), before, [me] + after);
    var h1 := Register(h, me.conv, me.sender, me.c);
    FirstCall(h, me, after, h1);
    assert Never(after, me.c) by {
      assert forall j | 0 <= j < |after| :: after[j] == calls[i + 1 + j];
    }
    RegisterKeeps(h, me.conv, me.sender, me.c, h1, me.conv, me.sender, me.c);
    CallsKeep(h1, after, me.conv, me.sender, me.c);
  }
}
