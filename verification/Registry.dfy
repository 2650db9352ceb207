/** The in-memory connection registry of internal/app/registry/registry.go. */
module Registry {
  import opened Common
  import opened Client
  import H = Hub

  function SenderOf(c: RuntimeClient): Uuid { c.senderID }
  function ConvOf(c: RuntimeClient): Uuid { c.convID }

  /** A client with so many frames waiting takes one more, unless it is closing and full or its select sees that. */
  predicate Takes(done: bool, waiting: nat, takeDone: bool) {
    !done || (!takeDone && waiting < 256)
  }

  class Registry {
    /** sender id to client */
    var clients: map<Uuid, RuntimeClient>
    var roomHub: map<Uuid, map<Uuid, RuntimeClient>>
    /** CancelFunc of each room's worker, named by the number of its context */
    var workers: map<Uuid, nat>
    /** every context made so far */
    var contexts: seq<H.Context>

    ghost function State(): H.Hub<RuntimeClient>
      reads this
    {
      H.Hub(clients, roomHub, workers, contexts)
    }

    ghost function Members(): set<RuntimeClient>
      reads this
    {
      H.Known(State())
    }

    /** Every client is stored under its own ids, and the rooms and workers agree. */
    ghost predicate Valid()
      reads this, Members()
    {
      && H.IndexOk(State(), SenderOf, ConvOf)
      && forall c | c in Members() :: c.Valid()
    }

    constructor ()
      ensures Valid() && State() == H.Empty<RuntimeClient>() && Members() == {}
    {
      clients, roomHub, workers, contexts := map[], map[], map[], [];
    }

    /** The map updates of Register, under the lock. */
    method Insert(convID: Uuid, senderID: Uuid, c: RuntimeClient)
      modifies `clients, `roomHub, `workers, `contexts
      ensures State() == H.Register(old(State()), convID, senderID, c)
    {
      if convID !in roomHub {
        roomHub := roomHub[convID := map[]];
        workers := workers[convID := |contexts|];
        contexts := contexts + [H.Context(convID, 0)];
      }
      var members := roomHub[convID];
      roomHub := roomHub[convID := members[senderID := c]];
      clients := clients[senderID := c];
    }

    method Register(c: RuntimeClient)
      requires Valid() && c.Valid()
      modifies `clients, `roomHub, `workers, `contexts
      ensures Valid() && State() == H.Register(old(State()), c.convID, c.senderID, c)
    {
      hide H.Register, H.IndexOk;
      ghost var after := H.Register(State(), ConvOf(c), SenderOf(c), c);
      H.RegisterIndex(State(), after, c, SenderOf, ConvOf);
      ghost var known, allowed := H.Known(after), Members() + {c};
      forall d | d in known ensures d.Valid() {
        assert d in allowed;
      }
      Insert(ConvOf(c), SenderOf(c), c);
      assert Members() == known;
    }

    /** The map updates of Unregister, under the lock; the inner map of an emptied room goes with the room. */
    method Delete(convID: Uuid, senderID: Uuid)
      modifies `clients, `roomHub, `workers, `contexts
      ensures State() == H.Unregister(old(State()), convID, senderID)
    {
      ghost var before := State();
      var rest := (if convID in roomHub then roomHub[convID] else map[]) - {senderID};
      assert rest == before.Room(convID) - {senderID};
      clients := clients - {senderID};
      if |rest| > 0 {
        assert !H.LastOne(before, convID, senderID);
        roomHub := roomHub[convID := rest];
      } else {
        assert H.LastOne(before, convID, senderID);
        roomHub := roomHub - {convID};
        if convID in workers {
          contexts := H.Cancel(contexts, workers[convID]);
          workers := workers - {convID};
        }
      }
    }

    method Unregister(c: RuntimeClient)
      requires Valid()
      modifies `clients, `roomHub, `workers, `contexts
      ensures Valid() && State() == H.Unregister(old(State()), c.convID, c.senderID)
    {
      hide H.Unregister, H.IndexOk;
      ghost var after := H.Unregister(State(), c.convID, c.senderID);
      H.UnregisterIndex(State(), after, c, SenderOf, ConvOf);
      Delete(c.convID, c.senderID);
    }

    /** An ack goes to the client registered for the sender, if there is one, and to nobody else. */
    method SendAck(senderID: Uuid, ack: Frame, takeDone: bool)
      requires Valid()
      modifies Members()`out, Members()`socket, Members()`accepted
      ensures Valid() && unchanged(this)
      ensures forall c | c in Members() :: c.accepted == old(c.accepted) || c.accepted == old(c.accepted) + [ack]
      ensures forall c | c in Members() && (senderID !in clients || c != clients[senderID]) ::
                c.accepted == old(c.accepted)
      ensures senderID in clients ==>
        var c := clients[senderID];
        c.accepted ==
          if Takes(c.done, |old(c.out)|, takeDone) then old(c.accepted) + [ack] else old(c.accepted)
    {
      if senderID !in clients { return; }
      var c := clients[senderID];
      var _ := c.Send(ack, takeDone);
    }

    lemma RoomFacts(convID: Uuid)
      requires Valid() && convID in roomHub
      ensures forall x | x in roomHub[convID] ::
                roomHub[convID][x] in Members() && roomHub[convID][x].senderID == x
    {
      forall x | x in roomHub[convID]
        ensures roomHub[convID][x] in Members() && roomHub[convID][x].senderID == x
      {
        assert H.In(State(), convID, x);
        assert SenderOf(roomHub[convID][x]) == x;
      }
    }

    /** The clients a message of this sender is meant for. */
    ghost function Audience(convID: Uuid, sender: Uuid): set<RuntimeClient>
      reads this
    {
      var room := State().Room(convID);
      set x | x in room && x != sender :: room[x]
    }

    lemma SenderNotInAudience(convID: Uuid, sender: Uuid)
      requires Valid()
      ensures Audience(convID, sender) <= Members()
      ensures sender in clients ==> clients[sender] !in Audience(convID, sender)
    {
      if convID in roomHub { RoomFacts(convID); }
      assert sender in clients ==> SenderOf(clients[sender]) == sender;
    }

    /** The loop of Broadcast over one room. takeDone is the branch taken for clients that are closing. */
    static method SendAll(room: map<Uuid, RuntimeClient>, msg: Frame, sender: Uuid, takeDone: bool)
      requires forall x | x in room :: room[x].Valid() && room[x].senderID == x
      modifies (set x | x in room :: room[x])`out, (set x | x in room :: room[x])`socket,
               (set x | x in room :: room[x])`accepted
      ensures forall x | x in room :: room[x].Valid()
      ensures sender in room ==> room[sender].accepted == old(room[sender].accepted)
      ensures forall x | x in room && x != sender ::
        room[x].accepted == old(room[x].accepted) +
          if Takes(room[x].done, |old(room[x].out)|, takeDone) then [msg] else []
    {
      var todo := room.Keys;
      while todo != {}
        invariant todo <= room.Keys
        invariant forall x | x in room :: room[x].Valid()
        invariant forall x | x in room && (x in todo || x == sender) ::
          room[x].accepted == old(room[x].accepted) && room[x].out == old(room[x].out)
        invariant forall x | x in room && x != sender && x !in todo ::
          room[x].accepted == old(room[x].accepted) +
            if Takes(room[x].done, |old(room[x].out)|, takeDone) then [msg] else []
        decreases todo
      {
        var x :| x in todo;
        if x != sender {
          var _ := room[x].Send(msg, takeDone);
        }
        todo := todo - {x};
      }
    }

    /**
     Every open client of the room except the sender gets the message exactly once; nobody else gets
     anything.
     */
    method Broadcast(convID: Uuid, msg: Frame, sender: Uuid, takeDone: bool)
      requires Valid()
      modifies Members()`out, Members()`socket, Members()`accepted
      ensures Valid() && unchanged(this)
      ensures forall c | c in Members() && c !in Audience(convID, sender) :: c.accepted == old(c.accepted)
      ensures forall c | c in Audience(convID, sender) ::
        c.accepted == old(c.accepted) + if Takes(c.done, |old(c.out)|, takeDone) then [msg] else []
    {
      hide H.RoomsOk, H.Labelled;
      if convID !in roomHub { return; }
      RoomFacts(convID);
      var room := roomHub[convID];
      SendAll(room, msg, sender, takeDone);
    }
  }
}
