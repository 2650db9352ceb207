/**
 The moving parts of the pipeline as objects: the queue of internal/plugins/redis/queue.go, the
 message service of internal/core/services/messages.go and the worker of internal/app/worker/worker.go.
 */
module Services {
  import opened Common
  import opened Client
  import opened Handling
  import opened History
  import opened Draining
  import opened Postgres
  import opened Registry
  import opened Machine
  import T = Tables
  import H = Hub
  import S = Streams

  /** The streams after are those before, except that stream c is now st. */
  ghost predicate OnlyStream(before: map<Uuid, S.Stream>, after: map<Uuid, S.Stream>, c: Uuid, st: S.Stream) {
    forall d {:trigger StreamOf(after, d)} ::
      StreamOf(after, d) == if d == c then st else StreamOf(before, d)
  }

  ghost predicate StreamOk(streams: map<Uuid, S.Stream>, c: Uuid) {
    S.WellFormed(StreamOf(streams, c))
  }

  ghost predicate AllStreamsOk(streams: map<Uuid, S.Stream>) {
    forall c {:trigger StreamOk(streams, c)} :: StreamOk(streams, c)
  }

  lemma UpdateOk(streams: map<Uuid, S.Stream>, after: map<Uuid, S.Stream>, c: Uuid, st: S.Stream)
    requires AllStreamsOk(streams) && S.WellFormed(st) && after == streams[c := st]
    ensures AllStreamsOk(after)
  {
    forall d ensures StreamOk(after, d) {
      assert StreamOk(streams, d);
    }
  }

  /** The payload has been added at the end, and the gone oldest entries have been taken away. */
  ghost predicate AddedWith(st: S.Stream, st': S.Stream, payload: S.Payload, gone: nat) {
    var all := st.entries + [|st.log|];
    && gone <= |all|
    && st'.log == st.log + [payload] && st'.entries == all[gone..]
    && st'.dropped == st.dropped + (set x | x in all[..gone] && x >= st.cursor)
    && st'.group == st.group && st'.cursor == st.cursor && st'.pending == st.pending && st'.acked == st.acked
  }

  class RedisMessageQueue {
    var streams: map<Uuid, S.Stream>

    ghost predicate Valid()
      reads this
    {
      AllStreamsOk(streams)
    }

    /**
     evict is the number of entries that an approximate MAXLEN is about to remove: that many of the oldest
     ones go, but never one of the newest 1000.
     */
    method PublishToStream(convID: Uuid, payload: S.Payload, evict: nat, f: Fault) returns (ok: bool)
      requires Valid()
      modifies `streams
      ensures Valid() && (ok <==> f == Fine)
      ensures OnlyStream(old(streams), streams, convID,
                if f == Refused then StreamOf(old(streams), convID)
                else S.XAdd(StreamOf(old(streams), convID), payload, evict))
      ensures f != Refused ==>
        var st := StreamOf(old(streams), convID);
        AddedWith(st, StreamOf(streams, convID), payload, if |st.entries| + 1 >= 1000 + evict then evict else 0)
    {
      if f != Refused {
        assert StreamOk(streams, convID);
        S.XAddOk(StreamOf(streams, convID), payload, evict);
        streams := streams[convID := S.XAdd(StreamOf(streams, convID), payload, evict)];
        UpdateOk(old(streams), streams, convID, streams[convID]);
      }
      ok := f == Fine;
    }

    /** Makes the group read from the beginning; a group that is there stays where it is. */
    method CreateGroup(convID: Uuid, f: Fault) returns (ok: bool)
      requires Valid()
      modifies `streams
      ensures Valid() && (ok <==> f == Fine)
      ensures OnlyStream(old(streams), streams, convID,
                if f == Refused then StreamOf(old(streams), convID)
                else S.XGroupCreate(StreamOf(old(streams), convID)))
      ensures f != Refused ==>
        var st, st' := StreamOf(old(streams), convID), StreamOf(streams, convID);
        && st'.group && st' == st.(group := true) && (!st.group ==> st'.cursor == 0)
    {
      if f != Refused {
        assert StreamOk(streams, convID);
        S.XGroupCreateOk(StreamOf(streams, convID));
        streams := streams[convID := S.XGroupCreate(StreamOf(streams, convID))];
        UpdateOk(old(streams), streams, convID, streams[convID]);
      }
      ok := f == Fine;
    }

    /**
     The oldest entry the group has not passed, unless there is none or the reply never came. Executed, it
     leaves the entry pending, answered or not.
     */
    method ReadGroup(convID: Uuid, f: Fault) returns (r: Option<(nat, S.Payload)>)
      requires Valid()
      modifies `streams
      ensures Valid()
      ensures var st := StreamOf(old(streams), convID);
        if f == Refused || S.XReadGroup(st).None? then r == None && streams == old(streams)
        else
          var (st', id) := S.XReadGroup(st).value;
          && OnlyStream(old(streams), streams, convID, st')
          && S.Undelivered(st, id) && id < |st.log| && id !in st.pending && id !in st.acked
          && r == if f == Fine then Some((id, st.log[id])) else None
      ensures var st, st' := StreamOf(old(streams), convID), StreamOf(streams, convID);
        && (streams == old(streams) <==>
              f == Refused || !st.group || forall x | x in st.entries :: x < st.cursor)
        && (streams != old(streams) ==>
              && st'.cursor > 0
              && var id := st'.cursor - 1;
              && id in st.entries && id >= st.cursor && (forall x | x in st.entries && x >= st.cursor :: id <= x)
              && st' == st.(cursor := id + 1, pending := st.pending + {id}))
    {
      var st := StreamOf(streams, convID);
      assert StreamOk(streams, convID);
      S.XReadGroupOk(st);
      S.FirstNewIsLeast(st.entries, st.cursor);
      if f == Refused { return None; }
      match S.XReadGroup(st)
      case None => return None;
      case Some((st', id)) =>
        assert st'.cursor != st.cursor;
        streams := streams[convID := st'];
        UpdateOk(old(streams), streams, convID, streams[convID]);
        return if f == Fine then Some((id, st.log[id])) else None;
    }

    /** Moves one entry from the pending ones to the acknowledged ones; any other id changes nothing. */
    method AcknowledgeMessage(convID: Uuid, id: nat, f: Fault) returns (ok: bool)
      requires Valid()
      modifies `streams
      ensures Valid() && (ok <==> f == Fine)
      ensures OnlyStream(old(streams), streams, convID,
                if f == Refused then StreamOf(old(streams), convID)
                else S.XAck(StreamOf(old(streams), convID), id))
      ensures f != Refused ==>
        var st, st' := StreamOf(old(streams), convID), StreamOf(streams, convID);
        && st' == st.(pending := st'.pending, acked := st'.acked)
        && st'.pending == st.pending - {id}
        && st'.acked == st.acked + if id in st.pending then {id} else {}
    {
      if f != Refused && convID in streams {
        assert StreamOk(streams, convID);
        S.XAckOk(streams[convID], id);
        streams := streams[convID := S.XAck(streams[convID], id)];
        UpdateOk(old(streams), streams, convID, streams[convID]);
      }
      ok := f == Fine;
    }

    /** Called only for an entry that has been delivered. Takes it out; the others stay in order. */
    method DeleteMessage(convID: Uuid, id: nat, f: Fault) returns (ok: bool)
      requires Valid() && id < StreamOf(streams, convID).cursor
      modifies `streams
      ensures Valid() && (ok <==> f == Fine)
      ensures OnlyStream(old(streams), streams, convID,
                if f == Refused then StreamOf(old(streams), convID)
                else S.XDel(StreamOf(old(streams), convID), id))
      ensures f != Refused ==>
        var st, st' := StreamOf(old(streams), convID), StreamOf(streams, convID);
        && st' == st.(entries := st'.entries)
        && (forall x :: x in st'.entries <==> x in st.entries && x != id)
        && S.Ascending(st'.entries)
    {
      assert StreamOk(streams, convID);
      if f != Refused && convID in streams {
        S.XDelOk(streams[convID], id);
        streams := streams[convID := S.XDel(streams[convID], id)];
        UpdateOk(old(streams), streams, convID, streams[convID]);
        assert StreamOk(streams, convID);
      }
      ok := f == Fine;
    }
  }

  // ------------------------------------------------------------------ the two ends of the pipeline

  /** A client has accepted one more frame, or nothing because it is closing. */
  ghost predicate Got(before: seq<Frame>, after: seq<Frame>, closing: bool, frame: Frame) {
    (after == before && closing) || after == before + [frame]
  }

  /** What a client is to a message: in its room, registered as its sender, or neither. */
  datatype Role = Listener | Author | Bystander

  /** What an open client in this role accepts of a message saved with number n, or not saved. */
  function FramesFor(role: Role, p: S.Payload, n: Option<nat>): seq<Frame> {
    if n.None? || role == Bystander then []
    else if role == Listener then [ChatMessage(p.conv, p.sender, n.value, p.text, p.createdAt)]
    else [Persisted(p.clientMsgId, n.value)]
  }

  /** A client that is closing may accept nothing instead. */
  ghost predicate Received(
      role: Role, p: S.Payload, n: Option<nat>, before: seq<Frame>, after: seq<Frame>, closing: bool)
  {
    after == before + FramesFor(role, p, n) || (closing && after == before)
  }

  /** The number a save came back with. */
  function NumberOf(r: Result<nat, Error>): Option<nat> {
    match r
    case Ok(n) => Some(n)
    case Err(_) => None
  }

  /** A save that comes back with a number has stored the payload under it. */
  lemma SavedRow(shared: bool, db: T.Db, p: S.Payload, id: Uuid, now: Time, f: SaveFaults)
    ensures var (db', saved) := SaveInTx(shared, db, MessageOf(p, id), now, f);
      saved.Ok? ==> id in db'.msgs && db'.msgs[id] == T.Row(p.conv, p.sender, saved.value, p.text, now)
  {
    SaveMeaning(shared, db, MessageOf(p, id), now, f);
  }

  class MessageService {
    const queue: RedisMessageQueue
    const registry: Registry
    const repo: MessageRepo
    const txManager: TxManager

    constructor (queue: RedisMessageQueue, registry: Registry, repo: MessageRepo, txManager: TxManager)
      ensures this.queue == queue && this.registry == registry
      ensures this.repo == repo && this.txManager == txManager
    {
      this.queue, this.registry, this.repo, this.txManager := queue, registry, repo, txManager;
    }

    ghost predicate Valid()
      reads queue, registry, registry.Members()
    {
      queue.Valid() && registry.Valid() && repo.pool == txManager.pool
    }

    /**
     The single tick goes out only after the publication, so a sender who has it has an entry in the
     stream. When only the reply of XADD is lost the entry is there and no tick is sent.
     */
    method AcceptMessage(
        senderID: Uuid, convID: Uuid, text: string, clientMsgID: string, now: Time,
        evict: nat, f: Fault, takeDone: bool) returns (r: Result<S.Payload, Error>)
      requires Valid()
      modifies queue`streams, registry.Members()`out, registry.Members()`socket, registry.Members()`accepted
      ensures Valid() && (r.Ok? <==> f == Fine)
      ensures var p := S.Payload(clientMsgID, convID, senderID, text, now);
        && (r.Ok? ==> r.value == p)
        && OnlyStream(old(queue.streams), queue.streams, convID,
             if f == Refused then StreamOf(old(queue.streams), convID)
             else S.XAdd(StreamOf(old(queue.streams), convID), p, evict))
      ensures forall c | c in registry.Members() ::
        if r.Ok? && senderID in registry.clients && c == registry.clients[senderID]
        then Got(old(c.accepted), c.accepted, old(c.done), ServerReceived(clientMsgID))
        else c.accepted == old(c.accepted)
    {
      hide H.IndexOk, AddedWith;
      var p := S.Payload(clientMsgID, convID, senderID, text, now);
      var published := queue.PublishToStream(convID, p, evict, f);
      if !published { return Err(Unavailable); }
      label published:
      registry.SendAck(senderID, ServerReceived(clientMsgID), takeDone);
      forall c | c in registry.Members()
        ensures if senderID in registry.clients && c == registry.clients[senderID]
          then Got(old(c.accepted), c.accepted, old(c.done), ServerReceived(clientMsgID))
          else c.accepted == old(c.accepted)
      {
        assert old@published(c.accepted) == old(c.accepted);
      }
      return Ok(p);
    }

    /** The save of SaveAndBroadcast: WithTx around SaveWithSequence. */
    method SaveWithTx(ctx: Context, msg: Message, now: Time, f: SaveFaults) returns (r: Result<nat, Error>)
      requires repo.pool == txManager.pool && PostgresTxKey !in ctx.values
      modifies repo.pool`db, repo.pool`touched
      ensures (repo.pool.db, r) == SaveInTx(txManager.Shared(), old(repo.pool.db), msg, now, f)
    {
      if !f.begin { return Err(Unavailable); }
      var tx, txCtx := txManager.Begin(ctx);
      r := repo.SaveWithSequence(txCtx, msg, now, f.draw, f.insert);
      if r.Err? { return; }
      var committed := txManager.Commit(tx, f.commit);
      if !committed { return Err(Unavailable); }
    }

    ghost function RoleOf(p: S.Payload, c: RuntimeClient): Role
      reads registry
    {
      if c in registry.Audience(p.conv, p.sender) then Listener
      else if p.sender in registry.clients && c == registry.clients[p.sender] then Author
      else Bystander
    }

    /** What an open client accepts in one round of the consumer loop. */
    ghost function RoundFrames(c: RuntimeClient, shared: bool, db: T.Db, st: S.Stream, r: Round): seq<Frame>
      reads registry
    {
      if r.read != Fine || S.XReadGroup(st).None? || S.XReadGroup(st).value.1 >= |st.log| then []
      else
        var p := st.log[S.XReadGroup(st).value.1];
        var (_, saved) := SaveInTx(shared, db, MessageOf(p, r.id), r.now, r.faults.save);
        FramesFor(RoleOf(p, c), p, NumberOf(saved))
    }

    /** What it accepts in all of them. */
    ghost function Told(c: RuntimeClient, shared: bool, db: T.Db, st: S.Stream, rounds: seq<Round>): seq<Frame>
      reads registry
      decreases |rounds|
    {
      if rounds == [] then []
      else
        var (db', st') := OneRound(shared, db, st, rounds[0]);
        RoundFrames(c, shared, db, st, rounds[0]) + Told(c, shared, db', st', rounds[1..])
    }

    /** With what it accepts in the rounds to come the client has accepted all of it. */
    ghost predicate Owed(
        c: RuntimeClient, all: seq<Frame>, shared: bool, db: T.Db, st: S.Stream, rounds: seq<Round>,
        accepted: seq<Frame>)
      reads registry
    {
      accepted + Told(c, shared, db, st, rounds) == all
    }

    lemma OwedNext(
        c: RuntimeClient, all: seq<Frame>, shared: bool, db: T.Db, st: S.Stream, rounds: seq<Round>,
        accepted: seq<Frame>)
      requires rounds != [] && Owed(c, all, shared, db, st, rounds, accepted)
      ensures
        var (db', st') := OneRound(shared, db, st, rounds[0]);
        Owed(c, all, shared, db', st', rounds[1..], accepted + RoundFrames(c, shared, db, st, rounds[0]))
    {
      hide OneRound, RoundFrames;
    }

    /** The message to everyone else in the room, then the double tick to its sender. */
    method Announce(payload: S.Payload, n: nat, takeDone: bool)
      requires registry.Valid()
      modifies registry.Members()`out, registry.Members()`socket, registry.Members()`accepted
      ensures registry.Valid()
      ensures forall c: RuntimeClient | old(allocated(c)) ::
        Received(old(RoleOf(payload, c)), payload, Some(n), old(c.accepted), c.accepted, old(c.done))
      ensures forall x |
        payload.conv in registry.roomHub && x in registry.roomHub[payload.conv] && x != payload.sender ::
        var c := registry.roomHub[payload.conv][x];
        Got(old(c.accepted), c.accepted, old(c.done),
          ChatMessage(payload.conv, payload.sender, n, payload.text, payload.createdAt))
      ensures payload.sender in registry.clients ==>
        var c := registry.clients[payload.sender];
        Got(old(c.accepted), c.accepted, old(c.done), Persisted(payload.clientMsgId, n))
    {
      hide H.IndexOk;
      ghost var audience := registry.Audience(payload.conv, payload.sender);
      registry.SenderNotInAudience(payload.conv, payload.sender);
      var chat := ChatMessage(payload.conv, payload.sender, n, payload.text, payload.createdAt);
      registry.Broadcast(payload.conv, chat, payload.sender, takeDone);
      label sent:
      registry.SendAck(payload.sender, Persisted(payload.clientMsgId, n), takeDone);
      forall c: RuntimeClient | old(allocated(c))
        ensures Received(old(RoleOf(payload, c)), payload, Some(n), old(c.accepted), c.accepted, old(c.done))
      {
        if c in audience {
          assert c.accepted == old@sent(c.accepted);
        } else {
          assert old@sent(c.accepted) == old(c.accepted);
        }
      }
    }

    /**
     Saves the message and, only when that succeeded, sends the number it was stored with: the message
     to everyone else in the room and the double tick to its sender.
     */
    method SaveAndBroadcast(
        ctx: Context, payload: S.Payload, id: Uuid, now: Time, f: SaveFaults, takeDone: bool)
        returns (r: Result<(), Error>)
      requires Valid() && PostgresTxKey !in ctx.values
      modifies repo.pool`db, repo.pool`touched,
               registry.Members()`out, registry.Members()`socket, registry.Members()`accepted
      ensures Valid()
      ensures var (db, saved) := SaveInTx(txManager.Shared(), old(repo.pool.db), MessageOf(payload, id), now, f);
        && repo.pool.db == db
        && r == (match saved case Ok(_) => Ok(()) case Err(e) => Err(e))
        && forall c: RuntimeClient | old(allocated(c)) ::
             Received(old(RoleOf(payload, c)), payload, NumberOf(saved), old(c.accepted), c.accepted, old(c.done))
      ensures r.Ok? ==>
        && id in repo.pool.db.msgs
        && var row := repo.pool.db.msgs[id];
        && row == T.Row(payload.conv, payload.sender, row.seqNo, payload.text, now)
        && (forall x | payload.conv in registry.roomHub && x in registry.roomHub[payload.conv] && x != payload.sender ::
              var c := registry.roomHub[payload.conv][x];
              Got(old(c.accepted), c.accepted, old(c.done),
                ChatMessage(row.conv, row.sender, row.seqNo, row.text, payload.createdAt)))
        && (payload.sender in registry.clients ==>
              var c := registry.clients[payload.sender];
              Got(old(c.accepted), c.accepted, old(c.done), Persisted(payload.clientMsgId, row.seqNo)))
    {
      hide H.IndexOk, SaveInTx, AllStreamsOk, Got, MessageService.RoleOf;
      ghost var db := repo.pool.db;
      var saved := SaveWithTx(ctx, MessageOf(payload, id), now, f);
      if saved.Err? { return Err(saved.error); }
      Announce(payload, saved.value, takeDone);
      SavedRow(txManager.Shared(), db, payload, id, now, f);
      return Ok(());
    }

    /**
     The rows of the last minute in order, or an error and no rows. The statement is given the outer
     context, so it never runs in the transaction opened around it.
     */
    method GetMessages(ctx: Context, c: Uuid, now: Time, begin: bool, f: Fault, commit: Fault)
        returns (r: Result<seq<Shown>, Error>)
      requires repo.pool == txManager.pool && PostgresTxKey !in ctx.values
      modifies repo.pool`db
      ensures repo.pool.db == old(repo.pool.db)
      ensures r.Ok? <==> begin && c != NIL && f == Fine && commit == Fine
      ensures r.Ok? ==>
        && var db := repo.pool.db;
        && IsWindow(db, c, now, Ids(r.value))
        && (forall x | x in r.value :: x.id in db.msgs && x.row == db.msgs[x.id])
        && forall m :: m in Ids(r.value) <==>
             m in db.msgs && db.msgs[m].conv == c && db.msgs[m].createdAt >= now - 60_000
    {
      if !begin { return Err(Unavailable); }
      var tx, _ := txManager.Begin(ctx);
      r := repo.GetVisibleMessages(ctx, c, now, f);
      if r.Err? { return; }
      var committed := txManager.Commit(tx, commit);
      if !committed { return Err(Unavailable); }
    }
  }

  // ------------------------------------------------------------------ the worker

  /** Everything in stream c is addressed to conversation c, as it is with canonical ids. */
  ghost predicate Addressed(st: S.Stream, c: Uuid) {
    forall id: nat | id < |st.log| :: st.log[id].conv == c
  }

  /** A round whose reader got an entry is a handler's work on that entry, and never changes the log. */
  lemma ReadThenHandle(shared: bool, db: T.Db, st: S.Stream, r: Round)
    requires r.read == Fine && S.XReadGroup(st).Some? && S.XReadGroup(st).value.1 < |st.log|
    ensures
      var (st1, x) := S.XReadGroup(st).value;
      && st1.log == st.log
      && var (db', st', _) := Handle(shared, db, st1, x, MessageOf(st.log[x], r.id), r.now, r.faults);
      && OneRound(shared, db, st, r) == (db', st') && st'.log == st.log
  {
    var (st1, x) := S.XReadGroup(st).value;
    HandledStream(shared, db, st1, x, MessageOf(st.log[x], r.id), r.now, r.faults);
  }

  class ConversationWorker {
    const queue: RedisMessageQueue
    const messages: MessageService

    constructor (queue: RedisMessageQueue, messages: MessageService)
      ensures this.queue == queue && this.messages == messages
    {
      this.queue, this.messages := queue, messages;
    }

    ghost predicate Valid()
      reads queue, messages.registry, messages.registry.Members()
    {
      messages.queue == queue && messages.Valid()
    }

    /** ProcessMessage after the save. */
    method Settle(saved: bool, convID: Uuid, messageID: nat, ack: Fault, del: Fault) returns (ok: bool)
      requires Valid() && messageID < StreamOf(queue.streams, convID).cursor
      modifies queue`streams
      ensures Valid()
      ensures var (st, done) := Settled(saved, StreamOf(old(queue.streams), convID), messageID, ack, del);
        ok == done && OnlyStream(old(queue.streams), queue.streams, convID, st)
    {
      if !saved { return false; }
      ok := queue.AcknowledgeMessage(convID, messageID, ack);
      if ok {
        var _ := queue.DeleteMessage(convID, messageID, del);
      }
    }

    /**
     Save, then acknowledge, then delete. The entry is acknowledged only if its message was saved, and
     clients hear of the message exactly when it was.
     */
    method ProcessMessage(
        ctx: Context, messageID: nat, payload: S.Payload, id: Uuid, now: Time, f: Faults, takeDone: bool)
        returns (ok: bool)
      requires Valid() && PostgresTxKey !in ctx.values
      requires messageID < StreamOf(queue.streams, payload.conv).cursor
      modifies queue`streams, messages.repo.pool`db, messages.repo.pool`touched,
               messages.registry.Members()`out,
               messages.registry.Members()`socket, messages.registry.Members()`accepted
      ensures Valid()
      ensures var (db, st, done) := Handle(messages.txManager.Shared(), old(messages.repo.pool.db),
                StreamOf(old(queue.streams), payload.conv), messageID, MessageOf(payload, id), now, f);
        && messages.repo.pool.db == db && ok == done
        && OnlyStream(old(queue.streams), queue.streams, payload.conv, st)
      ensures var (_, saved) := SaveInTx(messages.txManager.Shared(), old(messages.repo.pool.db),
                MessageOf(payload, id), now, f.save);
        forall c: RuntimeClient | old(allocated(c)) ::
          Received(old(messages.RoleOf(payload, c)), payload, NumberOf(saved), old(c.accepted), c.accepted, old(c.done))
    {
      hide H.IndexOk, SaveInTx, Received;
      var saved := messages.SaveAndBroadcast(ctx, payload, id, now, f.save, takeDone);
      ok := Settle(saved.Ok?, payload.conv, messageID, f.ack, f.del);
    }

    /** One turn of the consumer loop: XREADGROUP, then the handler if an entry came. */
    method Turn(ctx: Context, convID: Uuid, r: Round, takeDone: bool)
      requires Valid() && PostgresTxKey !in ctx.values && Addressed(StreamOf(queue.streams, convID), convID)
      modifies queue`streams, messages.repo.pool`db, messages.repo.pool`touched,
               messages.registry.Members()`out, messages.registry.Members()`socket,
               messages.registry.Members()`accepted
      ensures Valid() && Addressed(StreamOf(queue.streams, convID), convID)
      ensures var (db, st) := OneRound(messages.txManager.Shared(), old(messages.repo.pool.db),
                StreamOf(old(queue.streams), convID), r);
        messages.repo.pool.db == db && OnlyStream(old(queue.streams), queue.streams, convID, st)
      ensures forall c: RuntimeClient | old(allocated(c)) ::
        || c.accepted == old(c.accepted) + messages.RoundFrames(c, messages.txManager.Shared(),
             old(messages.repo.pool.db), StreamOf(old(queue.streams), convID), r)
        || (old(c.done) && c.accepted == old(c.accepted))
    {
      hide H.IndexOk, Handle;
      ghost var shared, db0, st := messages.txManager.Shared(), messages.repo.pool.db, StreamOf(queue.streams, convID);
      var entry := queue.ReadGroup(convID, r.read);
      ghost var st1 := StreamOf(queue.streams, convID);
      assert st1.log == st.log;
      if entry.None? {
        assert OneRound(shared, db0, st, r) == (db0, st1);
        return;
      }
      var (messageID, payload) := entry.value;
      ReadThenHandle(shared, db0, st, r);
      var _ := ProcessMessage(ctx, messageID, payload, r.id, r.now, r.faults, takeDone);
    }

    /** SubscribeToStream until the context is done, which is after the given rounds. */
    method Subscribe(ctx: Context, convID: Uuid, rounds: seq<Round>, takeDone: bool)
      requires Valid() && PostgresTxKey !in ctx.values && Addressed(StreamOf(queue.streams, convID), convID)
      modifies queue`streams, messages.repo.pool`db, messages.repo.pool`touched,
               messages.registry.Members()`out, messages.registry.Members()`socket,
               messages.registry.Members()`accepted
      ensures Valid()
      ensures var (db, st) := Loop(messages.txManager.Shared(), old(messages.repo.pool.db),
                StreamOf(old(queue.streams), convID), rounds);
        messages.repo.pool.db == db && OnlyStream(old(queue.streams), queue.streams, convID, st)
      ensures forall c: RuntimeClient | old(allocated(c)) && !c.done ::
        c.accepted == old(c.accepted) + messages.Told(c, messages.txManager.Shared(), old(messages.repo.pool.db),
          StreamOf(old(queue.streams), convID), rounds)
    {
      hide H.IndexOk, AllStreamsOk, OneRound, MessageService.RoundFrames;
      ghost var shared := messages.txManager.Shared();
      ghost var db0, st0 := messages.repo.pool.db, StreamOf(queue.streams, convID);
      for k := 0 to |rounds|
        invariant Valid() && Addressed(StreamOf(queue.streams, convID), convID)
        invariant OnlyStream(old(queue.streams), queue.streams, convID, StreamOf(queue.streams, convID))
        invariant Loop(shared, messages.repo.pool.db, StreamOf(queue.streams, convID), rounds[k..])
                  == Loop(shared, db0, st0, rounds)
        invariant forall c: RuntimeClient | old(allocated(c)) && !c.done ::
          messages.Owed(c, old(c.accepted) + messages.Told(c, shared, db0, st0, rounds),
            shared, messages.repo.pool.db, StreamOf(queue.streams, convID), rounds[k..], c.accepted)
      {
        hide MessageService.Owed;
        label before:
        ghost var db, st := messages.repo.pool.db, StreamOf(queue.streams, convID);
        Turn(ctx, convID, rounds[k], takeDone);
        assert rounds[k..][1..] == rounds[k + 1..];
        forall c: RuntimeClient | old(allocated(c)) && !c.done
          ensures messages.Owed(c, old(c.accepted) + messages.Told(c, shared, db0, st0, rounds),
            shared, messages.repo.pool.db, StreamOf(queue.streams, convID), rounds[k + 1..], c.accepted)
        {
          messages.OwedNext(c, old(c.accepted) + messages.Told(c, shared, db0, st0, rounds),
            shared, db, st, rounds[k..], old@before(c.accepted));
        }
      }
      assert rounds[|rounds|..] == [];
    }

    /**
     Run until the context is done. Without its group the loop never starts, and the error is not reported
     to anybody.
     */
    method Run(ctx: Context, convID: Uuid, group: Fault, rounds: seq<Round>, takeDone: bool)
      requires Valid() && PostgresTxKey !in ctx.values && Addressed(StreamOf(queue.streams, convID), convID)
      modifies queue`streams, messages.repo.pool`db, messages.repo.pool`touched,
               messages.registry.Members()`out, messages.registry.Members()`socket,
               messages.registry.Members()`accepted
      ensures Valid()
      ensures var st := StreamOf(old(queue.streams), convID);
        var (db, st') :=
          if group == Fine then
            Loop(messages.txManager.Shared(), old(messages.repo.pool.db), S.XGroupCreate(st), rounds)
          else (old(messages.repo.pool.db), if group == Refused then st else S.XGroupCreate(st));
        messages.repo.pool.db == db && OnlyStream(old(queue.streams), queue.streams, convID, st')
      ensures forall c: RuntimeClient | old(allocated(c)) && !c.done ::
        c.accepted == old(c.accepted) +
          if group == Fine then
            messages.Told(c, messages.txManager.Shared(), old(messages.repo.pool.db),
              S.XGroupCreate(StreamOf(old(queue.streams), convID)), rounds)
          else []
    {
      hide H.IndexOk, AllStreamsOk, Loop, MessageService.Told;
      var created := queue.CreateGroup(convID, group);
      if created { Subscribe(ctx, convID, rounds, takeDone); }
    }
  }
}
