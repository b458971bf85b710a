/**
 * The stateful part of server/server.js: the process-wide presence map, the tables the
 * handlers append to, and the events the socket layer emits. Each socket handler and each
 * database callback runs to completion as one method.
 */
module Server {
  import opened Types
  import opened Seqs
  import Auth
  import Accounts
  import Queries

  /** The server-to-client socket events. */
  datatype ServerEvent =
    | UserOnline(userId: UserId)
    | UserOffline(userId: UserId)
    | MessagePush(message: Message)
    | TypingPush(userId: UserId, isTyping: bool)

  /** `socket.broadcast.emit` reaches the listed sockets; `io.to(id).emit` reaches one. */
  datatype Emission = Broadcast(recipients: set<SocketId>, event: ServerEvent) | Direct(target: SocketId, event: ServerEvent)

  const FriendAddFailed := "Chyba při přidávání přítele"
  const FriendAdded := "Přítel přidán"

  function MessageIds(log: seq<Message>): set<string>
  {
    Keys(log, (m: Message) => m.id)
  }

  /**
   * Whether `INSERT INTO messages` succeeds: the database call works, the NOT NULL columns
   * `content` and `recipient_id` are given, and the new id is not already a primary key.
   */
  predicate MessageInsertSucceeds(log: seq<Message>, content: Option<string>, recipientId: Option<UserId>,
                                  messageId: string, insertOk: bool)
  {
    insertOk && content.Some? && recipientId.Some? && messageId !in MessageIds(log)
  }

  class ChatServer {
    /** The users table. */
    var users: seq<User>
    /** The friends table. */
    var links: seq<FriendLink>
    /** The messages table, append-only. */
    var log: seq<Message>
    /** `onlineUsers`: one socket per user, the latest connection. */
    var online: map<UserId, SocketId>
    /** The connected, authenticated sockets and the user each was opened for. */
    var sockets: map<SocketId, UserId>
    /** Every event emitted so far, in order. */
    var outbox: seq<Emission>

    /**
     * Primary keys and the email column are unique, and every presence entry names a live
     * socket of that very user.
     */
    ghost predicate Valid()
      reads this
    {
      && UniqueKeys(users, (u: User) => u.id)
      && Accounts.UniqueEmails(users)
      && UniqueKeys(links, (l: FriendLink) => l.id)
      && UniqueKeys(log, (m: Message) => m.id)
      && (forall u :: u in online ==> online[u] in sockets && sockets[online[u]] == u)
    }

    constructor ()
      ensures Valid()
      ensures users == [] && links == [] && log == [] && online == map[] && sockets == map[] && outbox == []
    {
      users, links, log := [], [], [];
      online, sockets := map[], map[];
      outbox := [];
    }

    /**
     * A socket handshake followed, when accepted, by the connection handler: the latest
     * socket of the user replaces any earlier presence entry, and every other connected
     * socket is told the user is online. A refused handshake changes nothing.
     */
    method Connect(sid: SocketId, token: Option<string>, verify: string -> Option<Auth.Claims>)
      returns (accepted: bool)
      requires Valid() && sid !in sockets
      modifies this
      ensures Valid()
      ensures accepted <==> Auth.AuthenticateHandshake(token, verify).Some?
      ensures !accepted ==> online == old(online) && sockets == old(sockets) && outbox == old(outbox)
      ensures accepted ==>
                var uid := Auth.AuthenticateHandshake(token, verify).value;
                && online == old(online)[uid := sid]
                && sockets == old(sockets)[sid := uid]
                && outbox == old(outbox) + [Broadcast(old(sockets).Keys, UserOnline(uid))]
      ensures users == old(users) && links == old(links) && log == old(log)
    {
      var identity := Auth.AuthenticateHandshake(token, verify);
      if identity.None? {
        return false;
      }
      var uid := identity.value;
      var others := sockets.Keys;
      sockets := sockets[sid := uid];
      online := online[uid := sid];
      outbox := outbox + [Broadcast(others, UserOnline(uid))];
      accepted := true;
    }

    /**
     * The disconnect handler: the presence entry of the socket's user is deleted by user id,
     * even when a newer socket of that user owns it, and the other sockets are told the user
     * is offline.
     */
    method Disconnect(sid: SocketId)
      requires Valid() && sid in sockets
      modifies this
      ensures Valid()
      ensures online == old(online) - {old(sockets)[sid]}
      ensures sockets == old(sockets) - {sid}
      ensures outbox == old(outbox) + [Broadcast(sockets.Keys, UserOffline(old(sockets)[sid]))]
      ensures users == old(users) && links == old(links) && log == old(log)
    {
      var uid := sockets[sid];
      sockets := sockets - {sid};
      online := online - {uid};
      outbox := outbox + [Broadcast(sockets.Keys, UserOffline(uid))];
    }

    /**
     * The `sendMessage` handler with its insert callback: the message is stored with the
     * socket's authenticated user as sender; only once stored is it pushed, and only to the
     * recipient's socket, and only if the recipient is online. A failed insert emits nothing.
     */
    method SendMessage(sid: SocketId, content: Option<string>, recipientId: Option<UserId>,
                       messageId: string, storedAt: nat, sentAt: nat, insertOk: bool)
      requires Valid() && sid in sockets
      modifies this
      ensures Valid()
      ensures !MessageInsertSucceeds(old(log), content, recipientId, messageId, insertOk) ==>
                log == old(log) && outbox == old(outbox)
      ensures MessageInsertSucceeds(old(log), content, recipientId, messageId, insertOk) ==>
                && log == old(log) + [Message(messageId, old(sockets)[sid], recipientId.value, content.value, storedAt)]
                && outbox == old(outbox) +
                     if recipientId.value in old(online)
                     then [Direct(old(online)[recipientId.value],
                                  MessagePush(Message(messageId, old(sockets)[sid], recipientId.value, content.value, sentAt)))]
                     else []
      ensures online == old(online) && sockets == old(sockets)
      ensures users == old(users) && links == old(links)
    {
      if !MessageInsertSucceeds(log, content, recipientId, messageId, insertOk) {
        return;
      }
      var sender := sockets[sid];
      var recipient := recipientId.value;
      var stored := Message(messageId, sender, recipient, content.value, storedAt);
      UniqueKeysAppend(log, (m: Message) => m.id, stored);
      log := log + [stored];
      if recipient in online {
        var pushed := Message(messageId, sender, recipient, content.value, sentAt);
        outbox := outbox + [Direct(online[recipient], MessagePush(pushed))];
      }
    }

    /**
     * The `typing` handler: forwarded, tagged with the sender and with the flag unchanged,
     * only to an online recipient; the tables are never touched.
     */
    method Typing(sid: SocketId, recipientId: Option<UserId>, isTyping: bool)
      requires Valid() && sid in sockets
      modifies this
      ensures Valid()
      ensures recipientId.Some? && recipientId.value in old(online) ==>
                outbox == old(outbox) + [Direct(old(online)[recipientId.value], TypingPush(old(sockets)[sid], isTyping))]
      ensures !(recipientId.Some? && recipientId.value in old(online)) ==> outbox == old(outbox)
      ensures online == old(online) && sockets == old(sockets)
      ensures users == old(users) && links == old(links) && log == old(log)
    {
      if recipientId.Some? && recipientId.value in online {
        outbox := outbox + [Direct(online[recipientId.value], TypingPush(sockets[sid], isTyping))];
      }
    }

    /**
     * POST /api/auth/register: after the checks, the user row is inserted (without bio) and a
     * session for it returned; a failed insert (database error or id collision) answers 500.
     */
    method Register(name: Option<string>, email: Option<string>, password: Option<string>, lookupOk: bool,
                    hashed: string, newId: UserId, insertOk: bool, sign: (UserId, string) -> string)
      returns (r: Result<Accounts.Session>)
      requires Valid()
      modifies this
      ensures Valid()
      ensures Accounts.RegisterCheck(old(users), name, email, password, lookupOk).Some? ==>
                users == old(users) && r == Err(Accounts.RegisterCheck(old(users), name, email, password, lookupOk).value)
      ensures Accounts.RegisterCheck(old(users), name, email, password, lookupOk).None? ==>
                if insertOk && newId !in Keys(old(users), (u: User) => u.id)
                then users == old(users) + [User(newId, name.value, email.value, hashed, None)] &&
                     r == Ok(Accounts.Session(Accounts.Profile(newId, name.value, email.value, None), sign(newId, email.value)))
                else users == old(users) && r == Err(HttpError(500, Accounts.CreateFailed))
      ensures links == old(links) && log == old(log)
      ensures online == old(online) && sockets == old(sockets) && outbox == old(outbox)
    {
      var rejected := Accounts.RegisterCheck(users, name, email, password, lookupOk);
      if rejected.Some? {
        return Err(rejected.value);
      }
      if !insertOk || newId in Keys(users, (u: User) => u.id) {
        return Err(HttpError(500, Accounts.CreateFailed));
      }
      var u := User(newId, name.value, email.value, hashed, None);
      UniqueKeysAppend(users, (u: User) => u.id, u);
      assert EmailOf(u) !in Keys(users, EmailOf);
      UniqueKeysAppend(users, EmailOf, u);
      users := users + [u];
      r := Ok(Accounts.Session(Accounts.Profile(newId, name.value, email.value, None), sign(newId, email.value)));
    }

    /**
     * POST /api/friends: inserts the single directed link caller -> userId; a missing userId
     * (NOT NULL), a database error or an id collision answers 500.
     */
    method AddFriend(caller: UserId, userId: Option<UserId>, linkId: string, insertOk: bool)
      returns (r: Result<string>)
      requires Valid()
      modifies this
      ensures Valid()
      ensures r.Ok? <==> insertOk && userId.Some? && linkId !in Keys(old(links), (l: FriendLink) => l.id)
      ensures r.Ok? ==> links == old(links) + [FriendLink(linkId, caller, userId.value)] && r.value == FriendAdded
      ensures r.Err? ==> links == old(links) && r.error == HttpError(500, FriendAddFailed)
      ensures users == old(users) && log == old(log)
      ensures online == old(online) && sockets == old(sockets) && outbox == old(outbox)
    {
      if !insertOk || userId.None? || linkId in Keys(links, (l: FriendLink) => l.id) {
        return Err(HttpError(500, FriendAddFailed));
      }
      var l := FriendLink(linkId, caller, userId.value);
      UniqueKeysAppend(links, (l: FriendLink) => l.id, l);
      links := links + [l];
      r := Ok(FriendAdded);
    }
  }

  /**
   * A user reconnects on a second socket and the first socket's disconnect arrives later:
   * the user's newer socket is still connected, yet the server reports the user offline.
   */
  method StaleDisconnectDropsPresence(uid: UserId) returns (newerLive: bool, reportedOnline: bool)
    ensures newerLive && !reportedOnline
  {
    var server := new ChatServer();
    var verify := (t: string) => if t == "t" then Some(Auth.Claims(uid, "")) else None;
    var first := server.Connect("s1", Some("t"), verify);
    var second := server.Connect("s2", Some("t"), verify);
    server.Disconnect("s1");
    newerLive := "s2" in server.sockets;
    reportedOnline := uid in server.online;
  }

  /**
   * X sends "hello" to Y while Y is offline: nothing is pushed, yet the message is stored and
   * Y's history with X (Y having linked to X) shows it.
   */
  method OfflineMessageIsStored(x: UserId, y: UserId) returns (pushed: bool, inHistory: bool)
    requires x != y
    ensures !pushed && inHistory
  {
    var server := new ChatServer();
    var verify := (t: string) => if t == "tx" then Some(Auth.Claims(x, "")) else None;
    var okX := server.Connect("sx", Some("tx"), verify);
    assert server.online == map[x := "sx"] && server.log == [];
    var before := |server.outbox|;
    assert MessageIds(server.log) == {};
    server.SendMessage("sx", Some("hello"), Some(y), "m1", 1, 1, true);
    assert server.log == [Message("m1", x, y, "hello", 1)];
    pushed := |server.outbox| != before;
    assert Keys(server.links, (l: FriendLink) => l.id) == {};
    var linked := server.AddFriend(y, Some(x), "f1", true);
    assert server.links == [FriendLink("f1", y, x)];
    assert Queries.HasLink(server.links, y, x) by {
      assert server.links[0] in server.links;
    }
    var history := Queries.History(server.links, server.log, y, x, true, true);
    assert server.log[0] in server.log;
    inHistory := history.Ok? && Message("m1", x, y, "hello", 1) in history.value;
  }

  /** With Y online, a message X sends to Y is pushed to Y's socket, stamped with X as sender. */
  method OnlineMessageIsPushed(x: UserId, y: UserId) returns (pushed: bool)
    requires x != y
    ensures pushed
  {
    var server := new ChatServer();
    var verify := (t: string) => if t == "tx" then Some(Auth.Claims(x, "")) else if t == "ty" then Some(Auth.Claims(y, "")) else None;
    var okX := server.Connect("sx", Some("tx"), verify);
    var okY := server.Connect("sy", Some("ty"), verify);
    assert server.online == map[x := "sx", y := "sy"] && server.sockets["sx"] == x;
    assert MessageIds(server.log) == {};
    server.SendMessage("sx", Some("hi"), Some(y), "m2", 2, 2, true);
    pushed := server.outbox[|server.outbox| - 1] == Direct("sy", MessagePush(Message("m2", x, y, "hi", 2)));
  }
}
