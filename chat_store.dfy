/**
 * The client chat store of src/stores/chat.js: reactive fields become fields of a class,
 * socket.io and HTTP results become inputs, and emitted socket events are appended to
 * `emitted`. `me` is the id of the logged-in user held by the auth store (absent when none).
 */
module ChatStore {
  import opened Types
  import Queries

  /** `socket.value`: null, or a socket.io client whose `connected` flag the library keeps. */
  datatype ClientSocket = NoSocket | Socket(connected: bool)

  /** An entry of the message list. */
  datatype ChatMessage = ChatMessage(id: string, senderId: Option<UserId>, recipientId: UserId,
                                     content: string, timestamp: nat)

  /** The client-to-server socket events. */
  datatype ClientEmit = SendMessageEmit(content: string, recipientId: UserId) | TypingEmit(recipientId: UserId, isTyping: bool)

  /** An entry of `onlineUsers`. */
  datatype StatusEntry = StatusEntry(id: UserId, isOnline: bool)

  /** A pushed `message` record as it lands in the list. */
  function FromPush(m: Message): ChatMessage
  {
    ChatMessage(m.id, Some(m.senderId), m.recipientId, m.content, m.timestamp)
  }

  // ---------------------------------------------------------------- local ids

  function Digit(d: nat): char
    requires d < 10
  {
    (48 + d) as char
  }

  /** The decimal numeral of `n`, as JavaScript prints `Date.now()` in a template string. */
  function Decimal(n: nat): (r: string)
    ensures |r| >= 1
    ensures n >= 10 ==> |r| >= 2
  {
    if n < 10 then [Digit(n)] else Decimal(n / 10) + [Digit(n % 10)]
  }

  /** The id an optimistic message gets: `local-` followed by the clock reading. */
  function LocalId(now: nat): string
  {
    "local-" + Decimal(now)
  }

  /** Different clock readings print differently. */
  lemma {:induction false} DecimalInjective(a: nat, b: nat)
    requires Decimal(a) == Decimal(b)
    ensures a == b
    decreases a
  {
    if a >= 10 && b >= 10 {
      var da, db := Decimal(a), Decimal(b);
      assert da[..|da| - 1] == Decimal(a / 10);
      assert db[..|db| - 1] == Decimal(b / 10);
      assert Digit(a % 10) == Digit(b % 10);
      DecimalInjective(a / 10, b / 10);
    } else if a < 10 && b < 10 {
      assert Digit(a) == Digit(b);
    }
  }

  /** Optimistic messages sent at different instants get different local ids. */
  lemma LocalIdsDistinct(t1: nat, t2: nat)
    requires t1 != t2
    ensures LocalId(t1) != LocalId(t2)
  {
    if LocalId(t1) == LocalId(t2) {
      assert LocalId(t1)[6..] == Decimal(t1);
      assert LocalId(t2)[6..] == Decimal(t2);
      DecimalInjective(t1, t2);
    }
  }

  // ---------------------------------------------------------------- findIndex

  /** The first position whose entry has the given id. */
  function FirstIndex(entries: seq<StatusEntry>, id: UserId): (r: Option<nat>)
    ensures r.None? <==> forall i :: 0 <= i < |entries| ==> entries[i].id != id
    ensures r.Some? ==> r.value < |entries| && entries[r.value].id == id &&
                        forall i :: 0 <= i < r.value ==> entries[i].id != id
  {
    if entries == [] then None
    else if entries[0].id == id then Some(0)
    else
      match FirstIndex(entries[1..], id)
      case None => None
      case Some(k) => Some(k + 1)
  }

  /** `Array.prototype.findIndex` by id: the first matching position, or -1. */
  method FindIndex(entries: seq<StatusEntry>, id: UserId) returns (k: int)
    ensures -1 <= k < |entries|
    ensures k == -1 <==> FirstIndex(entries, id).None?
    ensures k != -1 ==> FirstIndex(entries, id) == Some(k as nat)
  {
    k := 0;
    while k < |entries|
      invariant 0 <= k <= |entries|
      invariant forall i :: 0 <= i < k ==> entries[i].id != id
    {
      if entries[k].id == id {
        return;
      }
      k := k + 1;
    }
    k := -1;
  }

  /** The list after `updateUserStatus`: the flag of the first entry with the id is set. */
  function WithStatus(entries: seq<StatusEntry>, id: UserId, isOnline: bool): (r: seq<StatusEntry>)
    ensures |r| == |entries|
    ensures FirstIndex(entries, id).None? ==> r == entries
    ensures FirstIndex(entries, id).Some? ==>
              var k := FirstIndex(entries, id).value;
              r[k] == StatusEntry(id, isOnline) && forall i :: 0 <= i < |r| && i != k ==> r[i] == entries[i]
  {
    match FirstIndex(entries, id)
    case None => entries
    case Some(k) => entries[k := entries[k].(isOnline := isOnline)]
  }

  class ChatStore {
    var socket: ClientSocket
    var messages: seq<ChatMessage>
    var conversations: seq<Queries.Conversation>
    var activeConversation: Option<UserId>
    var onlineUsers: seq<StatusEntry>
    var loading: bool
    /** Every socket event this store emitted, in order. */
    var emitted: seq<ClientEmit>

    constructor ()
      ensures socket == NoSocket && messages == [] && conversations == [] && activeConversation == None
      ensures onlineUsers == [] && !loading && emitted == []
    {
      socket := NoSocket;
      messages, conversations := [], [];
      activeConversation := None;
      onlineUsers := [];
      loading := false;
      emitted := [];
    }

    /** `isConnected`: a socket exists and the library reports it connected. */
    function IsConnected(): (r: bool)
      reads this
      ensures socket == NoSocket ==> !r
      ensures r <==> socket == Socket(true)
    {
      socket.Socket? && socket.connected
    }

    /** `connectSocket`: a new, not yet connected socket replaces the field. */
    method ConnectSocket()
      modifies this
      ensures socket == Socket(false)
      ensures messages == old(messages) && conversations == old(conversations)
      ensures activeConversation == old(activeConversation) && onlineUsers == old(onlineUsers)
      ensures loading == old(loading) && emitted == old(emitted)
    {
      socket := Socket(false);
    }

    /** The socket library completes the handshake (the store's own handler only logs). */
    method TransportConnected()
      requires socket.Socket?
      modifies this`socket
      ensures socket == Socket(true)
    {
      socket := Socket(true);
    }

    /** The socket library loses or is refused the connection (the store's handler only logs). */
    method TransportClosed()
      requires socket.Socket?
      modifies this`socket
      ensures socket == Socket(false)
    {
      socket := Socket(false);
    }

    /** `disconnectSocket`: afterwards there is no socket; without one it does nothing. */
    method DisconnectSocket()
      modifies this`socket
      ensures socket == NoSocket
      ensures !IsConnected()
    {
      if socket.Socket? {
        socket := NoSocket;
      }
    }

    /** `addMessage`: appends at the end; every earlier entry keeps its place and value. */
    method AddMessage(m: ChatMessage)
      modifies this`messages
      ensures messages == old(messages) + [m]
      ensures |messages| == |old(messages)| + 1
      ensures forall i :: 0 <= i < |old(messages)| ==> messages[i] == old(messages)[i]
    {
      messages := messages + [m];
    }

    /** The `message` push handler: the record is appended unless the local user sent it. */
    method OnMessage(m: Message, me: Option<UserId>)
      modifies this`messages
      ensures me == Some(m.senderId) ==> messages == old(messages)
      ensures me != Some(m.senderId) ==> messages == old(messages) + [FromPush(m)]
    {
      if me != Some(m.senderId) {
        AddMessage(FromPush(m));
      }
    }

    /**
     * `sendMessage`: when not connected nothing happens; otherwise one optimistic entry with a
     * local id is appended and exactly `{content, recipientId}` is emitted.
     */
    method SendMessage(content: string, recipientId: UserId, now: nat, me: Option<UserId>)
      modifies this`messages, this`emitted
      ensures !IsConnected() ==> messages == old(messages) && emitted == old(emitted)
      ensures IsConnected() ==>
                && messages == old(messages) + [ChatMessage(LocalId(now), me, recipientId, content, now)]
                && emitted == old(emitted) + [SendMessageEmit(content, recipientId)]
    {
      if !IsConnected() {
        return;
      }
      AddMessage(ChatMessage(LocalId(now), me, recipientId, content, now));
      emitted := emitted + [SendMessageEmit(content, recipientId)];
    }

    /** `loadConversations`: the list is replaced on success, kept on failure; loading ends false. */
    method LoadConversations(response: Option<seq<Queries.Conversation>>)
      modifies this`conversations, this`loading
      ensures conversations == if response.Some? then response.value else old(conversations)
      ensures !loading
    {
      loading := true;
      if response.Some? {
        conversations := response.value;
      }
      loading := false;
    }

    /**
     * `loadMessages`: on success the list is replaced and the conversation becomes active; on
     * failure both stay; loading ends false either way.
     */
    method LoadMessages(conversationId: UserId, response: Option<seq<ChatMessage>>)
      modifies this`messages, this`activeConversation, this`loading
      ensures response.Some? ==> messages == response.value && activeConversation == Some(conversationId)
      ensures response.None? ==> messages == old(messages) && activeConversation == old(activeConversation)
      ensures !loading
    {
      loading := true;
      if response.Some? {
        messages := response.value;
        activeConversation := Some(conversationId);
      }
      loading := false;
    }

    /**
     * `updateUserStatus`: sets the flag of the first entry with the id; an unknown id leaves
     * the list as it was, and the list never grows.
     */
    method UpdateUserStatus(userId: UserId, isOnline: bool)
      modifies this`onlineUsers
      ensures onlineUsers == WithStatus(old(onlineUsers), userId, isOnline)
      ensures |onlineUsers| == |old(onlineUsers)|
    {
      var k := FindIndex(onlineUsers, userId);
      if k != -1 {
        onlineUsers := onlineUsers[k := onlineUsers[k].(isOnline := isOnline)];
      }
    }

    /** The `userOnline` push handler. */
    method OnUserOnline(userId: UserId)
      modifies this`onlineUsers
      ensures onlineUsers == WithStatus(old(onlineUsers), userId, true)
    {
      UpdateUserStatus(userId, true);
    }

    /** The `userOffline` push handler. */
    method OnUserOffline(userId: UserId)
      modifies this`onlineUsers
      ensures onlineUsers == WithStatus(old(onlineUsers), userId, false)
    {
      UpdateUserStatus(userId, false);
    }

    /** `startTyping`: emits `typing` with `isTyping` true, only when connected. */
    method StartTyping(recipientId: UserId)
      modifies this`emitted
      ensures emitted == if IsConnected() then old(emitted) + [TypingEmit(recipientId, true)] else old(emitted)
    {
      if IsConnected() {
        emitted := emitted + [TypingEmit(recipientId, true)];
      }
    }

    /** `stopTyping`: emits `typing` with `isTyping` false, only when connected. */
    method StopTyping(recipientId: UserId)
      modifies this`emitted
      ensures emitted == if IsConnected() then old(emitted) + [TypingEmit(recipientId, false)] else old(emitted)
    {
      if IsConnected() {
        emitted := emitted + [TypingEmit(recipientId, false)];
      }
    }
  }

  /**
   * Nothing ever inserts into `onlineUsers`, so presence pushes on a store fresh from its
   * constructor change nothing.
   */
  method PresencePushesOnFreshStore(uid: UserId) returns (entries: seq<StatusEntry>)
    ensures entries == []
  {
    var store := new ChatStore();
    store.OnUserOnline(uid);
    store.OnUserOffline(uid);
    entries := store.onlineUsers;
  }

  /**
   * The optimistic echo: a connected sender sees its message once, under a local id, even
   * when the server pushes the stored record back (a message to oneself).
   */
  method SelfEchoIsDropped(me: UserId, serverId: string) returns (ids: seq<string>)
    ensures ids == [LocalId(7)]
  {
    var store := new ChatStore();
    store.ConnectSocket();
    store.TransportConnected();
    store.SendMessage("hi", me, 7, Some(me));
    store.OnMessage(Message(serverId, me, me, "hi", 7), Some(me));
    ids := seq(|store.messages|, i requires 0 <= i < |store.messages| reads store => store.messages[i].id);
  }
}
