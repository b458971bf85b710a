/**
 * The read-only routes of server/server.js as functions over the tables: the users and
 * friends lists with their presence flag, the guarded history query, the unread-count
 * expression, the stats counts and the conversation list. Every route also answers 500
 * when its database call fails; the flags `...Ok` say whether it succeeded.
 */
module Queries {
  import opened Types
  import opened Seqs

  const ConversationNotFound := "Konverzace nenalezena"

  /** A user as the list routes return it: the profile columns plus `isOnline`. */
  datatype UserView = UserView(id: UserId, name: string, email: string, bio: Option<string>, isOnline: bool)

  /** The `isOnline` decoration: membership of the id in the presence map. */
  function View(u: User, online: map<UserId, SocketId>): UserView
  {
    UserView(u.id, u.name, u.email, u.bio, u.id in online)
  }

  function Views(us: seq<User>, online: map<UserId, SocketId>): (r: seq<UserView>)
    ensures |r| == |us|
    ensures forall i :: 0 <= i < |us| ==> r[i] == View(us[i], online)
  {
    seq(|us|, i requires 0 <= i < |us| => View(us[i], online))
  }

  /** There is a friends row owner -> friend. */
  predicate HasLink(links: seq<FriendLink>, owner: UserId, friend: UserId)
  {
    exists l :: l in links && l.owner == owner && l.friend == friend
  }

  // ---------------------------------------------------------------- users and friends

  /** GET /api/users: every other user, in table order, with its presence flag. */
  function UsersList(users: seq<User>, online: map<UserId, SocketId>, caller: UserId, dbOk: bool)
    : (r: Result<seq<UserView>>)
    ensures r.Err? <==> !dbOk
    ensures r.Err? ==> r.error == HttpError(500, DatabaseError)
    ensures r.Ok? ==> forall i :: 0 <= i < |r.value| ==>
                        r.value[i].id != caller && r.value[i].isOnline == (r.value[i].id in online)
    ensures r.Ok? ==> forall u :: u in users && u.id != caller ==> View(u, online) in r.value
    ensures r.Ok? ==> forall v :: v in r.value ==> exists u :: u in users && u.id != caller && v == View(u, online)
    ensures r.Ok? && UniqueKeys(users, IdOf) ==> forall i, j :: 0 <= i < j < |r.value| ==> r.value[i].id != r.value[j].id
  {
    if !dbOk then Err(HttpError(500, DatabaseError))
    else
      var others := Filter(users, (u: User) => u.id != caller);
      var r := Views(others, online);
      assert UniqueKeys(users, IdOf) ==> forall i, j :: 0 <= i < j < |r| ==> r[i].id != r[j].id by {
        if UniqueKeys(users, IdOf) {
          FilterUniqueKeys(users, (u: User) => u.id != caller, IdOf);
          assert forall i :: 0 <= i < |r| ==> r[i].id == IdOf(others[i]);
        }
      }
      assert forall i :: 0 <= i < |r| ==> others[i] in others;
      assert forall u :: u in users && u.id != caller ==> View(u, online) in r by {
        forall u | u in users && u.id != caller ensures View(u, online) in r {
          var i :| 0 <= i < |others| && others[i] == u;
          assert r[i] == View(u, online);
        }
      }
      Ok(r)
  }

  /** The rows of `SELECT u.* FROM users u JOIN friends f ON u.id = f.friend_id WHERE f.user_id = ?`. */
  function FriendRows(users: seq<User>, links: seq<FriendLink>, online: map<UserId, SocketId>, caller: UserId)
    : (r: seq<UserView>)
    ensures forall i :: 0 <= i < |r| ==> r[i].isOnline == (r[i].id in online) && HasLink(links, caller, r[i].id)
    ensures forall v :: v in r ==> exists u :: u in users && v == View(u, online)
    ensures forall l, u :: l in links && u in users && l.owner == caller && l.friend == u.id ==> View(u, online) in r
    decreases |links|
  {
    if links == [] then []
    else
      var init := links[..|links| - 1];
      var l := links[|links| - 1];
      assert links == init + [l];
      var mine := if l.owner == caller then Views(Filter(users, (u: User) => u.id == l.friend), online) else [];
      assert forall u :: u in users && l.owner == caller && l.friend == u.id ==> View(u, online) in mine by {
        forall u | u in users && l.owner == caller && l.friend == u.id ensures View(u, online) in mine {
          var matching := Filter(users, (u: User) => u.id == l.friend);
          var i :| 0 <= i < |matching| && matching[i] == u;
          assert mine[i] == View(u, online);
        }
      }
      forall i | 0 <= i < |mine|
        ensures mine[i].isOnline == (mine[i].id in online) && HasLink(links, caller, mine[i].id)
      {
        var matching := Filter(users, (u: User) => u.id == l.friend);
        assert matching[i] in matching;
        assert l in links;
      }
      var rest := FriendRows(users, init, online, caller);
      forall i | 0 <= i < |rest| ensures HasLink(links, caller, rest[i].id) {
        assert HasLink(init, caller, rest[i].id);
        var k :| k in init && k.owner == caller && k.friend == rest[i].id;
        assert k in links;
      }
      rest + mine
  }

  /** GET /api/friends: only links the caller owns count; each friend carries its presence flag. */
  function FriendsList(users: seq<User>, links: seq<FriendLink>, online: map<UserId, SocketId>,
                       caller: UserId, dbOk: bool): (r: Result<seq<UserView>>)
    ensures r.Err? <==> !dbOk
    ensures r.Err? ==> r.error == HttpError(500, DatabaseError)
    ensures r.Ok? ==> forall i :: 0 <= i < |r.value| ==>
                        r.value[i].isOnline == (r.value[i].id in online) && HasLink(links, caller, r.value[i].id)
    ensures r.Ok? ==> forall v :: v in r.value ==> exists u :: u in users && v == View(u, online)
    ensures r.Ok? ==> forall l, u :: l in links && u in users && l.owner == caller && l.friend == u.id ==>
                        View(u, online) in r.value
  {
    if !dbOk then Err(HttpError(500, DatabaseError)) else Ok(FriendRows(users, links, online, caller))
  }

  /**
   * Links are directional: a new link a -> b adds b's row to a's friend list and leaves every
   * other user's list, b's included, as it was.
   */
  lemma FriendLinkIsDirectional(users: seq<User>, links: seq<FriendLink>, online: map<UserId, SocketId>,
                                l: FriendLink, viewer: UserId)
    ensures FriendRows(users, links + [l], online, viewer) ==
              if viewer == l.owner
              then FriendRows(users, links, online, viewer) + Views(Filter(users, (u: User) => u.id == l.friend), online)
              else FriendRows(users, links, online, viewer)
  {
    assert (links + [l])[..|links|] == links;
  }

  // ---------------------------------------------------------------- history

  /** The message was exchanged between a and b, in either direction. */
  predicate Involves(m: Message, a: UserId, b: UserId)
  {
    (m.senderId == a && m.recipientId == b) || (m.senderId == b && m.recipientId == a)
  }

  /** The messages between a and b, in log order. */
  function Between(log: seq<Message>, a: UserId, b: UserId): seq<Message>
  {
    Filter(log, (m: Message) => Involves(m, a, b))
  }

  predicate SortedByTime(s: seq<Message>)
  {
    forall i, j :: 0 <= i < j < |s| ==> s[i].timestamp <= s[j].timestamp
  }

  /** A list stays sorted when an element no later than all of it goes in front. */
  lemma SortedCons(x: Message, t: seq<Message>)
    requires SortedByTime(t)
    requires forall y :: y in t ==> x.timestamp <= y.timestamp
    ensures SortedByTime([x] + t)
  {
    forall i, j | 0 <= i < j < |t| + 1
      ensures ([x] + t)[i].timestamp <= ([x] + t)[j].timestamp
    {
      assert ([x] + t)[j] == t[j - 1];
      if i == 0 {
        assert t[j - 1] in t;
      } else {
        assert ([x] + t)[i] == t[i - 1];
      }
    }
  }

  /** Places m before the first entry of a list whose timestamp is not smaller. */
  function InsertByTime(m: Message, s: seq<Message>): (r: seq<Message>)
    ensures multiset(r) == multiset(s) + multiset{m}
    ensures forall x :: x in r <==> x == m || x in s
  {
    if s == [] || m.timestamp <= s[0].timestamp then [m] + s
    else
      assert s == [s[0]] + s[1..];
      [s[0]] + InsertByTime(m, s[1..])
  }

  /** Inserting into a sorted list keeps it sorted. */
  lemma {:induction false} InsertByTimeSorted(m: Message, s: seq<Message>)
    requires SortedByTime(s)
    ensures SortedByTime(InsertByTime(m, s))
  {
    if s == [] || m.timestamp <= s[0].timestamp {
      forall y | y in s ensures m.timestamp <= y.timestamp {
        var k :| 0 <= k < |s| && s[k] == y;
        assert s[0].timestamp <= s[k].timestamp;
      }
      SortedCons(m, s);
    } else {
      var head, tail := s[0], s[1..];
      assert SortedByTime(tail);
      InsertByTimeSorted(m, tail);
      var t := InsertByTime(m, tail);
      forall y | y in t ensures head.timestamp <= y.timestamp {
        if y != m {
          var k :| 0 <= k < |tail| && tail[k] == y;
          assert s[k + 1] == y;
        }
      }
      SortedCons(head, t);
    }
  }

  /** `ORDER BY timestamp ASC`, ties kept in log order. */
  function SortByTime(s: seq<Message>): (r: seq<Message>)
    ensures SortedByTime(r)
    ensures multiset(r) == multiset(s)
  {
    if s == [] then []
    else
      assert s == [s[0]] + s[1..];
      InsertByTimeSorted(s[0], SortByTime(s[1..]));
      InsertByTime(s[0], SortByTime(s[1..]))
  }

  /**
   * GET /api/conversations/:id/messages: 404 unless the caller owns a link to `other` (also
   * when that lookup itself fails); otherwise every message between the two, oldest first.
   */
  function History(links: seq<FriendLink>, log: seq<Message>, caller: UserId, other: UserId,
                   lookupOk: bool, listOk: bool): (r: Result<seq<Message>>)
    ensures !(lookupOk && HasLink(links, caller, other)) ==> r == Err(HttpError(404, ConversationNotFound))
    ensures lookupOk && HasLink(links, caller, other) && !listOk ==> r == Err(HttpError(500, DatabaseError))
    ensures r.Ok? ==> SortedByTime(r.value) && multiset(r.value) == multiset(Between(log, caller, other))
    ensures r.Ok? ==> forall m :: m in r.value <==> m in log && Involves(m, caller, other)
    ensures r.Ok? <==> lookupOk && HasLink(links, caller, other) && listOk
  {
    if !(lookupOk && HasLink(links, caller, other)) then Err(HttpError(404, ConversationNotFound))
    else if !listOk then Err(HttpError(500, DatabaseError))
    else
      var b := Between(log, caller, other);
      var r := SortByTime(b);
      assert forall m :: m in r <==> m in b by {
        forall m ensures m in r <==> m in b {
          assert m in r <==> m in multiset(r);
          assert m in b <==> m in multiset(b);
        }
      }
      Ok(r)
  }

  /**
   * Round trip: once a message is in the log, the recipient's history with the sender shows
   * it, provided the recipient owns a link to the sender.
   */
  lemma HistoryShowsStoredMessage(links: seq<FriendLink>, log: seq<Message>, m: Message)
    requires HasLink(links, m.recipientId, m.senderId)
    ensures History(links, log + [m], m.recipientId, m.senderId, true, true).Ok?
    ensures m in History(links, log + [m], m.recipientId, m.senderId, true, true).value
  {
    assert m in log + [m];
  }

  // ---------------------------------------------------------------- unread count and stats

  /** The messages a -> b, in log order. */
  function Sent(log: seq<Message>, a: UserId, b: UserId): seq<Message>
  {
    Filter(log, (m: Message) => m.senderId == a && m.recipientId == b)
  }

  function SentIds(log: seq<Message>, a: UserId, b: UserId): set<string>
  {
    Keys(Sent(log, a, b), (m: Message) => m.id)
  }

  /**
   * The unread-count subquery: friend -> viewer messages whose id is not among the ids of
   * viewer -> friend messages. It never exceeds the number of messages received.
   */
  function Unread(log: seq<Message>, viewer: UserId, friend: UserId): (n: nat)
    ensures n <= |Sent(log, friend, viewer)|
  {
    var ids := SentIds(log, viewer, friend);
    FilterStricter(log, (m: Message) => m.senderId == friend && m.recipientId == viewer && m.id !in ids,
                        (m: Message) => m.senderId == friend && m.recipientId == viewer);
    |Filter(log, (m: Message) => m.senderId == friend && m.recipientId == viewer && m.id !in ids)|
  }

  /**
   * With unique message ids the NOT IN never removes anything between two different users:
   * the count is simply the number of messages received from the friend, replies or not.
   */
  lemma UnreadIsReceivedCount(log: seq<Message>, viewer: UserId, friend: UserId)
    requires UniqueKeys(log, (m: Message) => m.id)
    requires viewer != friend
    ensures Unread(log, viewer, friend) == |Sent(log, friend, viewer)|
  {
    var ids := SentIds(log, viewer, friend);
    forall m | m in log && m.senderId == friend && m.recipientId == viewer
      ensures m.id !in ids
    {
      if m.id in ids {
        var m' :| m' in Sent(log, viewer, friend) && m'.id == m.id;
        UniqueKeysAgree(log, (m: Message) => m.id, m, m');
      }
    }
    FilterAgree(log, (m: Message) => m.senderId == friend && m.recipientId == viewer && m.id !in ids,
                     (m: Message) => m.senderId == friend && m.recipientId == viewer);
  }

  /** A conversation with oneself never shows unread messages: each is its own reply. */
  lemma UnreadWithSelfIsZero(log: seq<Message>, viewer: UserId)
    ensures Unread(log, viewer, viewer) == 0
  {
    var left := Filter(log, (m: Message) => m.senderId == viewer && m.recipientId == viewer &&
                                         m.id !in SentIds(log, viewer, viewer));
    if left != [] {
      assert left[0] in left;
    }
  }

  datatype Stats = Stats(friends: nat, messages: nat)

  /** `COUNT(*) FROM friends WHERE user_id = ?` */
  function FriendCount(links: seq<FriendLink>, u: UserId): nat
  {
    |Filter(links, (l: FriendLink) => l.owner == u)|
  }

  /** `COUNT(*) FROM messages WHERE sender_id = ? OR recipient_id = ?` */
  function MessageCount(log: seq<Message>, u: UserId): nat
  {
    |Filter(log, (m: Message) => m.senderId == u || m.recipientId == u)|
  }

  /** GET /api/auth/stats: 500 if either count fails. */
  function UserStats(links: seq<FriendLink>, log: seq<Message>, u: UserId, friendsOk: bool, messagesOk: bool)
    : (r: Result<Stats>)
    ensures r.Err? <==> !(friendsOk && messagesOk)
    ensures r.Err? ==> r.error == HttpError(500, DatabaseError)
    ensures r.Ok? ==> r.value.friends <= |links| && r.value.messages <= |log|
    ensures r.Ok? ==> r.value.friends == FriendCount(links, u) && r.value.messages == MessageCount(log, u)
  {
    if !friendsOk || !messagesOk then Err(HttpError(500, DatabaseError))
    else Ok(Stats(FriendCount(links, u), MessageCount(log, u)))
  }

  /** Storing a message adds one to the message count of its sender and of its recipient, and to no one else's. */
  lemma MessageCountAfterStore(log: seq<Message>, m: Message, u: UserId)
    ensures MessageCount(log + [m], u) ==
              MessageCount(log, u) + (if m.senderId == u || m.recipientId == u then 1 else 0)
  {
    FilterAppend(log, m, (m: Message) => m.senderId == u || m.recipientId == u);
  }

  /** Adding a link adds one to its owner's friend count only. */
  lemma FriendCountAfterAdd(links: seq<FriendLink>, l: FriendLink, u: UserId)
    ensures FriendCount(links + [l], u) == FriendCount(links, u) + (if l.owner == u then 1 else 0)
  {
    FilterAppend(links, l, (l: FriendLink) => l.owner == u);
  }

  // ---------------------------------------------------------------- conversations

  datatype Participant = Participant(id: UserId, name: string, email: string, isOnline: bool)

  /** One conversation row; the `lastMessage` column is not modelled. */
  datatype Conversation = Conversation(id: UserId, participant: Participant, unreadCount: nat)

  /** The friend ids of the viewer's links, in link order, repeats kept. */
  function FriendIds(links: seq<FriendLink>, viewer: UserId): (r: seq<UserId>)
    ensures forall f :: f in r <==> HasLink(links, viewer, f)
    decreases |links|
  {
    if links == [] then []
    else
      var init := links[..|links| - 1];
      var l := links[|links| - 1];
      assert links == init + [l];
      FriendIds(init, viewer) + (if l.owner == viewer then [l.friend] else [])
  }

  /** `GROUP BY f.friend_id`: each id once, at its first occurrence. */
  function Dedup(s: seq<UserId>): (r: seq<UserId>)
    ensures NoDuplicates(r)
    ensures forall x :: x in r <==> x in s
  {
    if s == [] then []
    else
      var init := s[..|s| - 1];
      var x := s[|s| - 1];
      assert s == init + [x];
      var d := Dedup(init);
      if x in d then d else d + [x]
  }

  /** `INNER JOIN users u ON f.friend_id = u.id`: the user row with that id, if any. */
  function FindUser(users: seq<User>, id: UserId): Option<User>
  {
    Lookup(users, IdOf, id)
  }

  /** The row the route builds for friend `u`. */
  function Summary(u: User, log: seq<Message>, online: map<UserId, SocketId>, viewer: UserId): Conversation
  {
    Conversation(u.id, Participant(u.id, u.name, u.email, u.id in online), Unread(log, viewer, u.id))
  }

  /** The rows for `ids`, in order, skipping ids that name no user (the inner join). */
  function Summaries(ids: seq<UserId>, users: seq<User>, log: seq<Message>, online: map<UserId, SocketId>,
                     viewer: UserId): (r: seq<Conversation>)
    ensures |r| <= |ids|
  {
    if ids == [] then []
    else
      var rows := Summaries(ids[..|ids| - 1], users, log, online, viewer);
      match FindUser(users, ids[|ids| - 1])
      case None => rows
      case Some(u) => rows + [Summary(u, log, online, viewer)]
  }

  /** Every row of `r` is the summary of the joined user of one of `ids`. */
  predicate JoinedRows(r: seq<Conversation>, ids: seq<UserId>, users: seq<User>, log: seq<Message>,
                       online: map<UserId, SocketId>, viewer: UserId)
  {
    forall i :: 0 <= i < |r| ==> r[i].id in ids && FindUser(users, r[i].id).Some? &&
                                 r[i] == Summary(FindUser(users, r[i].id).value, log, online, viewer)
  }

  /** No two rows of `r` are about the same user. */
  predicate DistinctRows(r: seq<Conversation>)
  {
    forall i, j :: 0 <= i < j < |r| ==> r[i].id != r[j].id
  }

  /** Every id of `ids` that names a user has a row in `r`. */
  predicate CoversJoined(r: seq<Conversation>, ids: seq<UserId>, users: seq<User>)
  {
    forall f :: f in ids && FindUser(users, f).Some? ==> exists i :: 0 <= i < |r| && r[i].id == f
  }

  /** Every row is the summary of the joined user of one of the ids. */
  lemma {:induction false} SummariesRows(ids: seq<UserId>, users: seq<User>, log: seq<Message>,
                                         online: map<UserId, SocketId>, viewer: UserId)
    ensures JoinedRows(Summaries(ids, users, log, online, viewer), ids, users, log, online, viewer)
  {
    if ids != [] {
      var init, f := ids[..|ids| - 1], ids[|ids| - 1];
      assert ids == init + [f];
      SummariesRows(init, users, log, online, viewer);
      var rows := Summaries(init, users, log, online, viewer);
      var found := FindUser(users, f);
      var r := Summaries(ids, users, log, online, viewer);
      forall i | 0 <= i < |r|
        ensures r[i].id in ids && FindUser(users, r[i].id).Some? &&
                r[i] == Summary(FindUser(users, r[i].id).value, log, online, viewer)
      {
        if i < |rows| {
          assert r[i] == rows[i];
        } else {
          assert found.value.id == f;
          assert r[i] == Summary(found.value, log, online, viewer);
        }
      }
    }
  }

  /** Each id yields at most one row, so distinct ids give distinct rows. */
  lemma {:induction false} SummariesDistinct(ids: seq<UserId>, users: seq<User>, log: seq<Message>,
                                             online: map<UserId, SocketId>, viewer: UserId)
    requires NoDuplicates(ids)
    ensures DistinctRows(Summaries(ids, users, log, online, viewer))
  {
    if ids != [] {
      var init, f := ids[..|ids| - 1], ids[|ids| - 1];
      assert ids == init + [f];
      assert NoDuplicates(init) by {
        forall i, j | 0 <= i < j < |init| ensures init[i] != init[j] {
          assert init[i] == ids[i] && init[j] == ids[j];
        }
      }
      assert f !in init by {
        forall k | 0 <= k < |init| ensures init[k] != f {
          assert init[k] == ids[k];
        }
      }
      SummariesDistinct(init, users, log, online, viewer);
      SummariesRows(init, users, log, online, viewer);
      var rows := Summaries(init, users, log, online, viewer);
      assert forall i :: 0 <= i < |rows| ==> rows[i].id in init;
      var found := FindUser(users, f);
      if found.Some? {
        assert found.value.id == f;
      }
    }
  }

  /** Every id that names a user gets a row. */
  lemma {:induction false} SummariesComplete(ids: seq<UserId>, users: seq<User>, log: seq<Message>,
                                             online: map<UserId, SocketId>, viewer: UserId)
    ensures CoversJoined(Summaries(ids, users, log, online, viewer), ids, users)
  {
    if ids != [] {
      var init, last := ids[..|ids| - 1], ids[|ids| - 1];
      assert ids == init + [last];
      SummariesComplete(init, users, log, online, viewer);
      var rows := Summaries(init, users, log, online, viewer);
      var r := Summaries(ids, users, log, online, viewer);
      forall f | f in ids && FindUser(users, f).Some?
        ensures exists i :: 0 <= i < |r| && r[i].id == f
      {
        if f == last {
          var u := FindUser(users, f).value;
          assert u.id == f;
          assert r[|rows|] == Summary(u, log, online, viewer);
        } else {
          assert f in init;
          var i :| 0 <= i < |rows| && rows[i].id == f;
          assert r[i] == rows[i];
        }
      }
    }
  }

  /**
   * GET /api/conversations: one row per distinct friend id the viewer links to that names an
   * existing user, carrying that user's presence flag and unread count.
   */
  function Conversations(users: seq<User>, links: seq<FriendLink>, log: seq<Message>,
                         online: map<UserId, SocketId>, viewer: UserId, dbOk: bool): (r: Result<seq<Conversation>>)
    ensures r.Err? <==> !dbOk
    ensures r.Err? ==> r.error == HttpError(500, DatabaseError)
    ensures r.Ok? ==> forall i, j :: 0 <= i < j < |r.value| ==> r.value[i].id != r.value[j].id
    ensures r.Ok? ==> forall i :: 0 <= i < |r.value| ==>
                        var c := r.value[i];
                        HasLink(links, viewer, c.id) && c.participant.id == c.id &&
                        c.participant.isOnline == (c.id in online) && c.unreadCount == Unread(log, viewer, c.id)
    ensures r.Ok? ==> forall i :: 0 <= i < |r.value| ==>
                        FindUser(users, r.value[i].id).Some? &&
                        r.value[i] == Summary(FindUser(users, r.value[i].id).value, log, online, viewer)
    ensures r.Ok? ==> forall f :: HasLink(links, viewer, f) && FindUser(users, f).Some? ==>
                        exists i :: 0 <= i < |r.value| && r.value[i].id == f
  {
    if !dbOk then Err(HttpError(500, DatabaseError))
    else
      var ids := Dedup(FriendIds(links, viewer));
      SummariesRows(ids, users, log, online, viewer);
      SummariesDistinct(ids, users, log, online, viewer);
      SummariesComplete(ids, users, log, online, viewer);
      Ok(Summaries(ids, users, log, online, viewer))
  }
}
