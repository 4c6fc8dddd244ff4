/** The in-memory state of the #iworkout bot (coldbrewcrew/iworkout): the
    users and messages it has seen, cached by ID, and for each message the
    set of users who reacted to it with any emoji; the read-through fetches
    of users and messages, and the reaction add/remove handlers. */
module IworkoutState {
  import opened Wrappers

  datatype User = User(id: string, username: string)

  /** A message as far as the bot looks at it: its IDs, text, author, the
      time it was posted (in seconds since the Discord epoch, never
      negative; a timestamp that does not parse is Go's zero time, taken as
      0 here, which no Discord timestamp comes before) and the emoji it carries reactions with. */
  datatype Message = Message(id: string, channelID: string, content: string, author: User,
                             timestamp: nat, emoji: seq<string>)

  /** Go's zero values `discordgo.User{}` and `discordgo.Message{}`. */
  const NoUser: User := User("", "")
  const NoMessage: Message := Message("", "", "", NoUser, 0, [])

  /** message ID -> IDs of the users who reacted to it */
  type Reactions = map<string, set<string>>
  /** user ID -> user */
  type Users = map<string, User>
  /** channel ID -> message ID -> message */
  type Messages = map<string, map<string, Message>>

  /** The whole state: the three package-level maps. */
  datatype State = State(reactions: Reactions, users: Users, messages: Messages)

  /** A reaction event from the gateway: who reacted to which message. */
  datatype ReactionEvent = ReactionEvent(userID: string, channelID: string, messageID: string)

  /** The two Discord API calls the handlers make: `s.User` and `s.ChannelMessage`. */
  datatype Api = Api(user: string -> Result<User>, channelMessage: (string, string) -> Result<Message>)

  /** `uid` is among the reactors recorded for `mid`. */
  predicate Recorded(r: Reactions, mid: string, uid: string) {
    mid in r && uid in r[mid]
  }

  // ---- Read-through fetches ----

  /** fetchUser on the cache `users`: the user and the cache afterwards.  A
      cached user is returned as it is; otherwise the API's user is cached
      under the requested ID and returned; an API error gives the zero user
      and caches nothing. */
  function FetchedUser(users: Users, id: string, user: string -> Result<User>): (r: (User, Users))
    ensures forall k :: k in users ==> k in r.1 && r.1[k] == users[k]
    ensures r.1.Keys == users.Keys + (if id !in users && user(id).Success? then {id} else {})
    ensures id in r.1 ==> r.0 == r.1[id]
    ensures id !in r.1 ==> r.0 == NoUser
    ensures id !in users && user(id).Success? ==> r == (user(id).value, users[id := user(id).value])
    ensures id !in users && user(id).Failure? ==> r == (NoUser, users)
  {
    if id in users then (users[id], users)
    else match user(id)
      case Failure(_) => (NoUser, users)
      case Success(u) => (u, users[id := u])
  }

  /** A cached user is served without the API: any two APIs give the same result. */
  lemma CachedUserIgnoresApi(users: Users, id: string, user: string -> Result<User>, other: string -> Result<User>)
    requires id in users
    ensures FetchedUser(users, id, user) == FetchedUser(users, id, other) == (users[id], users)
  {
  }

  /** fetchMessage on the cache `messages`, which creates the channel's inner
      map on the first message stored for it. */
  function FetchedMessage(messages: Messages, channelID: string, messageID: string,
                          channelMessage: (string, string) -> Result<Message>): (r: (Message, Messages))
    ensures forall c, k :: c in messages && k in messages[c] ==> c in r.1 && k in r.1[c] && r.1[c][k] == messages[c][k]
    ensures channelID in r.1 && messageID in r.1[channelID] ==> r.0 == r.1[channelID][messageID]
    ensures !(channelID in r.1 && messageID in r.1[channelID]) ==> r.0 == NoMessage && r.1 == messages
    ensures channelID in messages && messageID in messages[channelID] ==> r.1 == messages
    ensures !(channelID in messages && messageID in messages[channelID]) && channelMessage(channelID, messageID).Success? ==>
              var inner := if channelID in messages then messages[channelID] else map[];
              && r.0 == channelMessage(channelID, messageID).value
              && r.1 == messages[channelID := inner[messageID := r.0]]
    ensures !(channelID in messages && messageID in messages[channelID]) && channelMessage(channelID, messageID).Failure? ==>
              r == (NoMessage, messages)
  {
    if channelID in messages && messageID in messages[channelID] then (messages[channelID][messageID], messages)
    else match channelMessage(channelID, messageID)
      case Failure(_) => (NoMessage, messages)
      case Success(m) =>
        var inner := if channelID in messages then messages[channelID] else map[];
        (m, messages[channelID := inner[messageID := m]])
  }

  /** A second fetch of the same user returns the same user and changes nothing. */
  lemma FetchUserTwice(users: Users, id: string, user: string -> Result<User>)
    ensures var (u, after) := FetchedUser(users, id, user);
            FetchedUser(after, id, user) == (u, after)
  {
  }

  /** A cached message is served without the API. */
  lemma CachedMessageIgnoresApi(messages: Messages, channelID: string, messageID: string,
                                channelMessage: (string, string) -> Result<Message>,
                                other: (string, string) -> Result<Message>)
    requires channelID in messages && messageID in messages[channelID]
    ensures FetchedMessage(messages, channelID, messageID, channelMessage)
         == FetchedMessage(messages, channelID, messageID, other)
         == (messages[channelID][messageID], messages)
  {
  }

  /** A second fetch of the same message returns the same message and changes nothing. */
  lemma FetchMessageTwice(messages: Messages, channelID: string, messageID: string,
                          channelMessage: (string, string) -> Result<Message>)
    ensures var (m, after) := FetchedMessage(messages, channelID, messageID, channelMessage);
            FetchedMessage(after, channelID, messageID, channelMessage) == (m, after)
  {
  }

  // ---- The reaction handlers ----

  /** handleReactionAdd: the (fetched) user's ID joins the (fetched)
      message's reactor set, which is created if absent. */
  function ReactionAdded(st: State, ev: ReactionEvent, api: Api): (r: State)
    ensures var u := FetchedUser(st.users, ev.userID, api.user).0;
            var m := FetchedMessage(st.messages, ev.channelID, ev.messageID, api.channelMessage).0;
            && Recorded(r.reactions, m.id, u.id)
            && r.reactions.Keys == st.reactions.Keys + {m.id}
            && (forall k :: k in st.reactions && k != m.id ==> r.reactions[k] == st.reactions[k])
            && (m.id in st.reactions ==> r.reactions[m.id] == st.reactions[m.id] + {u.id})
            && (m.id !in st.reactions ==> r.reactions[m.id] == {u.id})
    ensures r.users == FetchedUser(st.users, ev.userID, api.user).1
    ensures r.messages == FetchedMessage(st.messages, ev.channelID, ev.messageID, api.channelMessage).1
  {
    var (u, users) := FetchedUser(st.users, ev.userID, api.user);
    var (m, messages) := FetchedMessage(st.messages, ev.channelID, ev.messageID, api.channelMessage);
    var reactors := if m.id in st.reactions then st.reactions[m.id] else {};
    State(st.reactions[m.id := reactors + {u.id}], users, messages)
  }

  /** handleReactionRemove: the (fetched) user's ID leaves the (fetched)
      message's reactor set; a message without a set gets none. */
  function ReactionRemoved(st: State, ev: ReactionEvent, api: Api): (r: State)
    ensures var u := FetchedUser(st.users, ev.userID, api.user).0;
            var m := FetchedMessage(st.messages, ev.channelID, ev.messageID, api.channelMessage).0;
            && !Recorded(r.reactions, m.id, u.id)
            && r.reactions.Keys == st.reactions.Keys
            && (forall k :: k in st.reactions && k != m.id ==> r.reactions[k] == st.reactions[k])
            && (m.id in st.reactions ==> r.reactions[m.id] == st.reactions[m.id] - {u.id})
    ensures r.users == FetchedUser(st.users, ev.userID, api.user).1
    ensures r.messages == FetchedMessage(st.messages, ev.channelID, ev.messageID, api.channelMessage).1
  {
    var (u, users) := FetchedUser(st.users, ev.userID, api.user);
    var (m, messages) := FetchedMessage(st.messages, ev.channelID, ev.messageID, api.channelMessage);
    var reactions := if m.id in st.reactions then st.reactions[m.id := st.reactions[m.id] - {u.id}] else st.reactions;
    State(reactions, users, messages)
  }

  /** Adding the same reaction twice leaves the state as one add does. */
  lemma {:induction false} ReactionAddIdempotent(st: State, ev: ReactionEvent, api: Api)
    ensures ReactionAdded(ReactionAdded(st, ev, api), ev, api) == ReactionAdded(st, ev, api)
  {
    var once := ReactionAdded(st, ev, api);
    FetchUserTwice(st.users, ev.userID, api.user);
    FetchMessageTwice(st.messages, ev.channelID, ev.messageID, api.channelMessage);
    var u := FetchedUser(st.users, ev.userID, api.user).0;
    var m := FetchedMessage(st.messages, ev.channelID, ev.messageID, api.channelMessage).0;
    assert FetchedUser(once.users, ev.userID, api.user).0 == u;
    assert FetchedMessage(once.messages, ev.channelID, ev.messageID, api.channelMessage).0 == m;
    assert once.reactions[m.id] + {u.id} == once.reactions[m.id];
  }

  /** Removing a reaction right after adding it leaves its user out of the
      message's reactor set, whatever it held before. */
  lemma {:induction false} AddThenRemove(st: State, ev: ReactionEvent, api: Api)
    ensures var added := ReactionAdded(st, ev, api);
            var removed := ReactionRemoved(added, ev, api);
            var u := FetchedUser(st.users, ev.userID, api.user).0;
            var m := FetchedMessage(st.messages, ev.channelID, ev.messageID, api.channelMessage).0;
            && !Recorded(removed.reactions, m.id, u.id)
            && removed.reactions[m.id] == (if m.id in st.reactions then st.reactions[m.id] else {}) - {u.id}
            && removed.users == added.users && removed.messages == added.messages
  {
    var added := ReactionAdded(st, ev, api);
    FetchUserTwice(st.users, ev.userID, api.user);
    FetchMessageTwice(st.messages, ev.channelID, ev.messageID, api.channelMessage);
    var u := FetchedUser(st.users, ev.userID, api.user).0;
    var m := FetchedMessage(st.messages, ev.channelID, ev.messageID, api.channelMessage).0;
    assert FetchedUser(added.users, ev.userID, api.user).0 == u;
    assert FetchedMessage(added.messages, ev.channelID, ev.messageID, api.channelMessage).0 == m;
    var before := if m.id in st.reactions then st.reactions[m.id] else {};
    assert added.reactions[m.id] == before + {u.id};
    assert (before + {u.id}) - {u.id} == before - {u.id};
  }

  /** A user and a message that cannot be fetched are recorded under the
      empty IDs of the zero values. */
  lemma FailedFetchesUseZeroIds(st: State, ev: ReactionEvent, api: Api)
    requires ev.userID !in st.users && api.user(ev.userID).Failure?
    requires !(ev.channelID in st.messages && ev.messageID in st.messages[ev.channelID])
    requires api.channelMessage(ev.channelID, ev.messageID).Failure?
    ensures Recorded(ReactionAdded(st, ev, api).reactions, "", "")
  {
  }

  /** The package-level maps of the bot. */
  class Bot {
    var reactions: Reactions
    var users: Users
    var messages: Messages

    constructor ()
      ensures reactions == map[] && users == map[] && messages == map[]
    {
      reactions := map[];
      users := map[];
      messages := map[];
    }

    function Snapshot(): State
      reads this
    {
      State(reactions, users, messages)
    }

    /** fetchUser */
    method FetchUser(id: string, user: string -> Result<User>) returns (u: User)
      modifies this
      ensures (u, users) == FetchedUser(old(users), id, user)
      ensures reactions == old(reactions) && messages == old(messages)
    {
      if id in users {
        return users[id];
      }
      match user(id) {
        case Failure(_) =>
          return NoUser;
        case Success(fetched) =>
          users := users[id := fetched];
          u := fetched;
      }
    }

    /** fetchMessage */
    method FetchMessage(channelID: string, messageID: string, channelMessage: (string, string) -> Result<Message>)
      returns (m: Message)
      modifies this
      ensures (m, messages) == FetchedMessage(old(messages), channelID, messageID, channelMessage)
      ensures reactions == old(reactions) && users == old(users)
    {
      if channelID in messages && messageID in messages[channelID] {
        return messages[channelID][messageID];
      }
      match channelMessage(channelID, messageID) {
        case Failure(_) =>
          return NoMessage;
        case Success(fetched) =>
          ghost var inner := if channelID in messages then messages[channelID] else map[];
          if channelID !in messages {
            messages := messages[channelID := map[]];
          }
          assert messages[channelID] == inner;
          messages := messages[channelID := messages[channelID][messageID := fetched]];
          assert messages == old(messages)[channelID := inner[messageID := fetched]];
          m := fetched;
      }
    }

    /** handleReactionAdd */
    method HandleReactionAdd(ev: ReactionEvent, api: Api)
      modifies this
      ensures Snapshot() == ReactionAdded(old(Snapshot()), ev, api)
    {
      var u := FetchUser(ev.userID, api.user);
      var m := FetchMessage(ev.channelID, ev.messageID, api.channelMessage);
      if m.id !in reactions {
        reactions := reactions[m.id := {}];
      }
      reactions := reactions[m.id := reactions[m.id] + {u.id}];
    }

    /** handleReactionRemove; Go's `delete` on a missing inner map does nothing. */
    method HandleReactionRemove(ev: ReactionEvent, api: Api)
      modifies this
      ensures Snapshot() == ReactionRemoved(old(Snapshot()), ev, api)
    {
      var u := FetchUser(ev.userID, api.user);
      var m := FetchMessage(ev.channelID, ev.messageID, api.channelMessage);
      if m.id in reactions {
        reactions := reactions[m.id := reactions[m.id] - {u.id}];
      }
    }
  }
}
