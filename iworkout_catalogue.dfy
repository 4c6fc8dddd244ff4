/** The start-up catalogue of the #iworkout bot (coldbrewcrew/iworkout/discord.go):
    `buildMessagesState` pages backwards through the channel's history,
    storing every message and its author and tracking the earliest and
    latest message seen; `buildReactionsState` then asks, for every stored
    message and each emoji on it, which users reacted, and records them. */
module IworkoutCatalogue {
  import opened Wrappers
  import opened IworkoutState

  // ---- Storing a page of messages ----

  /** One message of a page: stored under its channel and ID (the channel's
      map is created if absent), and its author under the author's ID. */
  function Stored(st: State, msg: Message): (r: State)
    ensures r.reactions == st.reactions
    ensures msg.channelID in r.messages && msg.id in r.messages[msg.channelID]
    ensures msg.author.id in r.users && r.users[msg.author.id] == msg.author
    ensures r.messages[msg.channelID][msg.id] == msg
    ensures forall c, k :: c in st.messages && k in st.messages[c] && (c, k) != (msg.channelID, msg.id) ==>
              c in r.messages && k in r.messages[c] && r.messages[c][k] == st.messages[c][k]
    ensures forall k :: k in st.users && k != msg.author.id ==> k in r.users && r.users[k] == st.users[k]
    ensures r.users.Keys == st.users.Keys + {msg.author.id}
    ensures r.messages.Keys == st.messages.Keys + {msg.channelID}
    ensures forall c :: c in st.messages && c != msg.channelID ==> r.messages[c] == st.messages[c]
    ensures r.messages[msg.channelID].Keys
         == (if msg.channelID in st.messages then st.messages[msg.channelID].Keys else {}) + {msg.id}
  {
    var inner := if msg.channelID in st.messages then st.messages[msg.channelID] else map[];
    State(st.reactions, st.users[msg.author.id := msg.author], st.messages[msg.channelID := inner[msg.id := msg]])
  }

  /** A page stored message by message, in page order. */
  function StoredPage(st: State, page: seq<Message>): (r: State)
    ensures r.reactions == st.reactions
    decreases |page|
  {
    if page == [] then st else Stored(StoredPage(st, page[..|page| - 1]), page[|page| - 1])
  }

  /** No later message of the page has the same channel and ID as `page[i]`. */
  predicate LastOfItsKey(page: seq<Message>, i: int)
    requires 0 <= i < |page|
  {
    forall j :: i < j < |page| ==> page[j].channelID != page[i].channelID || page[j].id != page[i].id
  }

  /** No later message of the page has the same author ID as `page[i]`. */
  predicate LastOfItsAuthor(page: seq<Message>, i: int)
    requires 0 <= i < |page|
  {
    forall j :: i < j < |page| ==> page[j].author.id != page[i].author.id
  }

  /** Storing never loses a message or a user, and after a page every
      message of it is stored, the last one of the page with a given channel
      and ID winning; the same for authors. */
  lemma StoredPageHolds(st: State, page: seq<Message>)
    ensures var r := StoredPage(st, page);
            && (forall c, k :: c in st.messages && k in st.messages[c] ==> c in r.messages && k in r.messages[c])
            && st.users.Keys <= r.users.Keys
            && (forall i :: 0 <= i < |page| ==>
                  && page[i].channelID in r.messages && page[i].id in r.messages[page[i].channelID]
                  && page[i].author.id in r.users)
            && (forall i :: 0 <= i < |page| && LastOfItsKey(page, i) ==>
                  r.messages[page[i].channelID][page[i].id] == page[i])
            && (forall i :: 0 <= i < |page| && LastOfItsAuthor(page, i) ==>
                  r.users[page[i].author.id] == page[i].author)
  {
    StoredPageHoldsMessages(st, page);
    StoredPageHoldsAuthors(st, page);
  }

  /** The messages half of StoredPageHolds. */
  lemma {:induction false} StoredPageHoldsMessages(st: State, page: seq<Message>)
    ensures var r := StoredPage(st, page);
            && (forall c, k :: c in st.messages && k in st.messages[c] ==> c in r.messages && k in r.messages[c])
            && (forall i :: 0 <= i < |page| ==>
                  page[i].channelID in r.messages && page[i].id in r.messages[page[i].channelID])
            && (forall i :: 0 <= i < |page| && LastOfItsKey(page, i) ==>
                  r.messages[page[i].channelID][page[i].id] == page[i])
    decreases |page|
  {
    if page != [] {
      var prefix := page[..|page| - 1];
      var msg := page[|page| - 1];
      StoredPageHoldsMessages(st, prefix);
      var mid := StoredPage(st, prefix);
      var r := Stored(mid, msg);
      assert r == StoredPage(st, page);
      forall i | 0 <= i < |page|
        ensures page[i].channelID in r.messages && page[i].id in r.messages[page[i].channelID]
      {
        if i < |page| - 1 {
          assert page[i] == prefix[i];
        }
      }
      forall i | 0 <= i < |page| && LastOfItsKey(page, i)
        ensures r.messages[page[i].channelID][page[i].id] == page[i]
      {
        if i < |page| - 1 {
          assert page[i] == prefix[i];
          assert forall j :: i < j < |prefix| ==> prefix[j] == page[j];
        }
      }
    }
  }

  /** The authors half of StoredPageHolds. */
  lemma {:induction false} StoredPageHoldsAuthors(st: State, page: seq<Message>)
    ensures var r := StoredPage(st, page);
            && st.users.Keys <= r.users.Keys
            && (forall i :: 0 <= i < |page| ==> page[i].author.id in r.users)
            && (forall i :: 0 <= i < |page| && LastOfItsAuthor(page, i) ==>
                  r.users[page[i].author.id] == page[i].author)
    decreases |page|
  {
    if page != [] {
      var prefix := page[..|page| - 1];
      var msg := page[|page| - 1];
      StoredPageHoldsAuthors(st, prefix);
      var mid := StoredPage(st, prefix);
      var r := Stored(mid, msg);
      assert r == StoredPage(st, page);
      forall i | 0 <= i < |page|
        ensures page[i].author.id in r.users
      {
        if i < |page| - 1 {
          assert page[i] == prefix[i];
        }
      }
      forall i | 0 <= i < |page| && LastOfItsAuthor(page, i)
        ensures r.users[page[i].author.id] == page[i].author
      {
        if i < |page| - 1 {
          assert page[i] == prefix[i];
          assert forall j :: i < j < |prefix| ==> prefix[j] == page[j];
        }
      }
    }
  }

  // ---- Earliest and latest message ----

  /** One step of the tracking loop as written: a missing (zero) earliest or
      latest takes the message; then the message's time is compared with
      the EARLIEST message's time for both updates. */
  function Step(earliest: Message, latest: Message, msg: Message): (r: (Message, Message))
    ensures r.0 == msg || r.0 == earliest
    ensures r.1 == msg || r.1 == latest
  {
    var earliest := if earliest.id == "" then msg else earliest;
    var latest := if latest.id == "" then msg else latest;
    var et := earliest.timestamp;
    var earliest := if msg.timestamp < et then msg else earliest;
    var latest := if msg.timestamp > et then msg else latest;
    (earliest, latest)
  }

  /** The tracking loop over a page. */
  function Track(earliest: Message, latest: Message, page: seq<Message>): (r: (Message, Message))
    ensures r.0 == earliest || r.0 in page
    ensures r.1 == latest || r.1 in page
    decreases |page|
  {
    if page == [] then (earliest, latest)
    else
      var (e, l) := Track(earliest, latest, page[..|page| - 1]);
      Step(e, l, page[|page| - 1])
  }

  function Posted(id: string, timestamp: nat): Message {
    Message(id, "492391546411417620", "", NoUser, timestamp, [])
  }

  /** As written, "latest" is not the newest message: posted at 10, 20 and
      15, the loop ends with the message posted at 15 as latest. */
  lemma LatestIsNotNewest()
    ensures var page := [Posted("a", 10), Posted("b", 20), Posted("c", 15)];
            && Track(NoMessage, NoMessage, page).1 == page[2]
            && page[2].timestamp < page[1].timestamp
  {
    var page := [Posted("a", 10), Posted("b", 20), Posted("c", 15)];
    assert page[..0] == [] && page[..1] == [page[0]] && page[..2] == [page[0], page[1]];
    assert page[..1][..0] == [] && page[..2][..1] == page[..1];
    assert Track(NoMessage, NoMessage, page[..1]) == (page[0], page[0]);
    assert Track(NoMessage, NoMessage, page[..2]) == (page[0], page[1]);
  }

  /** The step evidently intended: the latest message is updated by comparing
      with the latest message's own time. */
  function StepIntended(earliest: Message, latest: Message, msg: Message): (r: (Message, Message))
    ensures r.0 == msg || r.0 == earliest
    ensures r.1 == msg || r.1 == latest
  {
    var earliest := if earliest.id == "" then msg else earliest;
    var latest := if latest.id == "" then msg else latest;
    var earliest := if msg.timestamp < earliest.timestamp then msg else earliest;
    var latest := if msg.timestamp > latest.timestamp then msg else latest;
    (earliest, latest)
  }

  function TrackIntended(earliest: Message, latest: Message, page: seq<Message>): (Message, Message)
    decreases |page|
  {
    if page == [] then (earliest, latest)
    else
      var (e, l) := TrackIntended(earliest, latest, page[..|page| - 1]);
      StepIntended(e, l, page[|page| - 1])
  }

  /** With the intended step, a page of messages with IDs ends with the
      earliest and the latest message of the page. */
  lemma {:induction false} TrackIntendedFindsBounds(page: seq<Message>)
    requires |page| > 0
    requires forall i :: 0 <= i < |page| ==> page[i].id != ""
    ensures var (e, l) := TrackIntended(NoMessage, NoMessage, page);
            && e in page && l in page
            && (forall i :: 0 <= i < |page| ==> e.timestamp <= page[i].timestamp <= l.timestamp)
    decreases |page|
  {
    var prefix := page[..|page| - 1];
    var msg := page[|page| - 1];
    if prefix == [] {
      assert TrackIntended(NoMessage, NoMessage, prefix) == (NoMessage, NoMessage);
      assert page == [msg];
    } else {
      TrackIntendedFindsBounds(prefix);
      var (e, l) := TrackIntended(NoMessage, NoMessage, prefix);
      assert e.id != "" && l.id != "" by {
        var a :| 0 <= a < |prefix| && prefix[a] == e;
        var b :| 0 <= b < |prefix| && prefix[b] == l;
      }
      forall i | 0 <= i < |page| - 1
        ensures page[i] == prefix[i]
      {
      }
    }
  }

  /** The correction touches only "latest", which is only logged: both
      loops agree on the earliest message, and so on every page requested. */
  lemma {:induction false} EarliestUnaffected(earliest: Message, latest: Message, other: Message, page: seq<Message>)
    ensures Track(earliest, latest, page).0 == TrackIntended(earliest, other, page).0
    decreases |page|
  {
    if page != [] {
      EarliestUnaffected(earliest, latest, other, page[..|page| - 1]);
    }
  }

  // ---- Recording reactions ----

  /** `uid` is the ID of one of the users. */
  predicate AmongIds(us: seq<User>, uid: string) {
    exists i :: 0 <= i < |us| && us[i].id == uid
  }

  /** `uid` reacted to the message stored at `messages[ch][key]`, as the API
      `reactors` (`s.MessageReactions` for a channel, message ID and emoji) tells. */
  ghost predicate ReactedTo(messages: Messages, reactors: (string, string, string) -> seq<User>, ch: string, key: string, uid: string) {
    && ch in messages && key in messages[ch]
    && exists j :: 0 <= j < |messages[ch][key].emoji| &&
         AmongIds(reactors(ch, messages[ch][key].id, messages[ch][key].emoji[j]), uid)
  }

  ghost predicate ReactedInChannel(messages: Messages, reactors: (string, string, string) -> seq<User>, ch: string, mid: string, uid: string) {
    exists key :: ReactedTo(messages, reactors, ch, key, uid) && messages[ch][key].id == mid
  }

  /** `uid` reacted to some stored message whose ID is `mid`. */
  ghost predicate Reacted(messages: Messages, reactors: (string, string, string) -> seq<User>, mid: string, uid: string) {
    exists ch :: ReactedInChannel(messages, reactors, ch, mid, uid)
  }

  /** No message loses its entry and no recorded reactor is dropped. */
  ghost predicate Grows(before: Reactions, after: Reactions) {
    && before.Keys <= after.Keys
    && forall mid, uid :: Recorded(before, mid, uid) ==> Recorded(after, mid, uid)
  }

  /** The reaction-recording loops, as methods on the bot's maps. */

  /** The innermost loop: every user of one `s.MessageReactions` answer
      joins the message's reactor set, created at the first user. */
  method AddReactors(bot: Bot, mid: string, us: seq<User>)
    modifies bot
    ensures bot.messages == old(bot.messages) && bot.users == old(bot.users)
    ensures bot.reactions.Keys == old(bot.reactions).Keys + (if |us| > 0 then {mid} else {})
    ensures Grows(old(bot.reactions), bot.reactions)
    ensures forall i :: 0 <= i < |us| ==> Recorded(bot.reactions, mid, us[i].id)
    ensures forall m, u :: Recorded(bot.reactions, m, u) ==> Recorded(old(bot.reactions), m, u) || (m == mid && AmongIds(us, u))
  {
    for i := 0 to |us|
      invariant bot.messages == old(bot.messages) && bot.users == old(bot.users)
      invariant bot.reactions.Keys == old(bot.reactions).Keys + (if i > 0 then {mid} else {})
      invariant Grows(old(bot.reactions), bot.reactions)
      invariant forall k :: 0 <= k < i ==> Recorded(bot.reactions, mid, us[k].id)
      invariant forall m, u :: Recorded(bot.reactions, m, u) ==> Recorded(old(bot.reactions), m, u) || (m == mid && AmongIds(us[..i], u))
    {
      if mid !in bot.reactions {
        bot.reactions := bot.reactions[mid := {}];
      }
      bot.reactions := bot.reactions[mid := bot.reactions[mid] + {us[i].id}];
      forall m, u | Recorded(bot.reactions, m, u)
        ensures Recorded(old(bot.reactions), m, u) || (m == mid && AmongIds(us[..i + 1], u))
      {
        if m == mid && u == us[i].id {
          assert us[..i + 1][i].id == u;
        } else if m == mid && AmongIds(us[..i], u) {
          var k :| 0 <= k < i && us[..i][k].id == u;
          assert us[..i + 1][k].id == u;
        }
      }
    }
    assert us[..|us|] == us;
  }

  /** The loop over one message's emoji. */
  method RecordMessage(bot: Bot, reactors: (string, string, string) -> seq<User>, ch: string, key: string)
    requires ch in bot.messages && key in bot.messages[ch]
    modifies bot
    ensures bot.messages == old(bot.messages) && bot.users == old(bot.users)
    ensures Grows(old(bot.reactions), bot.reactions)
    ensures forall uid :: ReactedTo(bot.messages, reactors, ch, key, uid) ==> Recorded(bot.reactions, bot.messages[ch][key].id, uid)
    ensures forall m, u :: Recorded(bot.reactions, m, u) ==>
              Recorded(old(bot.reactions), m, u) || (m == bot.messages[ch][key].id && ReactedTo(bot.messages, reactors, ch, key, u))
  {
    var msg := bot.messages[ch][key];
    for j := 0 to |msg.emoji|
      invariant bot.messages == old(bot.messages) && bot.users == old(bot.users)
      invariant Grows(old(bot.reactions), bot.reactions)
      invariant forall k, i :: 0 <= k < j && 0 <= i < |reactors(ch, msg.id, msg.emoji[k])| ==>
                  Recorded(bot.reactions, msg.id, reactors(ch, msg.id, msg.emoji[k])[i].id)
      invariant forall m, u :: Recorded(bot.reactions, m, u) ==>
                  Recorded(old(bot.reactions), m, u) || (m == msg.id && ReactedTo(bot.messages, reactors, ch, key, u))
    {
      ghost var before := bot.reactions;
      var us := reactors(ch, msg.id, msg.emoji[j]);
      AddReactors(bot, msg.id, us);
      forall m, u | Recorded(bot.reactions, m, u) && !Recorded(before, m, u)
        ensures m == msg.id && ReactedTo(bot.messages, reactors, ch, key, u)
      {
        assert AmongIds(reactors(ch, msg.id, msg.emoji[j]), u);
      }
    }
    forall uid | ReactedTo(bot.messages, reactors, ch, key, uid)
      ensures Recorded(bot.reactions, msg.id, uid)
    {
      var j :| 0 <= j < |msg.emoji| && AmongIds(reactors(ch, msg.id, msg.emoji[j]), uid);
      var i :| 0 <= i < |reactors(ch, msg.id, msg.emoji[j])| && reactors(ch, msg.id, msg.emoji[j])[i].id == uid;
    }
  }

  /** The loop over one channel's messages, in Go's map order (any order). */
  method RecordChannel(bot: Bot, reactors: (string, string, string) -> seq<User>, ch: string)
    requires ch in bot.messages
    modifies bot
    ensures bot.messages == old(bot.messages) && bot.users == old(bot.users)
    ensures Grows(old(bot.reactions), bot.reactions)
    ensures forall key, uid :: ReactedTo(bot.messages, reactors, ch, key, uid) ==> Recorded(bot.reactions, bot.messages[ch][key].id, uid)
    ensures forall m, u :: Recorded(bot.reactions, m, u) ==>
              Recorded(old(bot.reactions), m, u) || ReactedInChannel(bot.messages, reactors, ch, m, u)
  {
    var keys := bot.messages[ch].Keys;
    while keys != {}
      invariant bot.messages == old(bot.messages) && bot.users == old(bot.users)
      invariant keys <= bot.messages[ch].Keys
      invariant Grows(old(bot.reactions), bot.reactions)
      invariant forall key, uid :: key !in keys && ReactedTo(bot.messages, reactors, ch, key, uid) ==>
                  Recorded(bot.reactions, bot.messages[ch][key].id, uid)
      invariant forall m, u :: Recorded(bot.reactions, m, u) ==>
                  Recorded(old(bot.reactions), m, u) || ReactedInChannel(bot.messages, reactors, ch, m, u)
      decreases keys
    {
      var key :| key in keys;
      ghost var before := bot.reactions;
      RecordMessage(bot, reactors, ch, key);
      forall m, u | Recorded(bot.reactions, m, u) && !Recorded(before, m, u)
        ensures ReactedInChannel(bot.messages, reactors, ch, m, u)
      {
        assert ReactedTo(bot.messages, reactors, ch, key, u) && bot.messages[ch][key].id == m;
      }
      keys := keys - {key};
    }
  }

  /** buildReactionsState: every stored message, channel by channel in Go's
      map order. Afterwards a user is recorded for a message ID exactly when
      it was before or the API names it among the reactors, for some emoji,
      of a stored message with that ID; no entry is dropped. */
  method BuildReactionsState(bot: Bot, reactors: (string, string, string) -> seq<User>)
    modifies bot
    ensures bot.messages == old(bot.messages) && bot.users == old(bot.users)
    ensures old(bot.reactions).Keys <= bot.reactions.Keys
    ensures forall mid, uid :: Recorded(bot.reactions, mid, uid) <==>
              Recorded(old(bot.reactions), mid, uid) || Reacted(bot.messages, reactors, mid, uid)
  {
    var channels := bot.messages.Keys;
    while channels != {}
      invariant bot.messages == old(bot.messages) && bot.users == old(bot.users)
      invariant channels <= bot.messages.Keys
      invariant Grows(old(bot.reactions), bot.reactions)
      invariant forall ch, key, uid :: ch !in channels && ReactedTo(bot.messages, reactors, ch, key, uid) ==>
                  Recorded(bot.reactions, bot.messages[ch][key].id, uid)
      invariant forall m, u :: Recorded(bot.reactions, m, u) ==>
                  Recorded(old(bot.reactions), m, u) || Reacted(bot.messages, reactors, m, u)
      decreases channels
    {
      var ch :| ch in channels;
      ghost var before := bot.reactions;
      RecordChannel(bot, reactors, ch);
      forall m, u | Recorded(bot.reactions, m, u) && !Recorded(before, m, u)
        ensures Reacted(bot.messages, reactors, m, u)
      {
        assert ReactedInChannel(bot.messages, reactors, ch, m, u);
      }
      channels := channels - {ch};
    }
    forall mid, uid | Reacted(bot.messages, reactors, mid, uid)
      ensures Recorded(bot.reactions, mid, uid)
    {
      var ch :| ReactedInChannel(bot.messages, reactors, ch, mid, uid);
      var key :| ReactedTo(bot.messages, reactors, ch, key, uid) && bot.messages[ch][key].id == mid;
    }
  }

  // ---- Paging through the channel ----

  /** The body of the page loop that stores one message and its author. */
  method StoreMessage(bot: Bot, msg: Message)
    modifies bot
    ensures bot.Snapshot() == Stored(old(bot.Snapshot()), msg)
  {
    ghost var inner := if msg.channelID in bot.messages then bot.messages[msg.channelID] else map[];
    if msg.channelID !in bot.messages {
      bot.messages := bot.messages[msg.channelID := map[]];
    }
    assert bot.messages[msg.channelID] == inner;
    bot.messages := bot.messages[msg.channelID := bot.messages[msg.channelID][msg.id := msg]];
    assert bot.messages == old(bot.messages)[msg.channelID := inner[msg.id := msg]];
    bot.users := bot.users[msg.author.id := msg.author];
  }

  /** One page stored and tracked, message by message. */
  method CataloguePage(bot: Bot, page: seq<Message>, earliest: Message, latest: Message)
    returns (newEarliest: Message, newLatest: Message)
    modifies bot
    ensures bot.Snapshot() == StoredPage(old(bot.Snapshot()), page)
    ensures (newEarliest, newLatest) == Track(earliest, latest, page)
  {
    newEarliest, newLatest := earliest, latest;
    for i := 0 to |page|
      invariant bot.Snapshot() == StoredPage(old(bot.Snapshot()), page[..i])
      invariant (newEarliest, newLatest) == Track(earliest, latest, page[..i])
    {
      var msg := page[i];
      StoreMessage(bot, msg);
      var next := Step(newEarliest, newLatest, msg);
      newEarliest, newLatest := next.0, next.1;
      assert page[..i + 1][..i] == page[..i];
    }
    assert page[..|page|] == page;
  }

  /** The paging loop of buildMessagesState, for at most `fuel` pages: each
      request asks for the messages before the earliest one seen so far, and
      the first empty page ends the loop. */
  function Catalogued(st: State, earliest: Message, latest: Message,
                      channelMessages: string -> seq<Message>, fuel: nat): (r: State)
    ensures r.reactions == st.reactions
    ensures channelMessages(earliest.id) == [] ==> r == st
    decreases fuel
  {
    if fuel == 0 then st
    else
      var page := channelMessages(earliest.id);
      if page == [] then st
      else
        var t := Track(earliest, latest, page);
        Catalogued(StoredPage(st, page), t.0, t.1, channelMessages, fuel - 1)
  }

  /** The first empty page ends the catalogue with nothing stored. */
  lemma EmptyPageStops(st: State, earliest: Message, latest: Message, channelMessages: string -> seq<Message>, fuel: nat)
    requires channelMessages(earliest.id) == []
    ensures Catalogued(st, earliest, latest, channelMessages, fuel) == st
  {
  }

  /** `r` has the reactions of `st` and every message and user `st` has. */
  predicate Keeps(st: State, r: State) {
    && r.reactions == st.reactions
    && (forall c, k :: c in st.messages && k in st.messages[c] ==> c in r.messages && k in r.messages[c])
    && st.users.Keys <= r.users.Keys
  }

  lemma KeepsTransitive(a: State, b: State, c: State)
    requires Keeps(a, b) && Keeps(b, c)
    ensures Keeps(a, c)
  {
  }

  /** Storing a page never touches the reactions and never loses a stored
      message or user. */
  lemma {:induction false} StoredPageKeeps(st: State, page: seq<Message>)
    ensures Keeps(st, StoredPage(st, page))
    decreases |page|
  {
    if page != [] {
      var prefix := page[..|page| - 1];
      StoredPageKeeps(st, prefix);
      KeepsTransitive(st, StoredPage(st, prefix), StoredPage(st, page));
    }
  }

  /** Paging never touches the reactions and never loses a stored message or user. */
  lemma {:induction false} CataloguedKeeps(st: State, earliest: Message, latest: Message,
                                           channelMessages: string -> seq<Message>, fuel: nat)
    ensures Keeps(st, Catalogued(st, earliest, latest, channelMessages, fuel))
    decreases fuel
  {
    if fuel > 0 {
      var page := channelMessages(earliest.id);
      if page != [] {
        var t := Track(earliest, latest, page);
        var mid := StoredPage(st, page);
        StoredPageKeeps(st, page);
        CataloguedKeeps(mid, t.0, t.1, channelMessages, fuel - 1);
        KeepsTransitive(st, mid, Catalogued(mid, t.0, t.1, channelMessages, fuel - 1));
      }
    }
  }

  /** The paging loop of buildMessagesState. */
  method CatalogueMessages(bot: Bot, channelMessages: string -> seq<Message>, fuel: nat)
    modifies bot
    ensures bot.Snapshot() == Catalogued(old(bot.Snapshot()), NoMessage, NoMessage, channelMessages, fuel)
  {
    var earliest, latest := NoMessage, NoMessage;
    var pages := 0;
    while pages < fuel
      invariant pages <= fuel
      invariant Catalogued(old(bot.Snapshot()), NoMessage, NoMessage, channelMessages, fuel)
             == Catalogued(bot.Snapshot(), earliest, latest, channelMessages, fuel - pages)
      decreases fuel - pages
    {
      var page := channelMessages(earliest.id);
      if |page| == 0 {
        break;
      }
      earliest, latest := CataloguePage(bot, page, earliest, latest);
      pages := pages + 1;
    }
  }

  /** buildMessagesState followed by buildReactionsState. */
  method BuildMessagesState(bot: Bot, channelMessages: string -> seq<Message>,
                            reactors: (string, string, string) -> seq<User>, fuel: nat)
    modifies bot
    ensures var st := Catalogued(old(bot.Snapshot()), NoMessage, NoMessage, channelMessages, fuel);
            && bot.messages == st.messages && bot.users == st.users
            && st.reactions.Keys <= bot.reactions.Keys
            && forall mid, uid :: Recorded(bot.reactions, mid, uid) <==>
                 Recorded(st.reactions, mid, uid) || Reacted(bot.messages, reactors, mid, uid)
  {
    CatalogueMessages(bot, channelMessages, fuel);
    BuildReactionsState(bot, reactors);
  }
}
