/** The messaging hook: sending a message, marking one read, the two-party
    thread, and the grouping of a user's messages into conversations (one
    per counterparty, newest conversation first, with an unread count and
    the newest message's text). */
module Messaging {
  import opened Common
  import opened Records

  // ---------------------------------------------------------------------
  // The `messages` table

  /** `insert([draft]).select().single()`: the store assigns the id and the
      creation time and leaves `read` null; an error or a taken id creates
      nothing. */
  function InsertMessage(rows: map<string, MessageRecord>, d: MessageDraft, newId: string, now: int, fail: bool)
    : (w: Write<MessageRecord>)
    ensures w.result.Some? <==> !fail && newId !in rows
    ensures w.result.None? ==> w.rows == rows
    ensures w.result.Some? ==>
              var m := w.result.value;
              w.rows == rows[newId := m] && m.id == newId && m.createdAt == now && m.read == None
              && m.senderId == d.senderId && m.receiverId == d.receiverId
              && m.content == d.content && m.contractId == d.contractId
  {
    if fail || newId in rows then Write(rows, None)
    else
      var m := MessageRecord(newId, d.senderId, d.receiverId, d.contractId, d.content, None, now);
      Write(rows[newId := m], Some(m))
  }

  /** `update({ read: true }).eq("id", id)`: true unless the store reports an
      error; an id that matches no row is not an error and changes nothing. */
  function MarkRead(rows: map<string, MessageRecord>, id: string, fail: bool): (r: (map<string, MessageRecord>, bool))
    ensures r.1 <==> !fail
    ensures r.0.Keys == rows.Keys
    ensures forall k :: k in rows && k != id ==> r.0[k] == rows[k]
    ensures !r.1 || id !in rows ==> r.0 == rows
    ensures r.1 && id in rows ==> r.0[id] == rows[id].(read := Some(true))
  {
    if fail then (rows, false)
    else if id in rows then (rows[id := rows[id].(read := Some(true))], true)
    else (rows, true)
  }

  /** A message counts as unread for `userId` when someone else sent it and
      its `read` is not true (false or null). */
  predicate IsUnreadFor(userId: string, m: MessageRecord) {
    m.senderId != userId && m.read != Some(true)
  }

  /** A message just sent is unread for its receiver, and marking it read
      makes it read for everyone; marking twice is marking once. */
  lemma SendThenMarkRead(rows: map<string, MessageRecord>, d: MessageDraft, newId: string, now: int)
    requires newId !in rows && d.senderId != d.receiverId
    ensures var w := InsertMessage(rows, d, newId, now, false);
            IsUnreadFor(d.receiverId, w.result.value)
            && var marked := MarkRead(w.rows, newId, false).0;
               (forall u :: !IsUnreadFor(u, marked[newId]))
               && MarkRead(marked, newId, false).0 == marked
  {
  }

  class MessageTable {
    var rows: map<string, MessageRecord>

    constructor (initial: map<string, MessageRecord>)
      ensures rows == initial
    {
      rows := initial;
    }
  }

  // ---------------------------------------------------------------------
  // The two-party thread

  /** A row of the thread query: the message and its sender's profile. */
  datatype ThreadRow = ThreadRow(message: MessageRecord, senderName: string, senderAvatar: Option<string>)

  datatype Sender = Sender(id: string, name: string, avatar: Option<string>)

  /** One message as the thread shows it. `time` is the instant; how it is
      rendered as text is not part of this model. */
  datatype ThreadMessage = ThreadMessage(id: string, sender: Sender, content: string, time: int, isOwnMessage: bool)

  /** getMessages' `data.map(...)`: one entry per row, in the same order,
      flagged as own exactly when the viewer sent it. */
  function FormatThread(userId: string, rows: seq<ThreadRow>): (r: seq<ThreadMessage>)
    ensures |r| == |rows|
    ensures forall i :: 0 <= i < |rows| ==>
              r[i].id == rows[i].message.id
              && r[i].sender == Sender(rows[i].message.senderId, rows[i].senderName, rows[i].senderAvatar)
              && r[i].content == rows[i].message.content && r[i].time == rows[i].message.createdAt
              && (r[i].isOwnMessage <==> rows[i].message.senderId == userId)
  {
    if rows == [] then []
    else
      var m := rows[0].message;
      [ThreadMessage(m.id, Sender(m.senderId, rows[0].senderName, rows[0].senderAvatar), m.content,
                     m.createdAt, m.senderId == userId)]
      + FormatThread(userId, rows[1..])
  }

  /** Rows in ascending creation order (what the query asks the store for). */
  predicate OldestFirst(rows: seq<ThreadRow>) {
    forall i, j :: 0 <= i < j < |rows| ==> rows[i].message.createdAt <= rows[j].message.createdAt
  }

  predicate Between(rows: seq<ThreadRow>, a: string, b: string) {
    forall i :: 0 <= i < |rows| ==>
      (rows[i].message.senderId == a && rows[i].message.receiverId == b)
      || (rows[i].message.senderId == b && rows[i].message.receiverId == a)
  }

  /** On the thread between the viewer and one other user, formatted in
      ascending time: the times stay ascending, and every entry not flagged
      as own is from the other user. */
  lemma ThreadOfTwo(userId: string, otherId: string, rows: seq<ThreadRow>)
    requires OldestFirst(rows) && Between(rows, userId, otherId)
    ensures var r := FormatThread(userId, rows);
            (forall i, j :: 0 <= i < j < |r| ==> r[i].time <= r[j].time)
            && (forall i :: 0 <= i < |r| && !r[i].isOwnMessage ==> r[i].sender.id == otherId)
            && (forall i :: 0 <= i < |r| && r[i].isOwnMessage ==> r[i].sender.id == userId)
  {
  }

  // ---------------------------------------------------------------------
  // Conversations

  /** A joined profile (`full_name`, `profile_image_url`, `business_name`). */
  datatype PartyProfile = PartyProfile(fullName: string, profileImageUrl: Option<string>, businessName: Option<string>)

  /** A row of the conversation query: the message with both profiles. */
  datatype ConversationRow = ConversationRow(message: MessageRecord, senderProfile: PartyProfile, receiverProfile: PartyProfile)

  datatype ConversationUser = ConversationUser(id: string, name: string, avatar: Option<string>, company: string)

  /** One message inside a conversation. */
  datatype Entry = Entry(id: string, content: string, time: int, isOwnMessage: bool, read: Option<bool>)

  /** A conversation, keyed by the counterparty's id. `lastMessage` is the
      newest message's text, absent until the final pass sets it. */
  datatype Conversation = Conversation(
    id: string,
    user: ConversationUser,
    messages: seq<Entry>,
    unread: nat,
    lastMessage: Option<string>)

  /** The other party: the receiver when the viewer sent the message, the
      sender otherwise. */
  function Counterparty(userId: string, r: ConversationRow): string {
    if r.message.senderId == userId then r.message.receiverId else r.message.senderId
  }

  /** The conversation's `user`, taken from the other party's profile. */
  function UserOf(userId: string, r: ConversationRow): (u: ConversationUser)
    ensures u.id == Counterparty(userId, r)
    ensures var p := if r.message.senderId == userId then r.receiverProfile else r.senderProfile;
            u.name == p.fullName && u.avatar == p.profileImageUrl && u.company == p.businessName.GetOr("")
  {
    var p := if r.message.senderId == userId then r.receiverProfile else r.senderProfile;
    ConversationUser(Counterparty(userId, r), p.fullName, p.profileImageUrl, p.businessName.GetOr(""))
  }

  function EntryOf(userId: string, r: ConversationRow): (e: Entry)
    ensures e.time == r.message.createdAt && e.content == r.message.content
    ensures e.isOwnMessage <==> r.message.senderId == userId
    ensures (!e.isOwnMessage && e.read != Some(true)) <==> IsUnreadFor(userId, r.message)
  {
    Entry(r.message.id, r.message.content, r.message.createdAt, r.message.senderId == userId, r.message.read)
  }

  /** The entries of the rows whose counterparty is `key`, in row order. */
  function Bucket(userId: string, rows: seq<ConversationRow>, key: string): seq<Entry>
    decreases |rows|
  {
    if rows == [] then []
    else
      var last := rows[|rows| - 1];
      Bucket(userId, rows[..|rows| - 1], key) + (if Counterparty(userId, last) == key then [EntryOf(userId, last)] else [])
  }

  function Counterparties(userId: string, rows: seq<ConversationRow>): set<string>
    decreases |rows|
  {
    if rows == [] then {} else Counterparties(userId, rows[..|rows| - 1]) + {Counterparty(userId, rows[|rows| - 1])}
  }

  /** The first row whose counterparty is `key`. */
  function FirstWith(userId: string, rows: seq<ConversationRow>, key: string): (r: ConversationRow)
    requires key in Counterparties(userId, rows)
    ensures Counterparty(userId, r) == key
    ensures exists i :: 0 <= i < |rows| && rows[i] == r && forall t :: 0 <= t < i ==> Counterparty(userId, rows[t]) != key
    decreases |rows|
  {
    var init := rows[..|rows| - 1];
    if key in Counterparties(userId, init) then
      var r := FirstWith(userId, init, key);
      assert exists i :: 0 <= i < |rows| && rows[i] == r && forall t :: 0 <= t < i ==> Counterparty(userId, rows[t]) != key by {
        var i :| 0 <= i < |init| && init[i] == r && forall t :: 0 <= t < i ==> Counterparty(userId, init[t]) != key;
        assert forall t :: 0 <= t <= i ==> rows[t] == init[t];
      }
      r
    else
      assert forall t :: 0 <= t < |init| ==> Counterparty(userId, rows[t]) != key by {
        forall t | 0 <= t < |init|
          ensures Counterparty(userId, rows[t]) != key
        {
          RowInItsBucket(userId, init, t);
        }
      }
      rows[|rows| - 1]
  }

  /** The entries someone else sent that are not marked read. */
  function UnreadCount(es: seq<Entry>): nat
    decreases |es|
  {
    if es == [] then 0
    else UnreadCount(es[..|es| - 1]) + (if !es[|es| - 1].isOwnMessage && es[|es| - 1].read != Some(true) then 1 else 0)
  }

  /** The conversation the grouping builds for `key` out of `rows`. */
  function ConversationFor(userId: string, rows: seq<ConversationRow>, key: string): Conversation
    requires key in Counterparties(userId, rows)
  {
    var es := Bucket(userId, rows, key);
    Conversation(key, UserOf(userId, FirstWith(userId, rows, key)), es, UnreadCount(es), None)
  }

  predicate UniqueIds(cs: seq<Conversation>) {
    forall i, j :: 0 <= i < |cs| && 0 <= j < |cs| && cs[i].id == cs[j].id ==> i == j
  }

  function IdSet(cs: seq<Conversation>): set<string> {
    set c | c in cs :: c.id
  }

  /** What appending one row does to each of the functions above, for one key. */
  lemma Snoc(userId: string, rows: seq<ConversationRow>, r: ConversationRow, key: string)
    ensures (rows + [r])[..|rows|] == rows
    ensures Counterparties(userId, rows + [r]) == Counterparties(userId, rows) + {Counterparty(userId, r)}
    ensures Bucket(userId, rows + [r], key)
              == Bucket(userId, rows, key) + (if Counterparty(userId, r) == key then [EntryOf(userId, r)] else [])
    ensures key in Counterparties(userId, rows) ==> FirstWith(userId, rows + [r], key) == FirstWith(userId, rows, key)
    ensures key !in Counterparties(userId, rows) && key == Counterparty(userId, r) ==> FirstWith(userId, rows + [r], key) == r
  {
    assert (rows + [r])[..|rows|] == rows;
  }

  lemma {:induction false} BucketOfStranger(userId: string, rows: seq<ConversationRow>, key: string)
    requires key !in Counterparties(userId, rows)
    ensures Bucket(userId, rows, key) == []
    decreases |rows|
  {
    if rows != [] {
      BucketOfStranger(userId, rows[..|rows| - 1], key);
    }
  }

  lemma UnreadCountSnoc(es: seq<Entry>, e: Entry)
    ensures UnreadCount(es + [e]) == UnreadCount(es) + (if !e.isOwnMessage && e.read != Some(true) then 1 else 0)
  {
    assert (es + [e])[..|es|] == es;
  }

  /** `acc` holds one conversation per counterparty of `rows`, each exactly
      the bucket of its rows. */
  predicate Grouped(userId: string, rows: seq<ConversationRow>, acc: seq<Conversation>) {
    UniqueIds(acc)
    && IdSet(acc) == Counterparties(userId, rows)
    && forall k :: 0 <= k < |acc| ==>
         acc[k].id in Counterparties(userId, rows) && acc[k] == ConversationFor(userId, rows, acc[k].id)
  }

  /** getConversations' `reduce`: fold the rows, in order, into the
      conversations, starting from none. */
  method GroupConversations(userId: string, rows: seq<ConversationRow>) returns (acc: seq<Conversation>)
    ensures Grouped(userId, rows, acc)
  {
    acc := [];
    var i := 0;
    while i < |rows|
      invariant 0 <= i <= |rows|
      invariant Grouped(userId, rows[..i], acc)
    {
      assert rows[..i + 1] == rows[..i] + [rows[i]];
      acc := AddMessage(userId, rows[..i], acc, rows[i]);
      i := i + 1;
    }
    assert rows[..|rows|] == rows;
  }

  /** The `reduce` callback: find the conversation of the row's
      counterparty (creating it, with that party's profile, at the end when
      there is none), push the entry, and count it when it is unread. */
  method AddMessage(userId: string, ghost seen: seq<ConversationRow>, acc: seq<Conversation>, message: ConversationRow)
    returns (acc': seq<Conversation>)
    requires Grouped(userId, seen, acc)
    ensures Grouped(userId, seen + [message], acc')
  {
    assert (seen + [message])[..|seen|] == seen;
    assert Counterparties(userId, seen + [message]) == Counterparties(userId, seen) + {Counterparty(userId, message)};
    var isUserSender := message.message.senderId == userId;
    var otherUserId := if isUserSender then message.message.receiverId else message.message.senderId;
    var j := 0;
    while j < |acc| && acc[j].user.id != otherUserId
      invariant 0 <= j <= |acc|
      invariant forall t :: 0 <= t < j ==> acc[t].id != otherUserId
    {
      j := j + 1;
    }
    acc' := acc;
    if j == |acc| {
      assert forall c' :: c' in acc ==> c'.id != otherUserId;
      assert otherUserId !in Counterparties(userId, seen);
      acc' := acc' + [Conversation(otherUserId, UserOf(userId, message), [], 0, None)];
    }
    ghost var acc1 := acc';
    var e := EntryOf(userId, message);
    var c := acc'[j];
    var unread := if !isUserSender && message.message.read != Some(true) then c.unread + 1 else c.unread;
    acc' := acc'[j := c.(messages := c.messages + [e], unread := unread)];
    IdsAfterStep(acc, acc1, acc', j, otherUserId);
    forall k | 0 <= k < |acc'|
      ensures acc'[k].id in Counterparties(userId, seen + [message])
      ensures acc'[k] == ConversationFor(userId, seen + [message], acc'[k].id)
    {
      if k != j {
        ConversationForSnoc(userId, seen, message, acc'[k].id);
      } else {
        if acc1 != acc {
          BucketOfStranger(userId, seen, otherUserId);
        }
        ConversationForSnoc(userId, seen, message, otherUserId);
      }
    }
  }

  /** How one more row changes the conversation of a key. */
  lemma ConversationForSnoc(userId: string, rows: seq<ConversationRow>, r: ConversationRow, key: string)
    requires key in Counterparties(userId, rows + [r])
    ensures key in Counterparties(userId, rows) && key != Counterparty(userId, r) ==>
              ConversationFor(userId, rows + [r], key) == ConversationFor(userId, rows, key)
    ensures key in Counterparties(userId, rows) && key == Counterparty(userId, r) ==>
              var c := ConversationFor(userId, rows, key);
              var e := EntryOf(userId, r);
              ConversationFor(userId, rows + [r], key)
                == c.(messages := c.messages + [e],
                      unread := c.unread + if IsUnreadFor(userId, r.message) then 1 else 0)
    ensures key !in Counterparties(userId, rows) ==>
              ConversationFor(userId, rows + [r], key)
                == Conversation(key, UserOf(userId, r), [EntryOf(userId, r)],
                                if IsUnreadFor(userId, r.message) then 1 else 0, None)
  {
    Snoc(userId, rows, r, key);
    var e := EntryOf(userId, r);
    if key in Counterparties(userId, rows) {
      var es := Bucket(userId, rows, key);
      if key == Counterparty(userId, r) {
        UnreadCountSnoc(es, e);
        assert Bucket(userId, rows + [r], key) == es + [e];
      } else {
        assert Bucket(userId, rows + [r], key) == es;
      }
    } else {
      BucketOfStranger(userId, rows, key);
      UnreadCountSnoc([], e);
      assert Bucket(userId, rows + [r], key) == [] + [e];
    }
  }

  /** The ids bookkeeping of one grouping step: `mid` is `before`, maybe
      with a new conversation for `key` at the end, and `after` changes
      only the entry at `j`, whose id is `key`. */
  lemma IdsAfterStep(before: seq<Conversation>, mid: seq<Conversation>, after: seq<Conversation>, j: int, key: string)
    requires UniqueIds(before) && 0 <= j < |mid| == |after| && mid[j].id == key && after[j].id == key
    requires mid == before || (mid == before + [mid[j]] && key !in IdSet(before))
    requires forall k :: 0 <= k < |mid| && k != j ==> after[k] == mid[k]
    ensures UniqueIds(after) && IdSet(after) == IdSet(before) + {key}
    ensures forall k :: 0 <= k < |before| && k != j ==> after[k] == before[k]
  {
    forall x | x in IdSet(before) + {key} ensures x in IdSet(after) {
      if x != key {
        var c' :| c' in before && c'.id == x;
        var k :| 0 <= k < |before| && before[k] == c';
        assert after[k] == c';
      } else {
        assert after[j] in after;
      }
    }
    forall x | x in IdSet(after) ensures x in IdSet(before) + {key} {
      var c' :| c' in after && c'.id == x;
      var k :| 0 <= k < |after| && after[k] == c';
      if k != j && k < |before| {
        assert before[k] == c';
      }
    }
    if mid != before {
      forall k | 0 <= k < |before| ensures before[k].id != key {
        assert before[k] in before;
      }
    }
  }

  // ---------------------------------------------------------------------
  // What the grouping means

  /** The number of entries over the conversations. */
  function TotalMessages(cs: seq<Conversation>): nat {
    if cs == [] then 0 else |cs[0].messages| + TotalMessages(cs[1..])
  }

  /** The sizes of the buckets of the ids of `cs`, added up. */
  function TotalBuckets(userId: string, rows: seq<ConversationRow>, cs: seq<Conversation>): nat {
    if cs == [] then 0 else |Bucket(userId, rows, cs[0].id)| + TotalBuckets(userId, rows, cs[1..])
  }

  lemma {:induction false} TotalBucketsSnoc(userId: string, rows: seq<ConversationRow>, r: ConversationRow, cs: seq<Conversation>)
    requires UniqueIds(cs)
    ensures TotalBuckets(userId, rows + [r], cs) == TotalBuckets(userId, rows, cs) + if Counterparty(userId, r) in IdSet(cs) then 1 else 0
  {
    if cs != [] {
      Snoc(userId, rows, r, cs[0].id);
      var tail := cs[1..];
      TailUnique(cs);
      assert IdSet(cs) == {cs[0].id} + IdSet(tail) by {
        assert cs == [cs[0]] + tail;
      }
      TotalBucketsSnoc(userId, rows, r, tail);
    }
  }

  /** The buckets of distinct keys that cover every counterparty hold each
      row exactly once between them. */
  lemma {:induction false} BucketsPartition(userId: string, rows: seq<ConversationRow>, cs: seq<Conversation>)
    requires UniqueIds(cs) && Counterparties(userId, rows) <= IdSet(cs)
    ensures TotalBuckets(userId, rows, cs) == |rows|
    decreases |rows|
  {
    if rows == [] {
      TotalBucketsEmpty(userId, cs);
    } else {
      var init, last := rows[..|rows| - 1], rows[|rows| - 1];
      assert rows == init + [last];
      BucketsPartition(userId, init, cs);
      TotalBucketsSnoc(userId, init, last, cs);
    }
  }

  lemma {:induction false} TotalBucketsEmpty(userId: string, cs: seq<Conversation>)
    ensures TotalBuckets(userId, [], cs) == 0
  {
    if cs != [] {
      TotalBucketsEmpty(userId, cs[1..]);
    }
  }

  lemma {:induction false} TotalIsBuckets(userId: string, rows: seq<ConversationRow>, cs: seq<Conversation>)
    requires forall k :: 0 <= k < |cs| ==> cs[k].messages == Bucket(userId, rows, cs[k].id)
    ensures TotalMessages(cs) == TotalBuckets(userId, rows, cs)
  {
    if cs != [] {
      TotalIsBuckets(userId, rows, cs[1..]);
    }
  }

  /** The row at `t` is in the bucket of its counterparty. */
  lemma {:induction false} RowInItsBucket(userId: string, rows: seq<ConversationRow>, t: int)
    requires 0 <= t < |rows|
    ensures Counterparty(userId, rows[t]) in Counterparties(userId, rows)
    ensures EntryOf(userId, rows[t]) in Bucket(userId, rows, Counterparty(userId, rows[t]))
    decreases |rows|
  {
    var init := rows[..|rows| - 1];
    if t < |rows| - 1 {
      assert init[t] == rows[t];
      RowInItsBucket(userId, init, t);
    }
  }

  /** Every fetched message lands in exactly one conversation: the
      conversations hold as many entries as there are rows, and each row's
      entry is in the conversation of its counterparty. */
  lemma GroupingPartitions(userId: string, rows: seq<ConversationRow>, acc: seq<Conversation>)
    requires Grouped(userId, rows, acc)
    ensures TotalMessages(acc) == |rows|
    ensures forall t :: 0 <= t < |rows| ==>
              Counterparty(userId, rows[t]) in IdSet(acc)
              && forall k :: 0 <= k < |acc| && acc[k].id == Counterparty(userId, rows[t]) ==>
                   EntryOf(userId, rows[t]) in acc[k].messages
  {
    TotalIsBuckets(userId, rows, acc);
    BucketsPartition(userId, rows, acc);
    forall t | 0 <= t < |rows|
      ensures Counterparty(userId, rows[t]) in IdSet(acc)
    {
      RowInItsBucket(userId, rows, t);
    }
    forall t, k | 0 <= t < |rows| && 0 <= k < |acc| && acc[k].id == Counterparty(userId, rows[t])
      ensures EntryOf(userId, rows[t]) in acc[k].messages
    {
      RowInItsBucket(userId, rows, t);
    }
  }

  /** The rows of `key`'s conversation that are unread for the viewer. */
  function UnreadRows(userId: string, rows: seq<ConversationRow>, key: string): nat
    decreases |rows|
  {
    if rows == [] then 0
    else
      var last := rows[|rows| - 1];
      UnreadRows(userId, rows[..|rows| - 1], key)
      + if Counterparty(userId, last) == key && IsUnreadFor(userId, last.message) then 1 else 0
  }

  /** A conversation's unread count is the number of its messages that
      someone else sent and nobody marked read (read false or null). */
  lemma {:induction false} UnreadCountsRows(userId: string, rows: seq<ConversationRow>, key: string)
    ensures UnreadCount(Bucket(userId, rows, key)) == UnreadRows(userId, rows, key)
    decreases |rows|
  {
    if rows != [] {
      var init, last := rows[..|rows| - 1], rows[|rows| - 1];
      assert init + [last] == rows;
      UnreadCountsRows(userId, init, key);
      Snoc(userId, init, last, key);
      assert UnreadRows(userId, rows, key)
          == UnreadRows(userId, init, key) + if Counterparty(userId, last) == key && IsUnreadFor(userId, last.message) then 1 else 0;
      if Counterparty(userId, last) == key {
        var e := EntryOf(userId, last);
        UnreadCountSnoc(Bucket(userId, init, key), e);
        assert Bucket(userId, rows, key) == Bucket(userId, init, key) + [e];
      } else {
        assert Bucket(userId, rows, key) == Bucket(userId, init, key);
      }
    }
  }

  /** Rows in descending creation order (what the query asks the store for). */
  predicate NewestFirst(rows: seq<ConversationRow>) {
    forall i, j :: 0 <= i < j < |rows| ==> rows[i].message.createdAt >= rows[j].message.createdAt
  }

  lemma {:induction false} BucketTimesAtLeast(userId: string, rows: seq<ConversationRow>, key: string, lower: int)
    requires forall i :: 0 <= i < |rows| ==> rows[i].message.createdAt >= lower
    ensures forall i :: 0 <= i < |Bucket(userId, rows, key)| ==> Bucket(userId, rows, key)[i].time >= lower
    decreases |rows|
  {
    if rows != [] {
      BucketTimesAtLeast(userId, rows[..|rows| - 1], key, lower);
    }
  }

  /** With the rows newest first, every conversation keeps them newest
      first, so its first entry is its newest message. */
  lemma {:induction false} BucketNewestFirst(userId: string, rows: seq<ConversationRow>, key: string)
    requires NewestFirst(rows)
    ensures var b := Bucket(userId, rows, key);
            forall i, j :: 0 <= i < j < |b| ==> b[i].time >= b[j].time
    decreases |rows|
  {
    if rows != [] {
      var init, last := rows[..|rows| - 1], rows[|rows| - 1];
      assert init + [last] == rows;
      assert NewestFirst(init);
      BucketNewestFirst(userId, init, key);
      BucketTimesAtLeast(userId, init, key, last.message.createdAt);
      Snoc(userId, init, last, key);
    }
  }

  lemma {:induction false} BucketOfMember(userId: string, rows: seq<ConversationRow>, key: string)
    requires key in Counterparties(userId, rows)
    ensures |Bucket(userId, rows, key)| > 0
    decreases |rows|
  {
    var init := rows[..|rows| - 1];
    if key in Counterparties(userId, init) {
      BucketOfMember(userId, init, key);
    }
  }

  // ---------------------------------------------------------------------
  // Sorting by newest message and the last-message pass

  /** `new Date(messages[0]?.time)`: the instant of a conversation's first
      entry (every conversation the grouping builds has one). */
  function NewestTime(c: Conversation): int {
    if |c.messages| > 0 then c.messages[0].time else 0
  }

  predicate NewestFirstOrder(cs: seq<Conversation>) {
    forall i, j :: 0 <= i < j < |cs| ==> NewestTime(cs[i]) >= NewestTime(cs[j])
  }

  /** Put `c` before the first conversation that is not newer than it. */
  function InsertByNewest(c: Conversation, sorted: seq<Conversation>): (r: seq<Conversation>)
    ensures multiset(r) == multiset(sorted) + multiset{c}
  {
    if sorted == [] || NewestTime(c) >= NewestTime(sorted[0]) then [c] + sorted
    else
      assert sorted == [sorted[0]] + sorted[1..];
      [sorted[0]] + InsertByNewest(c, sorted[1..])
  }

  lemma {:induction false} InsertKeepsOrder(c: Conversation, sorted: seq<Conversation>)
    requires NewestFirstOrder(sorted)
    ensures NewestFirstOrder(InsertByNewest(c, sorted))
  {
    if !(sorted == [] || NewestTime(c) >= NewestTime(sorted[0])) {
      var tail := sorted[1..];
      var rest := InsertByNewest(c, tail);
      assert NewestFirstOrder(tail);
      InsertKeepsOrder(c, tail);
      forall x | x in tail ensures NewestTime(x) <= NewestTime(sorted[0]) {
        var k :| 0 <= k < |tail| && tail[k] == x;
        assert sorted[k + 1] == x;
      }
      InsertBounded(c, tail, NewestTime(sorted[0]));
      HeadBeforeSorted(sorted[0], rest);
    }
  }

  /** Inserting adds no conversation newer than those already there. */
  lemma InsertBounded(c: Conversation, s: seq<Conversation>, bound: int)
    requires NewestTime(c) <= bound && forall x :: x in s ==> NewestTime(x) <= bound
    ensures forall x :: x in InsertByNewest(c, s) ==> NewestTime(x) <= bound
  {
    forall x | x in InsertByNewest(c, s) ensures NewestTime(x) <= bound {
      assert x in multiset(InsertByNewest(c, s));
    }
  }

  /** A conversation at least as new as every one of a sorted list can go
      in front of it. */
  lemma HeadBeforeSorted(h: Conversation, rest: seq<Conversation>)
    requires NewestFirstOrder(rest) && forall x :: x in rest ==> NewestTime(x) <= NewestTime(h)
    ensures NewestFirstOrder([h] + rest)
  {
    var r := [h] + rest;
    forall i, j | 0 <= i < j < |r| ensures NewestTime(r[i]) >= NewestTime(r[j]) {
      assert r[j] == rest[j - 1];
      if i > 0 {
        assert r[i] == rest[i - 1];
      }
    }
  }

  lemma {:induction false} InsertKeepsUnique(c: Conversation, sorted: seq<Conversation>)
    requires UniqueIds(sorted) && forall x :: x in sorted ==> x.id != c.id
    ensures UniqueIds(InsertByNewest(c, sorted))
  {
    if sorted == [] || NewestTime(c) >= NewestTime(sorted[0]) {
      ConsUnique(c, sorted);
    } else {
      var tail := sorted[1..];
      TailUnique(sorted);
      InsertKeepsUnique(c, tail);
      var rest := InsertByNewest(c, tail);
      forall x | x in rest ensures x.id != sorted[0].id {
        assert x in multiset(rest);
        if x != c {
          var k :| 0 <= k < |tail| && tail[k] == x;
          assert sorted[k + 1] == x;
        }
      }
      ConsUnique(sorted[0], rest);
    }
  }

  lemma ConsUnique(h: Conversation, rest: seq<Conversation>)
    requires UniqueIds(rest) && forall x :: x in rest ==> x.id != h.id
    ensures UniqueIds([h] + rest)
  {
    var r := [h] + rest;
    forall i, j | 0 <= i < |r| && 0 <= j < |r| && r[i].id == r[j].id ensures i == j {
      if i > 0 && j > 0 {
        assert r[i] == rest[i - 1] && r[j] == rest[j - 1];
      }
    }
  }

  lemma TailUnique(cs: seq<Conversation>)
    requires UniqueIds(cs) && cs != []
    ensures UniqueIds(cs[1..])
    ensures forall x :: x in cs[1..] ==> x.id != cs[0].id
  {
    var tail := cs[1..];
    forall i, j | 0 <= i < |tail| && 0 <= j < |tail| && tail[i].id == tail[j].id ensures i == j {
      assert cs[i + 1].id == cs[j + 1].id;
    }
    forall x | x in tail ensures x.id != cs[0].id {
      var k :| 0 <= k < |tail| && tail[k] == x;
      assert cs[k + 1] == x;
    }
  }

  /** `conversations.sort((a, b) => time(b) - time(a))`: a rearrangement of
      the conversations with the newest first message first (an insertion
      sort). */
  function SortByNewest(cs: seq<Conversation>): (r: seq<Conversation>)
    ensures multiset(r) == multiset(cs)
    ensures NewestFirstOrder(r)
  {
    if cs == [] then []
    else
      var rest := SortByNewest(cs[1..]);
      InsertKeepsOrder(cs[0], rest);
      assert cs == [cs[0]] + cs[1..];
      InsertByNewest(cs[0], rest)
  }

  /** Sorting keeps the ids distinct. */
  lemma {:induction false} SortKeepsUnique(cs: seq<Conversation>)
    requires UniqueIds(cs)
    ensures UniqueIds(SortByNewest(cs))
  {
    if cs != [] {
      var tail := cs[1..];
      TailUnique(cs);
      SortKeepsUnique(tail);
      var rest := SortByNewest(tail);
      forall x | x in rest ensures x.id != cs[0].id {
        assert x in multiset(rest);
      }
      InsertKeepsUnique(cs[0], rest);
    }
  }

  /** `conv.lastMessage = { text: conv.messages[0]?.content, ... }`. */
  function WithLast(c: Conversation): Conversation {
    c.(lastMessage := if |c.messages| > 0 then Some(c.messages[0].content) else None)
  }

  /** The `forEach` pass that sets every conversation's last message. */
  method SetLastMessages(cs: seq<Conversation>) returns (r: seq<Conversation>)
    ensures |r| == |cs|
    ensures forall k :: 0 <= k < |cs| ==> r[k] == WithLast(cs[k])
  {
    r := cs;
    var k := 0;
    while k < |r|
      invariant 0 <= k <= |r| == |cs|
      invariant forall t :: 0 <= t < k ==> r[t] == WithLast(cs[t])
      invariant forall t :: k <= t < |r| ==> r[t] == cs[t]
    {
      var conv := r[k];
      r := r[k := conv.(lastMessage := if |conv.messages| > 0 then Some(conv.messages[0].content) else None)];
      k := k + 1;
    }
  }

  /** The list getConversations returns: one conversation per
      counterparty, each the bucket of its rows with its unread count and
      its first entry's text as last message, newest conversation first. */
  predicate ConversationList(userId: string, rows: seq<ConversationRow>, convs: seq<Conversation>) {
    UniqueIds(convs)
    && IdSet(convs) == Counterparties(userId, rows)
    && NewestFirstOrder(convs)
    && forall k :: 0 <= k < |convs| ==>
         convs[k].id in Counterparties(userId, rows) && convs[k] == WithLast(ConversationFor(userId, rows, convs[k].id))
  }

  /** The grouping, sorted, is still one conversation per counterparty. */
  lemma SortedIsGrouped(userId: string, rows: seq<ConversationRow>, grouped: seq<Conversation>)
    requires Grouped(userId, rows, grouped)
    ensures var sorted := SortByNewest(grouped);
            UniqueIds(sorted) && IdSet(sorted) == Counterparties(userId, rows)
            && forall k :: 0 <= k < |sorted| ==>
                 sorted[k].id in Counterparties(userId, rows) && sorted[k] == ConversationFor(userId, rows, sorted[k].id)
  {
    var sorted := SortByNewest(grouped);
    SortKeepsUnique(grouped);
    forall k | 0 <= k < |sorted|
      ensures sorted[k].id in Counterparties(userId, rows) && sorted[k] == ConversationFor(userId, rows, sorted[k].id)
    {
      assert sorted[k] in multiset(sorted);
      var t :| 0 <= t < |grouped| && grouped[t] == sorted[k];
    }
    forall x | x in grouped ensures x in sorted {
      assert x in multiset(grouped);
    }
  }

  /** Setting the last messages changes neither ids nor times. */
  lemma WithLastKeeps(cs: seq<Conversation>, r: seq<Conversation>)
    requires |r| == |cs| && forall k :: 0 <= k < |cs| ==> r[k] == WithLast(cs[k])
    ensures UniqueIds(cs) ==> UniqueIds(r)
    ensures NewestFirstOrder(cs) ==> NewestFirstOrder(r)
    ensures IdSet(r) == IdSet(cs)
  {
    forall x | x in IdSet(cs) ensures x in IdSet(r) {
      var c' :| c' in cs && c'.id == x;
      var k :| 0 <= k < |cs| && cs[k] == c';
      assert r[k] in r;
    }
    forall x | x in IdSet(r) ensures x in IdSet(cs) {
      var c' :| c' in r && c'.id == x;
      var k :| 0 <= k < |r| && r[k] == c';
      assert cs[k] in cs;
    }
  }

  /** Group, sort, then set the last messages. */
  method BuildConversations(userId: string, rows: seq<ConversationRow>) returns (convs: seq<Conversation>)
    ensures ConversationList(userId, rows, convs)
  {
    var grouped := GroupConversations(userId, rows);
    var sorted := SortByNewest(grouped);
    SortedIsGrouped(userId, rows, grouped);
    convs := SetLastMessages(sorted);
    WithLastKeeps(sorted, convs);
  }

  /** With the rows newest first (as the query orders them), each
      conversation's last message is the text of its newest message. */
  lemma LastMessageIsNewest(userId: string, rows: seq<ConversationRow>, convs: seq<Conversation>, k: int)
    requires NewestFirst(rows) && ConversationList(userId, rows, convs) && 0 <= k < |convs|
    ensures |convs[k].messages| > 0 && convs[k].lastMessage == Some(convs[k].messages[0].content)
    ensures forall i :: 0 <= i < |convs[k].messages| ==> convs[k].messages[0].time >= convs[k].messages[i].time
  {
    BucketOfMember(userId, rows, convs[k].id);
    BucketNewestFirst(userId, rows, convs[k].id);
  }

  // ---------------------------------------------------------------------
  // The hook

  /** The messaging hook: a loading flag over the `messages` table. */
  class MessagingApi {
    var isLoading: bool
    const table: MessageTable

    constructor (table: MessageTable)
      ensures this.table == table && !isLoading
    {
      this.table := table;
      isLoading := false;
    }

    /** sendMessage: the stored row, or null on an error. */
    method SendMessage(d: MessageDraft, newId: string, now: int, fail: bool) returns (r: Option<MessageRecord>)
      modifies this, table
      ensures var w := InsertMessage(old(table.rows), d, newId, now, fail); table.rows == w.rows && r == w.result
      ensures !isLoading
    {
      isLoading := true;
      if fail || newId in table.rows {
        r := None;
      } else {
        var m := MessageRecord(newId, d.senderId, d.receiverId, d.contractId, d.content, None, now);
        table.rows := table.rows[newId := m];
        r := Some(m);
      }
      isLoading := false;
    }

    /** markMessageAsRead, which leaves the loading flag alone. */
    method MarkMessageAsRead(id: string, fail: bool) returns (ok: bool)
      modifies table
      ensures (table.rows, ok) == MarkRead(old(table.rows), id, fail)
    {
      if fail {
        ok := false;
      } else {
        if id in table.rows {
          table.rows := table.rows[id := table.rows[id].(read := Some(true))];
        }
        ok := true;
      }
    }

    /** getConversations over the rows the query answers with (`fail` when
      it reports an error): the conversation list, or none. */
    method GetConversations(userId: string, rows: seq<ConversationRow>, fail: bool) returns (convs: seq<Conversation>)
      modifies this
      ensures fail ==> convs == []
      ensures !fail ==> ConversationList(userId, rows, convs)
      ensures !isLoading
    {
      isLoading := true;
      if fail {
        convs := [];
      } else {
        convs := BuildConversations(userId, rows);
      }
      isLoading := false;
    }

    /** getMessages over the rows the thread query answers with. */
    method GetMessages(userId: string, rows: seq<ThreadRow>, fail: bool) returns (thread: seq<ThreadMessage>)
      modifies this
      ensures thread == if fail then [] else FormatThread(userId, rows)
      ensures !isLoading
    {
      isLoading := true;
      thread := if fail then [] else FormatThread(userId, rows);
      isLoading := false;
    }
  }
}
