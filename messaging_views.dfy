/** The messaging screens: the conversation search of the messaging page,
    the receiver it hands to the message panel, and the panel itself, which
    loads the two-party thread and sends new messages. */
module MessagingViews {
  import opened Common
  import opened Records
  import opened Messaging

  // ---------------------------------------------------------------------
  // The conversation search

  /** A conversation matches when its user's name or company, lower-cased,
      contains the lower-cased search term. */
  predicate Matches(c: Conversation, term: string) {
    Includes(ToLower(c.user.name), ToLower(term)) || Includes(ToLower(c.user.company), ToLower(term))
  }

  /** `filteredConversations`: the matching conversations, in list order. */
  function FilterConversations(convs: seq<Conversation>, term: string): (r: seq<Conversation>)
    ensures |r| <= |convs|
    ensures forall c :: c in r <==> c in convs && Matches(c, term)
  {
    if convs == [] then []
    else (if Matches(convs[0], term) then [convs[0]] else []) + FilterConversations(convs[1..], term)
  }

  /** The filter works on each part of a list separately, so the kept
      conversations stay in their order. */
  lemma {:induction false} FilterDistributes(a: seq<Conversation>, b: seq<Conversation>, term: string)
    ensures FilterConversations(a + b, term) == FilterConversations(a, term) + FilterConversations(b, term)
  {
    if a == [] {
      assert a + b == b;
    } else {
      assert (a + b)[0] == a[0] && (a + b)[1..] == a[1..] + b;
      FilterDistributes(a[1..], b, term);
    }
  }

  /** An empty search keeps every conversation. */
  lemma {:induction false} EmptySearchKeepsAll(convs: seq<Conversation>)
    ensures FilterConversations(convs, "") == convs
  {
    if convs != [] {
      IncludesEmpty(ToLower(convs[0].user.name));
      EmptySearchKeepsAll(convs[1..]);
    }
  }

  lemma LowerTwice(s: string)
    ensures ToLower(ToLower(s)) == ToLower(s)
  {
  }

  /** The search ignores case: a term and its lower-cased form keep the same
      conversations, and so do a conversation and its lower-cased names. */
  lemma SearchIgnoresCase(c: Conversation, term: string)
    ensures Matches(c, ToLower(term)) == Matches(c, term)
    ensures Matches(c.(user := c.user.(name := ToLower(c.user.name), company := ToLower(c.user.company))), term)
            == Matches(c, term)
  {
    LowerTwice(term);
    LowerTwice(c.user.name);
    LowerTwice(c.user.company);
  }

  /** `receiverId={selectedConversation?.user.id}`. */
  function ReceiverId(selected: Option<Conversation>): (r: Option<string>)
    ensures r.Some? <==> selected.Some?
  {
    if selected.Some? then Some(selected.value.user.id) else None
  }

  /** Selecting a conversation of the list makes its counterparty the
      receiver of the message panel. */
  lemma SelectedReceiverIsCounterparty(userId: string, rows: seq<ConversationRow>, convs: seq<Conversation>, k: int)
    requires ConversationList(userId, rows, convs) && 0 <= k < |convs|
    ensures ReceiverId(Some(convs[k])) == Some(convs[k].id)
    ensures convs[k].id in Counterparties(userId, rows)
  {
  }

  // ---------------------------------------------------------------------
  // The message panel

  /** handleSubmit's guard: text that is not blank, a user id, a receiver
      and a profile. */
  predicate CanSend(text: string, userId: Option<string>, receiverId: Option<string>, profile: Option<Profile>) {
    Trim(text) != "" && Present(userId) && Present(receiverId) && profile.Some?
  }

  /** `newMessage`: the text as typed (untrimmed), with `contract_id` only
      when a contract id is given. */
  function NewMessage(text: string, userId: string, receiverId: string, contractId: Option<string>): (d: MessageDraft)
    ensures d.senderId == userId && d.receiverId == receiverId && d.content == text
    ensures d.contractId.Some? <==> Present(contractId)
    ensures d.contractId.Some? ==> d.contractId == contractId
  {
    MessageDraft(userId, receiverId, text, if Present(contractId) then contractId else None)
  }

  /** The entry the panel appends for a sent message: the viewer as sender,
      flagged as own, with the stored content, shown at `shownAt`, the
      client's clock when the send returns (not the stored `created_at`). */
  function SentEntry(sent: MessageRecord, userId: string, profile: Profile, shownAt: int): (e: ThreadMessage)
    ensures e.isOwnMessage && e.id == sent.id && e.content == sent.content && e.time == shownAt
    ensures e.sender == Sender(userId, profile.fullName, profile.profileImageUrl)
  {
    ThreadMessage(sent.id, Sender(userId, profile.fullName, profile.profileImageUrl), sent.content, shownAt, true)
  }

  /** The appended entry agrees with what reloading the thread would show for
      the stored row in its id, sender, content and own flag; only its time
      differs: the panel shows the client's clock, a reload the store's
      `created_at`. */
  lemma AppendMatchesRefetch(rows: map<string, MessageRecord>, text: string, userId: string, receiverId: string,
                             contractId: Option<string>, profile: Profile, newId: string, storedAt: int, shownAt: int)
    requires newId !in rows
    ensures var w := InsertMessage(rows, NewMessage(text, userId, receiverId, contractId), newId, storedAt, false);
            var fetched := FormatThread(userId, [ThreadRow(w.result.value, profile.fullName, profile.profileImageUrl)]);
            var e := SentEntry(w.result.value, userId, profile, shownAt);
            |fetched| == 1
            && fetched[0].id == e.id && fetched[0].sender == e.sender
            && fetched[0].content == e.content && fetched[0].isOwnMessage == e.isOwnMessage
            && fetched[0].time == storedAt && e.time == shownAt
  {
  }

  /** Appending at the current time keeps a thread in ascending time. */
  lemma AppendKeepsOrder(thread: seq<ThreadMessage>, e: ThreadMessage)
    requires forall i, j :: 0 <= i < j < |thread| ==> thread[i].time <= thread[j].time
    requires forall i :: 0 <= i < |thread| ==> thread[i].time <= e.time
    ensures var t := thread + [e]; forall i, j :: 0 <= i < j < |t| ==> t[i].time <= t[j].time
  {
  }

  class MessagePanel {
    var message: string
    var messages: seq<ThreadMessage>
    const api: MessagingApi

    constructor (api: MessagingApi)
      ensures this.api == api && message == "" && messages == []
    {
      this.api := api;
      message := "";
      messages := [];
    }

    /** The input's change handler. */
    method SetMessage(v: string)
      modifies this
      ensures message == v && messages == old(messages)
    {
      message := v;
    }

    /** The fetch effect: only with a user id and a receiver does it load
        the thread, which replaces the shown messages. */
    method LoadThread(userId: Option<string>, receiverId: Option<string>, rows: seq<ThreadRow>, fail: bool)
      modifies this, api
      ensures !(Present(userId) && Present(receiverId)) ==> messages == old(messages)
      ensures Present(userId) && Present(receiverId) ==>
                messages == if fail then [] else FormatThread(userId.value, rows)
      ensures message == old(message)
    {
      if Present(userId) && Present(receiverId) {
        messages := api.GetMessages(userId.value, rows, fail);
      }
    }

    /** handleSubmit: send when the guard holds; when the store returns the
        row, append its entry, stamped with the client's clock `shownAt`,
        at the end and clear the input. The store stamps the row itself with
        `storedAt`. A failed send
        leaves the messages and the input as they were. */
    method HandleSubmit(userId: Option<string>, receiverId: Option<string>, profile: Option<Profile>,
                        contractId: Option<string>, newId: string, storedAt: int, shownAt: int, fail: bool)
      modifies this, api, api.table
      ensures !CanSend(old(message), userId, receiverId, profile) ==>
                message == old(message) && messages == old(messages) && api.table.rows == old(api.table.rows)
      ensures CanSend(old(message), userId, receiverId, profile) ==>
                var w := InsertMessage(old(api.table.rows), NewMessage(old(message), userId.value, receiverId.value, contractId),
                                       newId, storedAt, fail);
                api.table.rows == w.rows
                && (w.result.Some? ==>
                      messages == old(messages) + [SentEntry(w.result.value, userId.value, profile.value, shownAt)]
                      && message == "")
                && (w.result.None? ==> messages == old(messages) && message == old(message))
    {
      if !CanSend(message, userId, receiverId, profile) {
        return;
      }
      var sent := api.SendMessage(NewMessage(message, userId.value, receiverId.value, contractId), newId, storedAt, fail);
      if sent.Some? {
        messages := messages + [SentEntry(sent.value, userId.value, profile.value, shownAt)];
        message := "";
      }
    }
  }
}
