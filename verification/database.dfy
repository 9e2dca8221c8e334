/** DatabaseManager: the user directory and the conversation store, with
    every Firebase read a lookup in the store and every `setValue` a map
    update whose success is a parameter (`...WriteOk`). */
module Database {
  import opened Wrappers
  import opened Seqs
  import opened Identity
  import opened Tree
  import opened MessageKinds

  /** The store after an operation and the value it passed to `completion`. */
  datatype WriteResult = WriteResult(store: Store, ok: bool)

  /** `DatabaseManagerError.failedToFetch`, the one error the layer reports. */
  datatype DatabaseError = FailedToFetch

  /** The key of the flat user directory. */
  const UsersKey: string := "users"

  /** The key of an account's conversation list inside its user node. */
  const ConversationsKey: string := "conversations"

  /** The prefix that turns a message id into a conversation summary's id. */
  const ConversationPrefix: string := "conversations_"

  // ---------------------------------------------------------------------
  // Users

  /** The node stored under the user's key. The source writes the address
      under the key "emailAddress:", colon included. */
  function UserNode(user: ChatAppUser): Node
  {
    Dict(map["first_name" := Str(user.firstName),
             "last_name" := Str(user.lastName),
             "emailAddress:" := Str(user.emailAddress)])
  }

  /** The user's entry in the directory that search reads. */
  function DirectoryEntry(user: ChatAppUser): StringDict
  {
    map["name" := user.firstName + " " + user.lastName, "email" := user.SafeEmail()]
  }

  /** `fetchUsers`: the directory, if it is stored as an array of string
      dictionaries. */
  function FetchUsers(store: Store): (r: Option<seq<StringDict>>)
    ensures r.Some? <==> UsersKey in store && store[UsersKey].List? && AllStringDicts(store[UsersKey].items)
    ensures r.Some? ==> |r.value| == |store[UsersKey].items|
    ensures r.Some? ==> forall i :: 0 <= i < |r.value| ==> EncodeStringDict(r.value[i]) == store[UsersKey].items[i]
  {
    AsStringDictList(Child(store, UsersKey))
  }

  /** `insertUser`: write the user node under the safe e-mail; on success
      read the directory, append the new entry (or start a one-entry
      directory when the stored value is not an array of string
      dictionaries) and write it back. */
  function InsertUser(store: Store, user: ChatAppUser, nodeWriteOk: bool, listWriteOk: bool): (r: WriteResult)
    ensures r.ok <==> nodeWriteOk && listWriteOk
    ensures !nodeWriteOk ==> r.store == store
    ensures nodeWriteOk ==> user.SafeEmail() in r.store
    ensures nodeWriteOk && user.SafeEmail() != UsersKey ==> r.store[user.SafeEmail()] == UserNode(user)
    ensures forall k :: k != user.SafeEmail() && k != UsersKey ==>
      (k in r.store <==> k in store) && (k in store ==> r.store[k] == store[k])
    ensures nodeWriteOk && !listWriteOk && user.SafeEmail() != UsersKey ==>
      (UsersKey in r.store <==> UsersKey in store) && (UsersKey in store ==> r.store[UsersKey] == store[UsersKey])
  {
    var key := user.SafeEmail();
    if !nodeWriteOk then WriteResult(store, false)
    else
      var written := store[key := UserNode(user)];
      var entry := DirectoryEntry(user);
      var userCollection := match AsStringDictList(Child(written, UsersKey))
        case Some(existing) => existing + [entry]
        case None => [entry];
      if !listWriteOk then WriteResult(written, false)
      else WriteResult(written[UsersKey := List(EncodeStringDicts(userCollection))], true)
  }

  /** After a successful insert the directory reads back as the old one
      (empty if there was none readable) with the new entry at the end. */
  lemma InsertUserAppendsEntry(store: Store, user: ChatAppUser)
    requires user.SafeEmail() != UsersKey
    ensures FetchUsers(InsertUser(store, user, true, true).store)
         == Some(FetchUsers(store).GetOr([]) + [DirectoryEntry(user)])
  {
    var written := store[user.SafeEmail() := UserNode(user)];
    assert Child(written, UsersKey) == Child(store, UsersKey);
    var collection := FetchUsers(store).GetOr([]) + [DirectoryEntry(user)];
    StringDictListRoundTrip(collection);
  }

  /** A registered user can be found afterwards: the key `userExists` looks
      up holds the user node. */
  lemma InsertUserThenExists(store: Store, user: ChatAppUser, listWriteOk: bool)
    requires user.SafeEmail() != UsersKey
    ensures UserExistsKey(user.emailAddress) in InsertUser(store, user, true, listWriteOk).store
    ensures InsertUser(store, user, true, listWriteOk).store[UserExistsKey(user.emailAddress)] == UserNode(user)
  {
    SafeEmailCopiesAgree(user);
  }

  // ---------------------------------------------------------------------
  // Conversation summaries

  datatype LatestMessage = LatestMessage(date: string, text: string, isRead: bool)

  datatype Conversation = Conversation(id: string, name: string, otherUserEmail: string, latestMessage: LatestMessage)

  /** The dictionary a conversation summary is stored as. */
  function EncodeConversation(c: Conversation): map<string, Node>
  {
    map["id" := Str(c.id),
        "other_user_email" := Str(c.otherUserEmail),
        "name" := Str(c.name),
        "latest_message" := Dict(map["date" := Str(c.latestMessage.date),
                                     "message" := Str(c.latestMessage.text),
                                     "is_read" := Flag(c.latestMessage.isRead)])]
  }

  predicate HasStr(d: map<string, Node>, key: string)
  {
    key in d && d[key].Str?
  }

  /** The fields `getAllConversation` demands of a stored summary. */
  predicate IsWellFormedSummary(d: map<string, Node>)
  {
    && HasStr(d, "id") && HasStr(d, "name") && HasStr(d, "other_user_email")
    && "latest_message" in d && d["latest_message"].Dict?
    && HasStr(d["latest_message"].fields, "message")
    && "is_read" in d["latest_message"].fields && d["latest_message"].fields["is_read"].Flag?
    && HasStr(d["latest_message"].fields, "date")
  }

  /** The `compactMap` closure of `getAllConversation`: a summary, or nil
      when a required field is missing or has the wrong type. */
  function DecodeConversation(d: map<string, Node>): (r: Option<Conversation>)
    ensures r.Some? <==> IsWellFormedSummary(d)
    ensures r.Some? ==> forall k :: k in EncodeConversation(r.value) && k != "latest_message" ==> d[k] == EncodeConversation(r.value)[k]
    ensures r.Some? ==> forall k :: k in EncodeConversation(r.value)["latest_message"].fields ==>
      d["latest_message"].fields[k] == EncodeConversation(r.value)["latest_message"].fields[k]
  {
    if IsWellFormedSummary(d) then
      var latest := d["latest_message"].fields;
      Some(Conversation(d["id"].s, d["name"].s, d["other_user_email"].s,
                        LatestMessage(latest["date"].s, latest["message"].s, latest["is_read"].b)))
    else None
  }

  /** A stored summary reads back as the conversation it encodes. */
  lemma ConversationRoundTrip(c: Conversation)
    ensures DecodeConversation(EncodeConversation(c)) == Some(c)
  {
  }

  /** The stored value at `<email>/conversations`. */
  function ConversationsNode(store: Store, email: string): (r: Option<Node>)
    ensures r.Some? ==> email in store && store[email].Dict? && ConversationsKey in store[email].fields
  {
    match AsDict(Child(store, email))
    case Some(fields) => Child(fields, ConversationsKey)
    case None => None
  }

  /** `getAllConversation`: fail unless the stored value is an array of
      dictionaries; otherwise decode every summary that has all required
      fields and drop the rest. */
  function GetAllConversation(store: Store, email: string): (r: Result<seq<Conversation>, DatabaseError>)
    ensures r.Failure? <==> AsDictList(ConversationsNode(store, email)).None?
    ensures r.Success? ==>
      var stored := AsDictList(ConversationsNode(store, email)).value;
      && |r.value| <= |stored|
      && (forall j :: 0 <= j < |r.value| ==>
            exists i :: 0 <= i < |stored| && DecodeConversation(stored[i]) == Some(r.value[j]))
      && (forall i :: 0 <= i < |stored| && IsWellFormedSummary(stored[i]) ==>
            DecodeConversation(stored[i]).value in r.value)
  {
    match AsDictList(ConversationsNode(store, email))
    case None => Failure(FailedToFetch)
    case Some(dicts) => Success(CompactMap(dicts, DecodeConversation))
  }

  /** `getAllConversation` keeps, in their stored order, exactly the
      well-formed summaries: the stored list split anywhere decodes to the
      decoding of its parts, and one record decodes to itself when well
      formed and to nothing otherwise. */
  lemma GetAllConversationKeepsWellFormed(a: seq<map<string, Node>>, d: map<string, Node>, b: seq<map<string, Node>>)
    ensures CompactMap(a + [d] + b, DecodeConversation)
         == CompactMap(a, DecodeConversation)
          + (if IsWellFormedSummary(d) then [DecodeConversation(d).value] else [])
          + CompactMap(b, DecodeConversation)
  {
    CompactMapAppend(a + [d], b, DecodeConversation);
    CompactMapAppend(a, [d], DecodeConversation);
    CompactMapSingle(d, DecodeConversation);
  }

  /** The same for `getAllConversation` itself: wherever a summary sits in
      the stored array, the result holds its conversation at that place when
      it is well formed and nothing for it otherwise. */
  lemma GetAllConversationInOrder(store: Store, email: string, a: seq<map<string, Node>>,
                                  d: map<string, Node>, b: seq<map<string, Node>>)
    requires AsDictList(ConversationsNode(store, email)) == Some(a + [d] + b)
    ensures GetAllConversation(store, email)
         == Success(CompactMap(a, DecodeConversation)
                    + (if IsWellFormedSummary(d) then [DecodeConversation(d).value] else [])
                    + CompactMap(b, DecodeConversation))
  {
    GetAllConversationKeepsWellFormed(a, d, b);
  }

  /** The conversations a successful read gives, or none. */
  function OrNone(r: Result<seq<Conversation>, DatabaseError>): seq<Conversation>
  {
    if r.Success? then r.value else []
  }

  // ---------------------------------------------------------------------
  // Message records

  /** A stored message. */
  datatype MessageRecord = MessageRecord(
    id: string, kindTag: string, content: string, date: string,
    senderEmail: string, isRead: bool, name: string)

  /** The dictionary a message is stored as. */
  function EncodeMessageRecord(m: MessageRecord): Node
  {
    Dict(map["id" := Str(m.id), "type" := Str(m.kindTag), "content" := Str(m.content),
             "date" := Str(m.date), "sender_email" := Str(m.senderEmail),
             "is_read" := Flag(m.isRead), "name" := Str(m.name)])
  }

  /** The fields a stored message has, and no others. */
  const MessageFields: set<string> := {"id", "type", "content", "date", "sender_email", "is_read", "name"}

  /** Reads a stored message back: a dictionary with exactly the message
      fields, each of the right type. */
  function DecodeMessageRecord(n: Node): (r: Option<MessageRecord>)
    ensures r.Some? ==> n.Dict? && forall k :: k in EncodeMessageRecord(r.value).fields ==>
      k in n.fields && n.fields[k] == EncodeMessageRecord(r.value).fields[k]
    ensures r.Some? ==> n == EncodeMessageRecord(r.value)
  {
    if n.Dict? && n.fields.Keys == MessageFields && HasStr(n.fields, "id") && HasStr(n.fields, "type") && HasStr(n.fields, "content")
      && HasStr(n.fields, "date") && HasStr(n.fields, "sender_email")
      && "is_read" in n.fields && n.fields["is_read"].Flag? && HasStr(n.fields, "name")
    then Some(MessageRecord(n.fields["id"].s, n.fields["type"].s, n.fields["content"].s,
                            n.fields["date"].s, n.fields["sender_email"].s,
                            n.fields["is_read"].b, n.fields["name"].s))
    else None
  }

  /** A stored message reads back as itself. */
  lemma MessageRecordRoundTrip(m: MessageRecord)
    ensures DecodeMessageRecord(EncodeMessageRecord(m)) == Some(m)
  {
  }

  /** The node a message log is stored as. */
  function LogNode(records: seq<MessageRecord>): Node
  {
    Dict(map["messages" := List(seq(|records|, i requires 0 <= i < |records| => EncodeMessageRecord(records[i])))])
  }

  /** The message log stored under `key`, if it is one: a dictionary whose
      only field is an array of stored messages. */
  function ReadLog(store: Store, key: string): (r: Option<seq<MessageRecord>>)
    ensures r.Some? ==> key in store
    ensures r.Some? ==> store[key] == LogNode(r.value)
  {
    if key in store && store[key].Dict? && store[key].fields.Keys == {"messages"}
      && store[key].fields["messages"].List?
    then
      var items := store[key].fields["messages"].items;
      if forall i :: 0 <= i < |items| ==> DecodeMessageRecord(items[i]).Some?
      then
        var recs := seq(|items|, i requires 0 <= i < |items| => DecodeMessageRecord(items[i]).value);
        assert items == seq(|recs|, i requires 0 <= i < |recs| => EncodeMessageRecord(recs[i]));
        assert store[key].fields == LogNode(recs).fields;
        Some(recs)
      else None
    else None
  }

  /** A stored log reads back as the records written. */
  lemma LogRoundTrip(store: Store, key: string, records: seq<MessageRecord>)
    ensures ReadLog(store[key := LogNode(records)], key) == Some(records)
  {
    var items := LogNode(records).fields["messages"].items;
    forall i | 0 <= i < |items|
      ensures DecodeMessageRecord(items[i]) == Some(records[i])
    {
      MessageRecordRoundTrip(records[i]);
    }
    var r := ReadLog(store[key := LogNode(records)], key);
    assert r.Some?;
    assert r.value == records;
  }

  /** The record `finishConversation` writes for a conversation's first
      message. */
  function FirstRecord(firstMessage: Message, name: string, senderEmail: string, fmt: DateFormat): MessageRecord
  {
    MessageRecord(firstMessage.messageId, KindString(firstMessage.kind), ExtractText(firstMessage.kind),
                  fmt(firstMessage.sentDate), senderEmail, false, name)
  }

  /** The two switches over the message kind agree: the summary's latest
      message and the logged record carry the same text, the one
      `ExtractText` gives. */
  lemma SummaryAndLogAgreeOnText(otherUserEmail: string, firstMessage: Message, name: string,
                                 email: string, fmt: DateFormat)
    ensures NewSummary(otherUserEmail, firstMessage, name, fmt).latestMessage.text
         == FirstRecord(firstMessage, name, email, fmt).content
         == ExtractText(firstMessage.kind)
  {
  }

  /** `finishConversation`: without a session e-mail report failure;
      otherwise replace whatever is stored under `conversationId` with a log
      holding the one first message. */
  function FinishConversation(store: Store, conversationId: string, firstMessage: Message, name: string,
                              session: Option<string>, fmt: DateFormat, writeOk: bool): (r: WriteResult)
    ensures r.ok <==> session.Some? && writeOk
    ensures !r.ok ==> r.store == store
    ensures r.ok ==> ReadLog(r.store, conversationId) == Some([FirstRecord(firstMessage, name, session.value, fmt)])
    ensures forall k :: k != conversationId ==> (k in r.store <==> k in store) && (k in store ==> r.store[k] == store[k])
  {
    match session
    case None => WriteResult(store, false)
    case Some(currentUserEmail) =>
      var record := FirstRecord(firstMessage, name, currentUserEmail, fmt);
      if !writeOk then WriteResult(store, false)
      else
        LogRoundTrip(store, conversationId, [record]);
        WriteResult(store[conversationId := LogNode([record])], true)
  }

  /** The log write replaces: what was stored under the id before does not
      matter, and the first message's record carries its kind's tag, its
      text, an unread flag and the message id. */
  lemma FinishConversationReplaces(s1: Store, s2: Store, conversationId: string, firstMessage: Message,
                                   name: string, email: string, fmt: DateFormat)
    ensures FinishConversation(s1, conversationId, firstMessage, name, Some(email), fmt, true).store[conversationId]
         == FinishConversation(s2, conversationId, firstMessage, name, Some(email), fmt, true).store[conversationId]
    ensures var rec := FirstRecord(firstMessage, name, email, fmt);
      rec.kindTag == KindString(firstMessage.kind) && !rec.isRead && rec.id == firstMessage.messageId
      && DecodeKind(rec.kindTag, rec.content) == (if firstMessage.kind.Text? then Some(firstMessage.kind) else None)
  {
    KindRoundTrip(firstMessage.kind);
  }

  // ---------------------------------------------------------------------
  // Creating a conversation

  /** The completion of `createNewConversation`: `None` when it returned
      without ever calling its completion handler. */
  datatype CreateResult = CreateResult(store: Store, completion: Option<bool>)

  /** The summary `createNewConversation` adds for the owner. */
  function NewSummary(otherUserEmail: string, firstMessage: Message, name: string, fmt: DateFormat): Conversation
  {
    Conversation(ConversationPrefix + firstMessage.messageId, name, otherUserEmail,
                 LatestMessage(fmt(firstMessage.sentDate), ExtractText(firstMessage.kind), false))
  }

  /** The owner's conversation array after adding `summary`: appended when
      the stored value is an array of dictionaries, otherwise a fresh
      one-element array. */
  function AppendSummary(ownerNode: map<string, Node>, summary: Conversation): (items: seq<Node>)
    ensures AllDicts(items) && |items| > 0
    ensures items[|items| - 1] == Dict(EncodeConversation(summary))
  {
    var newConversation := Dict(EncodeConversation(summary));
    var existing := Child(ownerNode, ConversationsKey);
    match AsDictList(existing)
    case Some(_) => existing.value.items + [newConversation]
    case None => [newConversation]
  }

  /** `createNewConversation`: find the owner's node under the session's safe
      e-mail, add the new summary to its conversations and write the node
      back, then hand over to `finishConversation` with the raw message id. */
  function CreateNewConversation(store: Store, session: Option<string>, otherUserEmail: string,
                                 firstMessage: Message, name: string, fmt: DateFormat,
                                 ownerWriteOk: bool, logWriteOk: bool): (r: CreateResult)
    ensures session.None? ==> r == CreateResult(store, None)
    ensures session.Some? ==> r.completion.Some?
    ensures session.Some? && !logWriteOk && firstMessage.messageId != SafeEmail(session.value) ==>
      (firstMessage.messageId in r.store <==> firstMessage.messageId in store) &&
      (firstMessage.messageId in store ==> r.store[firstMessage.messageId] == store[firstMessage.messageId])
    ensures r.completion == Some(true) <==>
      session.Some? && AsDict(Child(store, SafeEmail(session.value))).Some? && ownerWriteOk && logWriteOk
    ensures session.Some? && (AsDict(Child(store, SafeEmail(session.value))).None? || !ownerWriteOk) ==>
      r == CreateResult(store, Some(false))
    ensures session.Some? ==> forall k :: k != SafeEmail(session.value) && k != firstMessage.messageId ==>
      (k in r.store <==> k in store) && (k in store ==> r.store[k] == store[k])
  {
    match session
    case None => CreateResult(store, None)
    case Some(email) =>
      var owner := SafeEmail(email);
      match AsDict(Child(store, owner))
      case None => CreateResult(store, Some(false))
      case Some(userNode) =>
        var summary := NewSummary(otherUserEmail, firstMessage, name, fmt);
        var updated := userNode[ConversationsKey := List(AppendSummary(userNode, summary))];
        if !ownerWriteOk then CreateResult(store, Some(false))
        else
          var finished := FinishConversation(store[owner := Dict(updated)], firstMessage.messageId,
                                             firstMessage, name, session, fmt, logWriteOk);
          CreateResult(finished.store, Some(finished.ok))
  }

  /** The array `createNewConversation` writes reads back as the readable
      old summaries followed by the new one. */
  lemma AppendSummaryReadsBack(ownerNode: map<string, Node>, summary: Conversation)
    ensures AsDictList(Some(List(AppendSummary(ownerNode, summary))))
         == Some(AsDictList(Child(ownerNode, ConversationsKey)).GetOr([]) + [EncodeConversation(summary)])
  {
    var items := AppendSummary(ownerNode, summary);
    var r := AsDictList(Some(List(items)));
    var before := AsDictList(Child(ownerNode, ConversationsKey));
    var expected := before.GetOr([]) + [EncodeConversation(summary)];
    assert r.Some?;
    assert |r.value| == |expected|;
    forall i | 0 <= i < |expected|
      ensures r.value[i] == expected[i]
    {
      assert items[i] == Dict(r.value[i]);
      if i < |expected| - 1 {
        assert before.Some?;
        assert items[i] == Child(ownerNode, ConversationsKey).value.items[i] == Dict(before.value[i]);
      }
    }
    assert r.value == expected;
  }

  /** Decoding an array with a summary appended gives the old decoding with
      that conversation appended. */
  lemma DecodeAppended(dicts: seq<map<string, Node>>, summary: Conversation)
    ensures CompactMap(dicts + [EncodeConversation(summary)], DecodeConversation)
         == CompactMap(dicts, DecodeConversation) + [summary]
  {
    ConversationRoundTrip(summary);
    GetAllConversationKeepsWellFormed(dicts, EncodeConversation(summary), []);
    assert dicts + [EncodeConversation(summary)] + [] == dicts + [EncodeConversation(summary)];
  }

  /** With the owner's node present and the summary write accepted, the
      owner's node afterwards is the old one with the new conversations
      array. */
  lemma CreateStoresOwnerNode(store: Store, email: string, otherUserEmail: string, firstMessage: Message,
                              name: string, fmt: DateFormat, logWriteOk: bool)
    requires AsDict(Child(store, SafeEmail(email))).Some?
    requires firstMessage.messageId != SafeEmail(email)
    ensures var after := CreateNewConversation(store, Some(email), otherUserEmail, firstMessage, name, fmt, true, logWriteOk).store;
      var userNode := store[SafeEmail(email)].fields;
      && SafeEmail(email) in after
      && after[SafeEmail(email)]
         == Dict(userNode[ConversationsKey := List(AppendSummary(userNode, NewSummary(otherUserEmail, firstMessage, name, fmt)))])
  {
  }

  /** On a successful summary write the owner's conversations read back as
      the old ones (none when they were missing or unreadable) followed by
      the new summary: id "conversations_" + message id, unread, the message
      text as latest message. The stored summaries before it are kept as they
      were, and so is every other field of the owner's node. */
  lemma CreateAppendsSummary(store: Store, email: string, otherUserEmail: string, firstMessage: Message,
                             name: string, fmt: DateFormat, logWriteOk: bool)
    requires AsDict(Child(store, SafeEmail(email))).Some?
    requires firstMessage.messageId != SafeEmail(email)
    ensures var after := CreateNewConversation(store, Some(email), otherUserEmail, firstMessage, name, fmt, true, logWriteOk).store;
      var summary := NewSummary(otherUserEmail, firstMessage, name, fmt);
      && GetAllConversation(after, SafeEmail(email)) == Success(OrNone(GetAllConversation(store, SafeEmail(email))) + [summary])
      && summary.id == ConversationPrefix + firstMessage.messageId
      && !summary.latestMessage.isRead
      && summary.latestMessage.text == ExtractText(firstMessage.kind)
    ensures var after := CreateNewConversation(store, Some(email), otherUserEmail, firstMessage, name, fmt, true, logWriteOk).store;
      var summary := NewSummary(otherUserEmail, firstMessage, name, fmt);
      var before := AsDictList(ConversationsNode(store, SafeEmail(email)));
      ConversationsNode(after, SafeEmail(email)).value.items
        == (if before.Some? then ConversationsNode(store, SafeEmail(email)).value.items else []) + [Dict(EncodeConversation(summary))]
    ensures var after := CreateNewConversation(store, Some(email), otherUserEmail, firstMessage, name, fmt, true, logWriteOk).store;
      forall k :: k in store[SafeEmail(email)].fields && k != ConversationsKey ==>
        k in after[SafeEmail(email)].fields && after[SafeEmail(email)].fields[k] == store[SafeEmail(email)].fields[k]
    ensures var after := CreateNewConversation(store, Some(email), otherUserEmail, firstMessage, name, fmt, true, logWriteOk).store;
      after[SafeEmail(email)].fields.Keys == store[SafeEmail(email)].fields.Keys + {ConversationsKey}
  {
    var owner := SafeEmail(email);
    var summary := NewSummary(otherUserEmail, firstMessage, name, fmt);
    var userNode := store[owner].fields;
    CreateStoresOwnerNode(store, email, otherUserEmail, firstMessage, name, fmt, logWriteOk);
    AppendSummaryReadsBack(userNode, summary);
    DecodeAppended(AsDictList(Child(userNode, ConversationsKey)).GetOr([]), summary);
  }

  /** When both writes succeed the first message's log is stored under the
      raw message id, a key different from the summary's
      "conversations_"-prefixed id, and holds that one message. */
  lemma CreateWritesLogUnderMessageId(store: Store, email: string, otherUserEmail: string, firstMessage: Message,
                                      name: string, fmt: DateFormat)
    requires AsDict(Child(store, SafeEmail(email))).Some?
    ensures var r := CreateNewConversation(store, Some(email), otherUserEmail, firstMessage, name, fmt, true, true);
      && r.completion == Some(true)
      && ReadLog(r.store, firstMessage.messageId) == Some([FirstRecord(firstMessage, name, email, fmt)])
      && NewSummary(otherUserEmail, firstMessage, name, fmt).id != firstMessage.messageId
  {
    var r := CreateNewConversation(store, Some(email), otherUserEmail, firstMessage, name, fmt, true, true);
    assert |NewSummary(otherUserEmail, firstMessage, name, fmt).id| > |firstMessage.messageId|;
  }
}
