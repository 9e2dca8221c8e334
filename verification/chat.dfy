/** ChatViewController: how a message id is made and what pressing "send"
    does. The session e-mail (kept by the app in user defaults) is a
    parameter, and so is each reading of the clock. */
module Chat {
  import opened Wrappers
  import opened Identity
  import opened Tree
  import opened MessageKinds
  import opened Database
  import opened Strings

  /** The display name the screen gives its own sender. */
  const SelfDisplayName: string := "Arslan Raza"

  /** The conversation name used when the screen has no title. */
  const DefaultName: string := "Default name"

  /** The screen's configuration: the peer, whether the conversation is new
      and the title shown (used as the conversation's name). */
  datatype ChatScreen = ChatScreen(otherUserEmail: string, isNewConversation: bool, title: Option<string>)

  /** `selfSender`: present exactly when a session e-mail is. */
  function SelfSender(session: Option<string>): (r: Option<Sender>)
    ensures r.Some? <==> session.Some?
    ensures r.Some? ==> r.value.senderId == session.value && r.value.photoUrl == ""
  {
    match session
    case None => None
    case Some(email) => Some(Sender("", email, SelfDisplayName))
  }

  /** `createMessageId`: the peer's address as given, the session's safe
      e-mail and the formatted clock reading, joined by underscores. */
  function CreateMessageId(otherUserEmail: string, session: Option<string>, now: Timestamp, fmt: DateFormat): (id: Option<string>)
    ensures id.None? <==> session.None?
    ensures id.Some? ==> |id.value| == |otherUserEmail| + 1 + |session.value| + 1 + |fmt(now)|
    ensures id.Some? ==> id.value[..|otherUserEmail|] == otherUserEmail && id.value[|otherUserEmail|] == '_'
    ensures id.Some? ==> IsSafe(id.value[|otherUserEmail| + 1..|otherUserEmail| + 1 + |session.value|])
    ensures id.Some? ==> forall i :: 0 <= i < |session.value| ==>
      id.value[|otherUserEmail| + 1 + i] == Escape(session.value[i])
    ensures id.Some? ==> id.value[|id.value| - |fmt(now)| - 1..] == "_" + fmt(now)
  {
    match session
    case None => None
    case Some(currentUserEmail) =>
      var saveCurrentEmail := SafeEmail(currentUserEmail);
      var dateString := fmt(now);
      var id := otherUserEmail + "_" + saveCurrentEmail + "_" + dateString;
      assert id[|otherUserEmail| + 1..|otherUserEmail| + 1 + |currentUserEmail|] == saveCurrentEmail;
      Some(id)
  }

  /** Ids are not unique: for a fixed peer and session, two clock readings
      give the same id exactly when they format to the same string, so two
      messages sent within the formatter's resolution collide. */
  lemma {:induction false} MessageIdCollision(otherUserEmail: string, email: string, t1: Timestamp, t2: Timestamp, fmt: DateFormat)
    ensures CreateMessageId(otherUserEmail, Some(email), t1, fmt) == CreateMessageId(otherUserEmail, Some(email), t2, fmt)
        <==> fmt(t1) == fmt(t2)
  {
    var prefix := otherUserEmail + "_" + SafeEmail(email) + "_";
    var a, b := prefix + fmt(t1), prefix + fmt(t2);
    if a == b {
      assert fmt(t1) == a[|prefix|..];
      assert fmt(t2) == b[|prefix|..];
    }
  }

  /** Sessions whose addresses normalise to the same key make the same ids. */
  lemma MessageIdSharesSafeKey(otherUserEmail: string, e1: string, e2: string, now: Timestamp, fmt: DateFormat)
    requires SafeEmail(e1) == SafeEmail(e2)
    ensures CreateMessageId(otherUserEmail, Some(e1), now, fmt) == CreateMessageId(otherUserEmail, Some(e2), now, fmt)
  {
  }

  /** The peer's address goes into the id as given, unlike the sender's:
      for a fixed session and clock reading, two peers get the same id
      exactly when their addresses are equal, even when they share a safe
      key (as `a.b` and `a-b` do). */
  lemma {:induction false} PeerAddressNotNormalised(p1: string, p2: string, email: string, now: Timestamp, fmt: DateFormat)
    ensures CreateMessageId(p1, Some(email), now, fmt) == CreateMessageId(p2, Some(email), now, fmt) <==> p1 == p2
  {
    var a := CreateMessageId(p1, Some(email), now, fmt);
    var b := CreateMessageId(p2, Some(email), now, fmt);
    if a == b {
      assert |p1| == |p2|;
      assert p1 == a.value[..|p1|] == b.value[..|p2|] == p2;
    }
  }

  /** What pressing "send" leads to. */
  datatype SendOutcome =
    | Refused                   // the guard returned early
    | ExistingConversation      // the branch for an existing conversation does nothing
    | NewConversation(message: Message, name: string, result: CreateResult)

  /** `inputBar(_:didPressSendButtonWith:)`: refuse blank text or a missing
      session; in a new conversation build a text message (id from the first
      clock reading, date from the second) and create the conversation. */
  function SendPressed(screen: ChatScreen, text: string, session: Option<string>,
                       idClock: Timestamp, sendClock: Timestamp, fmt: DateFormat,
                       store: Store, ownerWriteOk: bool, logWriteOk: bool): (r: SendOutcome)
    ensures r.Refused? <==> IsBlank(text) || session.None?
    ensures r.ExistingConversation? <==> !IsBlank(text) && session.Some? && !screen.isNewConversation
    ensures r.NewConversation? ==>
      && r.message.kind == Text(text)
      && Some(r.message.messageId) == CreateMessageId(screen.otherUserEmail, session, idClock, fmt)
      && r.message.sentDate == sendClock
      && r.message.sender.senderId == session.value
      && r.name == screen.title.GetOr(DefaultName)
      && r.result == CreateNewConversation(store, session, screen.otherUserEmail, r.message, r.name, fmt, ownerWriteOk, logWriteOk)
  {
    var sender := SelfSender(session);
    var messageId := CreateMessageId(screen.otherUserEmail, session, idClock, fmt);
    if IsBlank(text) || sender.None? || messageId.None? then Refused
    else if screen.isNewConversation then
      var message := Message(sender.value, messageId.value, sendClock, Text(text));
      var name := screen.title.GetOr(DefaultName);
      NewConversation(message, name, CreateNewConversation(store, session, screen.otherUserEmail, message, name, fmt, ownerWriteOk, logWriteOk))
    else ExistingConversation
  }

  /** Sending the first message of a new conversation, with the owner's node
      present and both writes accepted, completes successfully; the owner's
      conversations then end with a summary of that text whose id is
      "conversations_" + the message id, and the log under the message id
      holds the one text record. */
  lemma SendStartsConversation(screen: ChatScreen, text: string, email: string,
                               idClock: Timestamp, sendClock: Timestamp, fmt: DateFormat, store: Store)
    requires screen.isNewConversation && !IsBlank(text)
    requires AsDict(Child(store, SafeEmail(email))).Some?
    ensures var r := SendPressed(screen, text, Some(email), idClock, sendClock, fmt, store, true, true);
      && r.NewConversation?
      && r.result.completion == Some(true)
      && GetAllConversation(r.result.store, SafeEmail(email)).Success?
      && var cs := GetAllConversation(r.result.store, SafeEmail(email)).value;
      && |cs| > 0
      && cs[|cs| - 1].id == ConversationPrefix + r.message.messageId
      && cs[|cs| - 1].latestMessage == LatestMessage(fmt(sendClock), text, false)
      && ReadLog(r.result.store, r.message.messageId)
         == Some([MessageRecord(r.message.messageId, "text", text, fmt(sendClock), email, false, r.name)])
  {
    var r := SendPressed(screen, text, Some(email), idClock, sendClock, fmt, store, true, true);
    var m := r.message;
    assert |m.messageId| > |SafeEmail(email)|;
    CreateAppendsSummary(store, email, screen.otherUserEmail, m, r.name, fmt, true);
    CreateWritesLogUnderMessageId(store, email, screen.otherUserEmail, m, r.name, fmt);
  }
}
