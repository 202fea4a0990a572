/** The chat page of one conversation: loading the conversation and its messages,
    appending the rows the realtime feed announces, the guarded send, and the rules for
    "the other participant" and "my own message". */
module Chat {
  import opened Market
  import opened Text

  /** The conversations whose id is `id`, in table order. */
  function ConversationsWithId(convs: seq<Conversation>, id: string): (r: seq<Conversation>)
    ensures forall c :: c in r <==> c in convs && c.id == id
  {
    if convs == [] then []
    else
      assert convs == [convs[0]] + convs[1..];
      var rest := ConversationsWithId(convs[1..], id);
      if convs[0].id == id then [convs[0]] + rest else rest
  }

  /** `.eq("id", id).single()` on conversations: the row when exactly one has the id. */
  function ConversationById(convs: seq<Conversation>, id: string): (r: Option<Conversation>)
    ensures r.Some? ==> r.value in convs && r.value.id == id
    ensures r.Some? <==> |ConversationsWithId(convs, id)| == 1
  {
    var rows := ConversationsWithId(convs, id);
    if |rows| == 1 then Some(rows[0]) else None
  }

  /** The messages whose id is `id`, in table order. */
  function MessagesWithId(msgs: seq<Message>, id: string): (r: seq<Message>)
    ensures forall m :: m in r <==> m in msgs && m.id == id
    ensures |r| <= |msgs|
  {
    if msgs == [] then []
    else
      assert msgs == [msgs[0]] + msgs[1..];
      var rest := MessagesWithId(msgs[1..], id);
      if msgs[0].id == id then [msgs[0]] + rest else rest
  }

  /** `.eq("id", id).single()` on messages, as the realtime callback re-reads a new row. */
  function MessageById(msgs: seq<Message>, id: string): (r: Option<Message>)
    ensures r.Some? ==> r.value in msgs && r.value.id == id
    ensures r.Some? <==> |MessagesWithId(msgs, id)| == 1
  {
    var rows := MessagesWithId(msgs, id);
    if |rows| == 1 then Some(rows[0]) else None
  }

  /** A row appended under an id no other row carries is the one the re-read finds. */
  lemma {:induction false} MessageByIdOfAppended(msgs: seq<Message>, m: Message)
    requires forall k :: 0 <= k < |msgs| ==> msgs[k].id != m.id
    ensures MessageById(msgs + [m], m.id) == Some(m)
  {
    NoRowsWithId(msgs, m.id);
    MessagesWithIdAppend(msgs, m, m.id);
  }

  lemma {:induction false} NoRowsWithId(msgs: seq<Message>, id: string)
    requires forall k :: 0 <= k < |msgs| ==> msgs[k].id != id
    ensures MessagesWithId(msgs, id) == []
  {
    if msgs != [] {
      NoRowsWithId(msgs[1..], id);
    }
  }

  lemma {:induction false} MessagesWithIdAppend(msgs: seq<Message>, m: Message, id: string)
    ensures MessagesWithId(msgs + [m], id) == MessagesWithId(msgs, id) + (if m.id == id then [m] else [])
  {
    if msgs == [] {
      assert msgs + [m] == [m];
    } else {
      assert (msgs + [m])[1..] == msgs[1..] + [m];
      MessagesWithIdAppend(msgs[1..], m, id);
    }
  }

  /** `.eq("conversation_id", id)` on messages, oldest first. */
  function MessagesOf(msgs: seq<Message>, conversationId: string): (r: seq<Message>)
    ensures forall m :: m in r <==> m in msgs && m.conversationId == conversationId
    ensures |r| <= |msgs|
  {
    if msgs == [] then []
    else
      assert msgs == [msgs[0]] + msgs[1..];
      var rest := MessagesOf(msgs[1..], conversationId);
      if msgs[0].conversationId == conversationId then [msgs[0]] + rest else rest
  }

  /** The row the send handler inserts. */
  datatype Draft = Draft(conversationId: string, senderId: UserId, content: string)

  /** The send guard and the row it lets through: nothing for blank input or without a
      user; otherwise the trimmed text, sent by the user into this conversation. */
  function SendDraft(conversationId: string, input: string, user: Option<UserId>): (r: Option<Draft>)
    ensures r.None? <==> AllSpace(input) || user.None?
    ensures r.Some? ==> r.value.conversationId == conversationId && Some(r.value.senderId) == user
    ensures r.Some? ==>
      (r.value.content != "" && !IsSpace(r.value.content[0]) && !IsSpace(r.value.content[|r.value.content| - 1]))
  {
    var text := Trim(input);
    if text == "" || user.None? then None else Some(Draft(conversationId, user.value, text))
  }

  /** What is sent is a piece of what was typed, and trimming it again changes nothing. */
  lemma SentContentIsTypedText(conversationId: string, input: string, user: Option<UserId>)
    requires SendDraft(conversationId, input, user).Some?
    ensures var content := SendDraft(conversationId, input, user).value.content;
      (exists k :: TrimmedAt(input, content, k)) && Trim(content) == content
  {
    TrimIdempotent(input);
  }

  /** `otherUser`: none before the conversation is loaded; the seller when the signed-in
      user is the buyer; the buyer otherwise, including when nobody is signed in. */
  function OtherParticipant(conv: Option<Conversation>, me: Option<UserId>): (r: Option<UserId>)
    ensures r.Some? <==> conv.Some?
    ensures conv.Some? && me == Some(conv.value.buyerId) ==> r == Some(conv.value.sellerId)
    ensures conv.Some? && me != Some(conv.value.buyerId) ==> r == Some(conv.value.buyerId)
  {
    match conv
    case None => None
    case Some(c) => if me == Some(c.buyerId) then Some(c.sellerId) else Some(c.buyerId)
  }

  /** For a participant of a conversation between two different users, the other
      participant is the other one of the pair, and its other participant is the user. */
  lemma OtherParticipantIsTheOtherOne(c: Conversation, me: UserId)
    requires me == c.buyerId || me == c.sellerId
    requires c.buyerId != c.sellerId
    ensures var other := OtherParticipant(Some(c), Some(me)).value;
      other != me && (other == c.buyerId || other == c.sellerId)
      && OtherParticipant(Some(c), Some(other)) == Some(me)
  {
  }

  /** `isOwn`: the message was sent by the signed-in user; nothing is own when nobody is. */
  predicate IsOwn(m: Message, me: Option<UserId>) {
    me == Some(m.senderId)
  }

  /** In a conversation between two different users, each message from one of them is
      shown as own on exactly one side. */
  lemma OwnOnExactlyOneSide(c: Conversation, m: Message)
    requires c.buyerId != c.sellerId
    requires m.senderId == c.buyerId || m.senderId == c.sellerId
    ensures IsOwn(m, Some(c.buyerId)) != IsOwn(m, Some(c.sellerId))
    ensures !IsOwn(m, None)
  {
  }

  /** The page's state. */
  class ChatPage {
    const conversationId: string
    var conversation: Option<Conversation>
    var messages: seq<Message>
    var newMessage: string
    var currentUser: Option<UserId>

    constructor (conversationId: string)
      ensures this.conversationId == conversationId
      ensures conversation.None? && messages == [] && newMessage == "" && currentUser.None?
    {
      this.conversationId := conversationId;
      conversation := None;
      messages := [];
      newMessage := "";
      currentUser := None;
    }

    /** The session read on mount. */
    method LoadSession(session: Option<UserId>)
      modifies this`currentUser
      ensures currentUser == session
    {
      currentUser := session;
    }

    /** Loads the conversation; when it is missing or the fetch errs (`failed`) an error
        toast and a redirect to the dashboard, with the conversation left unset. */
    method FetchConversation(db: Backend, failed: bool) returns (nav: Nav, notice: Notice)
      modifies this`conversation
      ensures failed || ConversationById(db.conversations, conversationId).None? ==>
        (nav == GoTo(Dashboard) && notice == ErrorToast && conversation == old(conversation))
      ensures !failed && ConversationById(db.conversations, conversationId).Some? ==>
        (nav == Stay && notice == Silent && conversation == ConversationById(db.conversations, conversationId))
    {
      var found := if failed then None else ConversationById(db.conversations, conversationId);
      if found.None? {
        nav, notice := GoTo(Dashboard), ErrorToast;
        return;
      }
      conversation := found;
      nav, notice := Stay, Silent;
    }

    /** Loads the messages of this conversation, oldest first; no data reads as none. */
    method FetchMessages(db: Backend, failed: bool)
      modifies this`messages
      ensures messages == if failed then [] else MessagesOf(db.messages, conversationId)
      ensures forall m :: m in messages ==> m.conversationId == conversationId
    {
      var data: Option<seq<Message>> := if failed then None else Some(MessagesOf(db.messages, conversationId));
      messages := data.GetOr([]);
    }

    /** The realtime callback for an inserted row: re-reads the row by id and appends it
        at the end; when the re-read yields nothing, or fails (`failed`), the list stays as
        it is. */
    method OnIncoming(db: Backend, id: string, failed: bool)
      modifies this`messages
      ensures !failed && MessageById(db.messages, id).Some? ==>
        messages == old(messages) + [MessageById(db.messages, id).value]
      ensures failed || MessageById(db.messages, id).None? ==> messages == old(messages)
      ensures old(messages) <= messages && |messages| <= |old(messages)| + 1
    {
      var newMsg := if failed then None else MessageById(db.messages, id);
      if newMsg.Some? {
        messages := messages + [newMsg.value];
      }
    }

    /** Typing into the message box. */
    method SetNewMessage(text: string)
      modifies this`newMessage
      ensures newMessage == text
    {
      newMessage := text;
    }

    /** `handleSendMessage`: the guard, then the insert of the trimmed text. The input is
        cleared only when the insert succeeds; the local list never changes here. */
    method HandleSendMessage(db: Backend, newId: string, failed: bool) returns (notice: Notice)
      modifies this`newMessage, db`messages
      ensures messages == old(messages)
      ensures var draft := SendDraft(conversationId, old(newMessage), currentUser);
        && (draft.None? ==>
              (db.messages == old(db.messages) && newMessage == old(newMessage) && notice == Silent))
        && (draft.Some? && failed ==>
              (db.messages == old(db.messages) && newMessage == old(newMessage) && notice == ErrorToast))
        && (draft.Some? && !failed ==>
              (db.messages == old(db.messages) + [Message(newId, conversationId, draft.value.senderId, draft.value.content)]
               && newMessage == "" && notice == Silent))
    {
      var draft := SendDraft(conversationId, newMessage, currentUser);
      if draft.None? {
        notice := Silent;
        return;
      }
      if failed {
        notice := ErrorToast;
        return;
      }
      db.messages := db.messages + [Message(newId, draft.value.conversationId, draft.value.senderId, draft.value.content)];
      newMessage := "";
      notice := Silent;
    }
  }

  /** A successful send followed by the realtime notice of the new row, whose re-read
      succeeds: the message shows up once, at the end, as the user's own, holding the
      trimmed text. */
  method SendThenReceive(page: ChatPage, db: Backend, newId: string)
    requires SendDraft(page.conversationId, page.newMessage, page.currentUser).Some?
    requires forall k :: 0 <= k < |db.messages| ==> db.messages[k].id != newId
    modifies page`newMessage, page`messages, db`messages
    ensures page.newMessage == ""
    ensures |page.messages| == |old(page.messages)| + 1 && old(page.messages) <= page.messages
    ensures var last := page.messages[|page.messages| - 1];
      && last.id == newId && last.conversationId == page.conversationId
      && last.content == Trim(old(page.newMessage)) && IsOwn(last, page.currentUser)
  {
    var draft := SendDraft(page.conversationId, page.newMessage, page.currentUser);
    var sent := Message(newId, page.conversationId, draft.value.senderId, draft.value.content);
    ghost var before := db.messages;
    var notice := page.HandleSendMessage(db, newId, false);
    assert db.messages == before + [sent];
    MessageByIdOfAppended(before, sent);
    page.OnIncoming(db, newId, false);
  }
}
