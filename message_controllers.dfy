/**
 * The message lifecycle of the chat backend (backend/controllers/messageControllers.js):
 * listing the messages of a chat, sending a message, and deleting or editing
 * a message inside the thirty-minute window.
 *
 * The document store is a sequence of messages in insertion order; the chat
 * directory is reduced to what the controller touches, each existing chat's
 * `latestMessage` pointer. The clock and the id the store assigns to a new
 * document are parameters.
 */
module MessageControllers {
  import opened MutabilityPolicy

  type ChatId = string
  type MessageId = string
  type UserId = string

  datatype Option<T> = None | Some(value: T)

  /** A stored message document. */
  datatype Message = Message(
    id: MessageId,
    chat: ChatId,
    sender: UserId,
    content: string,
    contentType: string,
    createdAt: int)

  /** What a controller answers. All failures are HTTP 400. */
  datatype Response =
    | BadRequest                                 // 400 with no body
    | MissingFields                              // 400 {"error": "Provide chatId, messageId and content"}
    | Failed                                     // 400 {"error": ...} from a caught exception
    | TooOld                                     // 400 {"status": "Message older than 30 min"}
    | Sent(message: Message)                     // the created message
    | Deleted(response: Message)                 // {"response": ..., "status": "message deleted"}
    | Updated(prev: Message, newContent: string) // {"prev_response": ..., "new_response_content": ..., "status": "Message updated"}

  /** JavaScript truthiness of a string field of the request body:
      an absent field and the empty string are both falsy. */
  function Present(field: Option<string>): (truthy: bool)
    ensures !truthy <==> field == None || field == Some("")
  {
    field.Some? && field.value != []
  }

  /** No two stored messages share an id (the store's primary key). */
  predicate UniqueIds(msgs: seq<Message>) {
    forall j, k :: 0 <= j < k < |msgs| ==> msgs[j].id != msgs[k].id
  }

  /** Whether `m` is the message the pair (chat, id) designates. */
  predicate Matches(m: Message, chat: ChatId, id: MessageId) {
    m.chat == chat && m.id == id
  }

  /** `Message.find({chat}).findOne({_id})`: the position of the first message
      that matches both the chat and the id, or None when there is none. */
  function FindIndex(msgs: seq<Message>, chat: ChatId, id: MessageId): (r: Option<nat>)
    ensures r.Some? ==> r.value < |msgs| && Matches(msgs[r.value], chat, id)
    ensures r.Some? ==> forall k :: 0 <= k < r.value ==> !Matches(msgs[k], chat, id)
    ensures r.None? <==> forall k :: 0 <= k < |msgs| ==> !Matches(msgs[k], chat, id)
  {
    if msgs == [] then None
    else if Matches(msgs[0], chat, id) then Some(0)
    else match FindIndex(msgs[1..], chat, id)
      case None => None
      case Some(k) => Some(k + 1)
  }

  /** `Message.find({chat})`: the messages of one chat, in store order. */
  function ChatMessages(msgs: seq<Message>, chat: ChatId): (r: seq<Message>)
    ensures forall m :: m in r <==> m in msgs && m.chat == chat
    ensures |r| <= |msgs|
  {
    if msgs == [] then []
    else (if msgs[0].chat == chat then [msgs[0]] else []) + ChatMessages(msgs[1..], chat)
  }

  /** The store after the document at position `i` is removed. */
  function RemoveAt(msgs: seq<Message>, i: nat): (r: seq<Message>)
    requires i < |msgs|
    ensures |r| == |msgs| - 1
    ensures forall k :: 0 <= k < i ==> r[k] == msgs[k]
    ensures forall k :: i <= k < |r| ==> r[k] == msgs[k + 1]
    ensures multiset(r) + multiset{msgs[i]} == multiset(msgs)
  {
    assert msgs == msgs[..i] + [msgs[i]] + msgs[i + 1..];
    msgs[..i] + msgs[i + 1..]
  }

  /** Listing distributes over the concatenation of two stores. */
  lemma {:induction false} ChatMessagesConcat(a: seq<Message>, b: seq<Message>, chat: ChatId)
    ensures ChatMessages(a + b, chat) == ChatMessages(a, chat) + ChatMessages(b, chat)
  {
    if a == [] {
      assert a + b == b;
    } else {
      assert (a + b)[1..] == a[1..] + b;
      ChatMessagesConcat(a[1..], b, chat);
    }
  }

  /** Listing after a send: the new message comes last in its own chat's
      listing, and every other chat's listing is as before. */
  lemma {:induction false} ListAfterSend(msgs: seq<Message>, m: Message, chat: ChatId)
    ensures ChatMessages(msgs + [m], chat)
         == ChatMessages(msgs, chat) + (if m.chat == chat then [m] else [])
  {
    ChatMessagesConcat(msgs, [m], chat);
    assert ChatMessages([m], chat) == (if m.chat == chat then [m] else []) + ChatMessages([], chat);
  }

  /** The listing of a store seen around one position `i`. */
  lemma {:induction false} ListAround(msgs: seq<Message>, i: nat, chat: ChatId)
    requires i < |msgs|
    ensures ChatMessages(msgs, chat)
         == ChatMessages(msgs[..i], chat)
          + (if msgs[i].chat == chat then [msgs[i]] else [])
          + ChatMessages(msgs[i + 1..], chat)
  {
    assert msgs == msgs[..i] + ([msgs[i]] + msgs[i + 1..]);
    ChatMessagesConcat(msgs[..i], [msgs[i]] + msgs[i + 1..], chat);
    assert ([msgs[i]] + msgs[i + 1..])[1..] == msgs[i + 1..];
  }

  /** Listing after a delete: the removed message drops out of its chat's
      listing, the rest of that listing keeps its order, and every other
      chat's listing is unchanged. */
  lemma {:induction false} ListAfterDelete(msgs: seq<Message>, i: nat, chat: ChatId)
    requires i < |msgs|
    ensures ChatMessages(RemoveAt(msgs, i), chat)
         == ChatMessages(msgs[..i], chat) + ChatMessages(msgs[i + 1..], chat)
    ensures msgs[i].chat != chat ==> ChatMessages(RemoveAt(msgs, i), chat) == ChatMessages(msgs, chat)
    ensures msgs[i].chat == chat ==>
      var before := ChatMessages(msgs, chat);
      exists j :: 0 <= j < |before| && before[j] == msgs[i]
        && ChatMessages(RemoveAt(msgs, i), chat) == before[..j] + before[j + 1..]
  {
    ChatMessagesConcat(msgs[..i], msgs[i + 1..], chat);
    ListAround(msgs, i, chat);
    if msgs[i].chat == chat {
      var before := ChatMessages(msgs, chat);
      var j := |ChatMessages(msgs[..i], chat)|;
      assert before[j] == msgs[i];
      assert before[..j] == ChatMessages(msgs[..i], chat);
      assert before[j + 1..] == ChatMessages(msgs[i + 1..], chat);
    }
  }

  /** With unique ids, a deleted message no longer appears in any listing. */
  lemma DeletedNotListed(msgs: seq<Message>, i: nat, chat: ChatId)
    requires UniqueIds(msgs)
    requires i < |msgs|
    ensures msgs[i] !in ChatMessages(RemoveAt(msgs, i), chat)
  {
  }

  /** Listing after an edit of position `i` that keeps the message's chat:
      the edited message takes the old one's place in its chat's listing,
      and every other chat's listing is unchanged. */
  lemma {:induction false} ListAfterEdit(msgs: seq<Message>, i: nat, m: Message, chat: ChatId)
    requires i < |msgs|
    requires m.chat == msgs[i].chat
    ensures ChatMessages(msgs[i := m], chat)
         == ChatMessages(msgs[..i], chat)
          + (if m.chat == chat then [m] else [])
          + ChatMessages(msgs[i + 1..], chat)
    ensures msgs[i].chat != chat ==> ChatMessages(msgs[i := m], chat) == ChatMessages(msgs, chat)
  {
    var e := msgs[i := m];
    assert e[..i] == msgs[..i];
    assert e[i + 1..] == msgs[i + 1..];
    ListAround(e, i, chat);
    ListAround(msgs, i, chat);
  }

  /** With unique ids, the pair lookup finds a stored message exactly by its
      own chat and id. */
  lemma FindsStored(msgs: seq<Message>, i: nat)
    requires UniqueIds(msgs)
    requires i < |msgs|
    ensures FindIndex(msgs, msgs[i].chat, msgs[i].id) == Some(i)
  {
  }

  /** Cross-chat isolation: with unique ids, the id of a stored message is
      not found under any other chat. */
  lemma OtherChatNotFound(msgs: seq<Message>, i: nat, chat: ChatId)
    requires UniqueIds(msgs)
    requires i < |msgs|
    requires msgs[i].chat != chat
    ensures FindIndex(msgs, chat, msgs[i].id) == None
  {
  }

  /** The store and the chat directory the four controllers act on. */
  class MessageStore {
    /** The message collection, in insertion order. */
    var messages: seq<Message>
    /** Every existing chat and its `latestMessage` pointer. */
    var latest: map<ChatId, Option<MessageId>>

    ghost predicate Valid()
      reads this
    {
      UniqueIds(messages)
    }

    /** An empty store over the given chats, none with a latest message. */
    constructor (chats: set<ChatId>)
      ensures Valid()
      ensures messages == []
      ensures latest == map c | c in chats :: None
    {
      messages := [];
      latest := map c | c in chats :: None;
    }

    /** `allMessages`: the messages whose chat is `chatId`, read-only. */
    method AllMessages(chatId: ChatId) returns (r: seq<Message>)
      ensures forall m :: m in r <==> m in messages && m.chat == chatId
      ensures r == ChatMessages(messages, chatId)
    {
      r := ChatMessages(messages, chatId);
    }

    /** `sendMessage`: validate the three fields, create the message with the
        caller as sender, then point the chat's `latestMessage` at it.
        `newId` is the id the store assigns; `now` is the creation time. */
    method SendMessage(caller: UserId, content: Option<string>, chatId: Option<ChatId>,
                       contentType: Option<string>, newId: MessageId, now: int)
      returns (resp: Response)
      requires Valid()
      modifies this
      ensures Valid()
      ensures !(Present(content) && Present(chatId) && Present(contentType)) ==>
        resp == BadRequest && unchanged(this)
      ensures Present(content) && Present(chatId) && Present(contentType) &&
              (exists k :: 0 <= k < |old(messages)| && old(messages)[k].id == newId) ==>
        resp == Failed && unchanged(this)
      ensures Present(content) && Present(chatId) && Present(contentType) &&
              (forall k :: 0 <= k < |old(messages)| ==> old(messages)[k].id != newId) ==>
        var m := Message(newId, chatId.value, caller, content.value, contentType.value, now);
        && resp == Sent(m)
        && messages == old(messages) + [m]
        && latest == (if chatId.value in old(latest) then old(latest)[chatId.value := Some(newId)]
                      else old(latest))
    {
      if !Present(content) || !Present(chatId) || !Present(contentType) {
        return BadRequest;
      }
      if exists k :: 0 <= k < |messages| && messages[k].id == newId {
        // Message.create rejects a duplicate key; the catch answers 400.
        return Failed;
      }
      var m := Message(newId, chatId.value, caller, content.value, contentType.value, now);
      messages := messages + [m];
      if chatId.value in latest {
        latest := latest[chatId.value := Some(newId)];
      }
      resp := Sent(m);
    }

    /** `deleteMessage`: look the message up by (chat, id) and remove it if it
        is inside the window. The chat's `latestMessage` is never touched,
        so it may afterwards name the deleted message. */
    method DeleteMessage(chatId: Option<ChatId>, messageId: Option<MessageId>, now: int)
      returns (resp: Response)
      requires Valid()
      modifies this
      ensures Valid()
      ensures latest == old(latest)
      ensures !(Present(chatId) && Present(messageId)) ==>
        resp == BadRequest && messages == old(messages)
      ensures Present(chatId) && Present(messageId) ==>
        match FindIndex(old(messages), chatId.value, messageId.value)
        case None => resp == Failed && messages == old(messages)
        case Some(i) =>
          if Mutable(old(messages)[i].createdAt, now)
          then resp == Deleted(old(messages)[i]) && messages == RemoveAt(old(messages), i)
          else resp == TooOld && messages == old(messages)
      ensures resp.Deleted? ==>
        && resp.response in old(messages)
        && Matches(resp.response, chatId.value, messageId.value)
        && Mutable(resp.response.createdAt, now)
        && |messages| == |old(messages)| - 1
        && multiset(messages) + multiset{resp.response} == multiset(old(messages))
    {
      if !Present(chatId) || !Present(messageId) {
        return BadRequest;
      }
      var found := FindIndex(messages, chatId.value, messageId.value);
      match found {
        case None =>
          // Reading createdAt of a missing document throws; the catch answers 400.
          resp := Failed;
        case Some(i) =>
          var message := messages[i];
          if Mutable(message.createdAt, now) {
            messages := RemoveAt(messages, i);
            resp := Deleted(message);
          } else {
            resp := TooOld;
          }
      }
    }

    /** `updateMessage`: look the message up by (chat, id) and, inside the
        window, replace its content and nothing else. Answers with the
        previous document and the new content. */
    method UpdateMessage(chatId: Option<ChatId>, messageId: Option<MessageId>,
                         content: Option<string>, now: int)
      returns (resp: Response)
      requires Valid()
      modifies this
      ensures Valid()
      ensures latest == old(latest)
      ensures !(Present(chatId) && Present(messageId) && Present(content)) ==>
        resp == MissingFields && messages == old(messages)
      ensures Present(chatId) && Present(messageId) && Present(content) ==>
        match FindIndex(old(messages), chatId.value, messageId.value)
        case None => resp == Failed && messages == old(messages)
        case Some(i) =>
          if Mutable(old(messages)[i].createdAt, now)
          then resp == Updated(old(messages)[i], content.value)
            && messages == old(messages)[i := old(messages)[i].(content := content.value)]
          else resp == TooOld && messages == old(messages)
      ensures resp.Updated? ==>
        && resp.prev in old(messages)
        && Matches(resp.prev, chatId.value, messageId.value)
        && Mutable(resp.prev.createdAt, now)
        && resp.newContent == content.value
        && |messages| == |old(messages)|
    {
      if !Present(chatId) || !Present(messageId) || !Present(content) {
        return MissingFields;
      }
      var found := FindIndex(messages, chatId.value, messageId.value);
      match found {
        case None =>
          // Reading createdAt of a missing document throws; the catch answers 400.
          resp := Failed;
        case Some(i) =>
          var message := messages[i];
          if Mutable(message.createdAt, now) {
            messages := messages[i := message.(content := content.value)];
            resp := Updated(message, content.value);
          } else {
            resp := TooOld;
          }
      }
    }
  }
}
