# Message lifecycle of the MERN chat backend, in Dafny

This project models the message controllers of the chat application's backend
(`backend/controllers/messageControllers.js`). It covers four operations:

- listing the messages of a chat (`allMessages`);
- sending a message (`sendMessage`), which also moves the chat's `latestMessage` pointer;
- deleting a message (`deleteMessage`) within thirty minutes of its creation;
- editing a message's content (`updateMessage`) within the same window.

The model has two modules:

- `MutabilityPolicy` (`mutability_policy.dfy`) holds the thirty-minute window. A message created at
  `createdAt` may be changed at `now` exactly when `now - createdAt <= 1800 * 1000`.
  Timestamps are integer milliseconds, the unit of JavaScript `Date` values. The window is inclusive.
- `MessageControllers` (`message_controllers.dfy`) holds the rest:
  - the `Message` document;
  - the controllers' responses (`Response`);
  - the pure lookups the controllers use. `FindIndex` is the pair lookup `find({chat}).findOne({_id})`, and `ChatMessages` is `find({chat})`;
  - the class `MessageStore`. Its `messages` field is the document collection in insertion order. Its `latest` field maps every existing chat to its `latestMessage` pointer. Its methods are the four controllers.

Request-body fields are `Option<string>`, narrowed to string values. Such a field
is truthy in JavaScript when it is there and is not the empty string. Two inputs of
the original are passed in as parameters:

- the clock (`now`);
- the id the document store assigns to a new message (`newId`).

The model follows the code's behaviour, in particular:

- listing does not check chat membership, and an unknown chat gives an empty list;
- sending to a chat that does not exist still stores the message. `Chat.findByIdAndUpdate` on a missing chat changes nothing;
- an expired window is an HTTP 400 answer with status "Message older than 30 min". It is still its own response (`TooOld`), distinct from the validation and lookup failures;
- deletion never repairs the chat's `latestMessage`.

## Model

| member | source | states |
|---|---|---|
| `MutabilityPolicy.Mutable` | backend/controllers/messageControllers.js:78 | a message may be deleted or edited exactly when no more than 30 minutes (1 800 000 ms) have passed since its creation, the limit included; the same test is used at :106 |
| `MutabilityPolicy.WindowBoundary` | backend/controllers/messageControllers.js:75-78 | the window is inclusive: exactly 1800 s after creation is allowed, 1800 s plus 1 ms is not; 29:59 is allowed, 31:00 is not |
| `MutabilityPolicy.ExpiryIsPermanent` | backend/controllers/messageControllers.js:106 | once a message is outside the window it stays outside for every later time |
| `MessageControllers.Present` | backend/controllers/messageControllers.js:31 | a string body field fails the validation exactly when it is absent or the empty string; the same test is used at :68 and :97 |
| `MessageControllers.FindIndex` | backend/controllers/messageControllers.js:74 | the pair lookup returns a position whose message matches both chat and id, no earlier message matches, and it returns None exactly when no stored message matches both |
| `MessageControllers.FindsStored` | backend/controllers/messageControllers.js:102 | with unique ids, looking up a stored message by its own chat and id finds exactly that message |
| `MessageControllers.OtherChatNotFound` | backend/controllers/messageControllers.js:102-103 | cross-chat isolation: the id of a stored message is not found under any other chat |
| `MessageControllers.ChatMessages` | backend/controllers/messageControllers.js:12 | a message is in the listing of chat C exactly when it is stored and its chat is C |
| `MessageControllers.RemoveAt` | backend/controllers/messageControllers.js:79 | removal drops exactly the one target document: the others keep their order, and the multiset of documents loses exactly that one |
| `MessageControllers.ListAfterSend` | backend/controllers/messageControllers.js:44 | after a message is stored, it comes last in its own chat's listing, and every other chat's listing is unchanged |
| `MessageControllers.ListAfterDelete` | backend/controllers/messageControllers.js:79-80 | after a deletion, the target's chat lists the old listing with exactly the target's entry cut out, the rest in the same order, and every other chat's listing is unchanged |
| `MessageControllers.DeletedNotListed` | backend/controllers/messageControllers.js:79 | with unique ids, a deleted message appears in no chat's listing afterwards |
| `MessageControllers.ListAfterEdit` | backend/controllers/messageControllers.js:107 | after an edit, the edited message takes the old one's place in its chat's listing, and every other chat's listing is unchanged |
| `MessageControllers.MessageStore.AllMessages` | backend/controllers/messageControllers.js:10-20 | returns exactly the stored messages whose chat is the requested one, in store order, and changes nothing |
| `MessageControllers.MessageStore.SendMessage` | backend/controllers/messageControllers.js:28-60 | if content, chatId or content_type is falsy: 400 and nothing changes. If the id is already used: the create fails and nothing changes. Otherwise exactly one message is appended, with the caller as sender, the request's content, chat and content type, and the current time. If the chat exists, its `latestMessage` becomes the new id, and no other pointer changes. Ids stay unique |
| `MessageControllers.MessageStore.DeleteMessage` | backend/controllers/messageControllers.js:65-89 | if chatId or messageId is falsy: 400. If no message matches the pair: error. Outside the window: "older than 30 min". In all three cases nothing changes. Inside the window, exactly the target is removed and returned. No `latestMessage` pointer ever changes |
| `MessageControllers.MessageStore.UpdateMessage` | backend/controllers/messageControllers.js:94-130 | if a field is falsy: 400 with an error body. If no message matches the pair: error. Outside the window: "older than 30 min". In all three cases nothing changes. Inside the window, only the target's content is replaced: its id, chat, sender, content type and creation time and all other messages stay as they were. The answer carries the previous document and the new content |

## Left out

- Population of sender, chat and chat users (`populate`, `execPopulate`, `User.populate`) is a read-side join. It does not change the store, so responses carry the bare message.
- `findByIdAndDelete` and `findByIdAndUpdate` are called with an object where an id is expected. The model applies deletion and update to the message the pair lookup found.
- The division of both timestamps by 1000 in floating point is not modelled. The model compares integer milliseconds with 1 800 000, and floating-point rounding at the boundary is out of scope.
- `updatedAt` is not modelled, because backend/models/messageModel.js is not part of this model.
- Error-path plumbing is not modelled. This covers the re-throw of `error.Message` after the response is sent, the undefined `error` in the update callback, and `console.log`. Every caught failure is the single response `Failed`, with no state change.
- Failures of the store itself are not modelled, except the duplicate-id rejection of a create. This includes id cast errors and a failing `latestMessage` update after the message was stored (a partial failure).
- Authentication and chat membership are not modelled. The `protect` middleware and backend/routes/messageRoutes.js are not part of this model. The route file's `replyMessage` does not exist in the controllers.
- Request-body values are narrowed to strings. A JSON `0` or `false`, which the code also rejects, and a number such as `5`, which it would store as `"5"`, are not modelled. Ids are compared as canonical strings, without Mongoose's casting to ObjectId, so two spellings of one ObjectId (for example upper-case hex) are different ids in the model.
- Concurrency between requests, HTTP status codes and JSON encoding are not modelled.
- The database does not promise an order for the listing query. The model lists messages in insertion order.
