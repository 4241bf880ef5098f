# coffee-chat: the chat proxy, the chat send step and the comment board

A model of the request and state logic of the coffee-shop site `coffee-chat`.
Three pieces are modelled:

- **The chat proxy** (`/api/chat`, module `ChatProxy`). It receives a conversation,
  puts a fixed persona turn in front of it, asks the completion provider once,
  and answers with one of four responses:
  - 200 with the reply;
  - 400 "Messages array is required" (Bad Request, section 15.5.1 of RFC 9110);
  - 500 "No response generated" (Internal Server Error, section 15.6.1 of RFC 9110);
  - 500 "Failed to process request".

  It is a pure function of the request body and the provider's outcome. The
  provider calls it makes are part of its result, so "no call unless
  `messages` is an array, and exactly one call when it is" is stated about data.
- **The chat screen** (module `ChatPage`, class `Page`). It holds the displayed
  messages, the input box and the two busy flags. Its send step:
  - appends the user's message;
  - persists it;
  - posts the role-mapped history to the proxy;
  - appends the reply, or a fixed apology when the request fails;
  - lowers the flags.

  A store snapshot replaces the displayed list. Store writes and proxy
  requests are recorded, in order, in a ghost event log.
- **The comment board** (module `Comments`, class `Section`). It covers:
  - the record a submission writes, with its author-name fallback chain;
  - the like toggle, with the store's `arrayUnion`/`arrayRemove` semantics;
  - the "Just now" label for a missing timestamp.

  The document store is a map from document id to comment.

Two helper modules: `Wrappers` (an `Option` for JavaScript's absent values)
and `Text`. `Text` holds JavaScript's `trim`, over the ECMAScript whitespace and
line-terminator characters, and `split('@')[0]`.

The completion provider, `fetch`, the document store and the identity
provider are collaborators. Each of their outcomes is a parameter:
- `ChatProxy.ProviderOutcome` for the provider;
- `ChatPage.FetchOutcome` for `fetch` and `response.json()`;
- a boolean per store write;
- `Comments.AddOutcome` for `addDoc`.

A body that is not JSON makes `request.json()` throw inside the `try`
(coffee-chat/src/app/api/chat/route.ts:35-36). It is therefore answered 500
"Failed to process request", not 400 (`ChatProxy.Handle` on `Unparsable`).
The same holds for a body of JSON `null`: `request.json()` yields `null`, so
reading `messages` from it throws, and the answer is again that 500.

## Model

| member | source | states |
|---|---|---|
| `Text.Trim` | coffee-chat/src/app/chat/page.tsx:90-92 | `trim()` gives an infix of the input that neither starts nor ends with whitespace. It is empty exactly when the input is blank, which is when the guard `!input.trim()` fires. |
| `Text.BeforeFirst` | coffee-chat/src/components/CommentsSection.tsx:64 | `split('@')[0]` is a prefix of the email that contains no `@`. It is followed by `@` when shorter than the email, and it is the whole email when there is no `@`. |
| `ChatProxy.Outbound` | coffee-chat/src/app/api/chat/route.ts:47-53 | The outbound list is the persona turn followed by the caller's turns verbatim and in order. Its length is the caller's count + 1. |
| `Wrappers.Truthy` | coffee-chat/src/app/api/chat/route.ts:60 | The truthiness tests on optional strings (`!aiMessage` here, and each step of the author-name fallback chain) pass exactly when the value is neither absent nor the empty string. |
| `ChatProxy.UncheckedElementsForwarded` | coffee-chat/src/app/api/chat/route.ts:38-53 | An array of arbitrary JSON values passes validation and is forwarded unchanged after the persona turn. |
| `ChatProxy.FirstContent` | coffee-chat/src/app/api/chat/route.ts:58 | The content of the first candidate, or nothing when there are no candidates. |
| `ChatProxy.Handle` | coffee-chat/src/app/api/chat/route.ts:34-75 | One provider call for an array body, with model `gpt-3.5-turbo`, 300 max tokens and the outbound list; no call otherwise. 400 exactly for a missing or non-array field. "No response generated" exactly when the first content is missing or empty. "Failed to process request" exactly for an unparsable body or a thrown call. 200 exactly otherwise, with the content unchanged. Always one of the four shapes. |
| `ChatProxy.FailureHidesReason` | coffee-chat/src/app/api/chat/route.ts:68-74 | The response to a thrown provider call does not depend on the error. |
| `ChatProxy.EmptyHistoryAccepted` | coffee-chat/src/app/api/chat/route.ts:38-53 | An empty array passes validation and sends the persona turn alone. |
| `ChatProxy.EmptyStringIsNoResponse` | coffee-chat/src/app/api/chat/route.ts:58-65 | An empty first content is answered as "No response generated". |
| `ChatProxy.SingleTurnScenario` | coffee-chat/src/app/api/chat/route.ts:58-67 | A one-turn request answered by the provider yields 200 with that answer. |
| `ChatPage.RoleName` | coffee-chat/src/app/chat/page.tsx:111 | `ai` maps to `assistant` and `user` to `user`, and no other way round. |
| `ChatPage.History` | coffee-chat/src/app/chat/page.tsx:110-113 | One turn per displayed message, in order, with the mapped role and the message text. |
| `ChatPage.FromSnapshot` | coffee-chat/src/app/chat/page.tsx:53-57 | One displayed message per snapshot document, in snapshot order, with its text and role. |
| `ChatPage.Accepts` | coffee-chat/src/app/chat/page.tsx:90 | The send guard lets a send through exactly when the input is not all whitespace and no send is in progress. |
| `ChatPage.ReplyText` | coffee-chat/src/app/chat/page.tsx:129-155 | The appended AI text is the reply's `message` on a 2xx answer. On a failed request or a non-2xx answer it is the fixed apology. |
| `ChatPage.Persisted` | coffee-chat/src/app/chat/page.tsx:71-86 | A store write records one message, only when a user is signed in and the write succeeds. |
| `ChatPage.Page.constructor` | coffee-chat/src/app/chat/page.tsx:27-30 | The screen starts with no messages, an empty input and both flags down. |
| `ChatPage.Page.SetInput` | coffee-chat/src/app/chat/page.tsx:237 | The input box holds what was typed. |
| `ChatPage.Page.SaveMessage` | coffee-chat/src/app/chat/page.tsx:71-86 | The log grows by exactly the record of `Persisted`. |
| `ChatPage.Page.SendMessage` | coffee-chat/src/app/chat/page.tsx:88-166 | A blank input or a send in progress changes nothing. Otherwise: the input is emptied; the trimmed user message and then exactly one AI message are appended; the user record is persisted before the request; the request carries the pre-send history plus the new user turn; exactly one AI record follows; both flags end down. |
| `ChatPage.Page.ApplySnapshot` | coffee-chat/src/app/chat/page.tsx:52-58 | A snapshot replaces the displayed list wholesale. |
| `ChatPage.PostedHistoryReachesProvider` | coffee-chat/src/app/chat/page.tsx:110-123 | Through the proxy, the provider receives the persona, the prior messages role-mapped in order, then the new user turn. That is prior count + 2 turns. |
| `ChatPage.NonOkIsFailure` | coffee-chat/src/app/chat/page.tsx:129-130 | A non-2xx answer is handled like a thrown request, whatever its body says. |
| `ChatPage.SnapshotHistory` | coffee-chat/src/app/chat/page.tsx:52-57 | The history re-derived from a snapshot has one turn per stored document, with its role mapped and its text. |
| `Comments.EmailName` | coffee-chat/src/components/CommentsSection.tsx:64 | `user.email?.split('@')[0]` is absent exactly when the email is absent. Otherwise it is an `@`-free prefix of the email, followed by `@` when shorter than the email, and the whole email when it has no `@`. |
| `Comments.AuthorName` | coffee-chat/src/components/CommentsSection.tsx:64 | The display name if non-empty, else the email's local part if non-empty, else "Anonymous". Never empty. |
| `Comments.NewComment` | coffee-chat/src/components/CommentsSection.tsx:61-70 | The record has the trimmed text, an empty likes list, the user's email and uid, the fallback author name and the server time. |
| `Comments.LikesOf` | coffee-chat/src/components/CommentsSection.tsx:166 | Missing likes are read as the empty list. |
| `Comments.LikeCount` | coffee-chat/src/components/CommentsSection.tsx:173 | The displayed count is the list's length, or 0 when the list is missing. |
| `Comments.ArrayUnion` | coffee-chat/src/components/CommentsSection.tsx:92-94 | Adding puts the uid in, changes no other membership, and leaves a list that already holds it unchanged. |
| `Comments.ArrayRemove` | coffee-chat/src/components/CommentsSection.tsx:88-90 | Removing takes every occurrence of the uid out and keeps every other id exactly as often as before. |
| `Comments.ClickUpdate` | coffee-chat/src/components/CommentsSection.tsx:84-94 | The stored list after a click: the uid is out when the rendered likes held it and in otherwise, even when the rendered likes are out of date. No other membership changes, and a duplicate-free list stays duplicate-free. |
| `Comments.ToggleLike` | coffee-chat/src/components/CommentsSection.tsx:84-95 | The toggle flips the uid's membership and leaves every other uid's unchanged. |
| `Comments.RemoveFromDistinct` | coffee-chat/src/components/CommentsSection.tsx:88-90 | On a duplicate-free list, removing keeps it duplicate-free and shortens it by one when the uid was there. |
| `Comments.AddToDistinct` | coffee-chat/src/components/CommentsSection.tsx:92-94 | Adding keeps a duplicate-free list duplicate-free. |
| `Comments.ToggleOnDistinct` | coffee-chat/src/components/CommentsSection.tsx:84-95 | On a duplicate-free list the toggle keeps it duplicate-free and changes the count by exactly one. |
| `Comments.ToggleTwice` | coffee-chat/src/components/CommentsSection.tsx:84-95 | Toggling twice restores the set of users who like the comment. |
| `Comments.LikeClickToggles` | coffee-chat/src/components/CommentsSection.tsx:80-99 | When the rendered likes match the stored ones, a click is exactly the toggle. The displayed count moves by one. |
| `Comments.FormatDate` | coffee-chat/src/components/CommentsSection.tsx:101-112 | A missing timestamp shows "Just now". A present one shows its localized date. |
| `Comments.Section.constructor` | coffee-chat/src/components/CommentsSection.tsx:37-39 | The board starts with an empty draft, not loading, and a store whose likes lists are duplicate-free. |
| `Comments.Section.SetDraft` | coffee-chat/src/components/CommentsSection.tsx:130 | The draft holds what was typed. |
| `Comments.Section.SubmitComment` | coffee-chat/src/components/CommentsSection.tsx:55-78 | With no user or a blank draft nothing changes. Otherwise the new record is stored under the fresh id and the draft is cleared, but only on success. A failed write keeps the draft and changes no document. Loading ends false either way. |
| `Comments.Section.Like` | coffee-chat/src/components/CommentsSection.tsx:80-99 | With no user, a failed write or a missing document nothing changes. Otherwise the stored list loses the uid if the rendered likes held it and gains it if not. No other document changes, and every likes list stays duplicate-free. |

## Left out

- The persona prompt's wording: `ChatProxy.PersonaPrompt` is a placeholder. Only the fact that one fixed system turn is prepended is modelled.
- The `temperature: 0.7` sampling setting: it is a floating-point constant passed to the provider and decides nothing in the handler.
- The internals of the completion client, `fetch`, JSON parsing, and the document store: these include query ordering, the `arrayUnion`/`arrayRemove` implementation and `serverTimestamp`. Each appears only as an outcome parameter. `arrayUnion`/`arrayRemove` are modelled by their documented list semantics.
- `ChatPage.FetchOutcome`: a 2xx reply whose JSON lacks `message` is not modelled. A successful reply always carries a `message` string.
- `Comments.Section.SubmitComment`: requires the id the store assigns to be fresh, which `addDoc` guarantees. It does not model a collision.
- Message ids, timestamps and `Date.now()`: the temporary ids and client timestamps are clock-based and are not part of `ChatPage.Message`.
- Date formatting: `toLocaleDateString` formatting is the parameter `localized` of `Comments.FormatDate`.
- The interleavings between the awaits of one handler: a double submit, or a snapshot arriving mid-send and overwriting an optimistic entry. Each handler is one atomic step, so the intermediate states (both busy flags up while the request is in flight) are not observable in the model.
- The comment board's own subscription (coffee-chat/src/components/CommentsSection.tsx:41-53): it replaces the rendered list wholesale, as `ChatPage.Page.ApplySnapshot` does for chat messages. The board's store is modelled directly as a map.
- Logging (`console`), scrolling, redirects when signed out, and all rendering.
- The landing page's animation, the navigation bar and the sign-in dialog: these are display code and identity-provider calls.
