# ChitChat chat session and friend-request bookkeeping, in Dafny

This project models the two pieces of the ChitChat web client that carry logic:

- **The chat page's session controller** (`Frontend/src/pages/ChatPage.jsx`). An effect
  connects the logged-in user to the shared Stream chat client. If the client holds another
  user, that user is disconnected first; if it already holds this user, the connection is
  reused. The effect then opens the `messaging` channel whose key is the two participant ids,
  sorted and joined with `-`, and watches it. It stores the client and the channel in page
  state only while its run is still mounted. A ref (`initializingRef`) guards it against a
  second concurrent run. Unmounting disconnects the stored client, and the call button sends a
  call link into the channel.
- **The home page's friend-request bookkeeping** (`Frontend/src/pages/HomePage.jsx`). A set of
  recipient ids is rebuilt from the outgoing-request list, but only when that list is
  non-empty. It decides each recommended user's "Request Sent" caption and whether their
  button is disabled. The page also shows a pluralised friend-count label.

Modules:

- `Options` (`options.dfy`): optional values (`null`/`undefined` or a value).
- `ChannelKey` (`channel_key.dfy`): JavaScript's default string sort order for two strings,
  and the channel key.
- `ChatSession` (`chat_session.dfy`): the page and shared-client state, the events, and one
  transition function per event.
- `ChatSessionProofs` (`chat_session_proofs.dfy`): the invariant kept by every reachable
  state, and lemmas about single events and arbitrary event sequences.
- `Decimal` (`decimal.dfy`): how a non-negative integer count is written into text.
- `Text` (`text.dfy`): the suffix test on strings that both pages' models use.
- `HomePage` (`home_page.dfy`): the sent-request set, the send button and the friend label.

How the session is modelled. Execution is single-threaded. Every `await` of `initChat` is an
event: `DisconnectDone`, `ConnectDone`, `WatchDone`, or `StepFailed` when the awaited promise
rejects. `Render(inputs)` is a render of the page. If the effect's dependencies changed
(token, `authUser._id`, target id), React first runs the previous run's cleanup, which sets
that run's `mounted` flag to false. It then starts a new run whose flag is true, and
`initChat` executes up to its first `await`. `Unmount` runs both cleanups. `CleanupSettled`
is the later settling of the unawaited `disconnectUser()` issued by the unmount cleanup.
`VideoCall(origin)` is a click on the call button. The shared `StreamChat` singleton is one
value: the id of the user it holds, if any. An SDK step changes that value only when the step
succeeds. SDK calls and toasts are appended to a log.

The model keeps these behaviours as the code has them, although a cleaner design would differ:

- There is no error state, and `channel` is never cleared. A failure shows a toast and sets
  `loading` to false, but leaves `channel` as it was. Before the first success the loader
  therefore keeps showing.
- After an earlier success, a target switch whose watch fails leaves the previous
  conversation on screen, next to the error toast, while the route names the new target.
- A trigger dropped by the guard is not queued and not retried. The in-flight run belongs to a
  cleaned-up effect run, so it commits nothing. On a first attempt, `loading` can then stay
  true until the dependencies change again. After an earlier success, the page stays ready on
  the previous conversation: switching targets twice in quick succession leaves the first
  target's channel on screen while the route names the last one.
- The call action has no "not ready" error. Without a channel it does nothing.
- The channel key is not injective when ids contain `-`. It is injective for dash-free ids.
- Unmounting does not stop an attempt's disconnect and connect, which have no `mounted` check. If no client had been stored yet, the unmount cleanup disconnects nothing, so the shared client is left holding the new user after the page is gone.

## Model

| member | source | states |
|---|---|---|
| ChannelKey.ChannelId | Frontend/src/pages/ChatPage.jsx:136 | The key is the two ids joined by `-`, with the id that sorts first (JavaScript default string order) in front. |
| ChannelKey.ChannelIdSymmetric | Frontend/src/pages/ChatPage.jsx:136 | The key is order-independent: (me, target) and (target, me) give the same key. |
| ChannelKey.ChannelIdExample | Frontend/src/pages/ChatPage.jsx:136 | Users `u1` and `u2` share the key `u1-u2`, whichever of them opens the chat. |
| ChannelKey.ChannelIdDeterminesPairWithoutDash | Frontend/src/pages/ChatPage.jsx:136 | For ids without `-`, equal keys mean the same unordered pair of participants. |
| ChannelKey.ChannelIdCollidesWithDash | Frontend/src/pages/ChatPage.jsx:136 | With dashes in ids, the different pairs (`a-b`, `c`) and (`a`, `b-c`) share the key `a-b-c`. |
| ChatSession.ChannelFor | Frontend/src/pages/ChatPage.jsx:139-141 | The channel is of kind `messaging`, has members exactly [me, target], and its key is the same with the roles swapped. |
| ChatSession.Init | Frontend/src/pages/ChatPage.jsx:33-36 | The page starts loading, with no client, no channel, the guard clear and nothing logged, so the loader shows. |
| ChatSessionProofs.RunPreservesValid | Frontend/src/pages/ChatPage.jsx:103-162 | After any event sequence: the guard is set iff one attempt is in flight; only the latest effect run can be mounted; a pending connect sits on a client holding no user; the client is stored exactly when a channel is, and that channel is the pair channel. |
| ChatSessionProofs.ReachableValid | Frontend/src/pages/ChatPage.jsx:94-180 | Every state reachable from the first render satisfies that invariant. |
| ChatSessionProofs.MissingInputsMakeNoCall | Frontend/src/pages/ChatPage.jsx:98-101 | Without a token, an auth user or a target, an attempt makes no SDK call and leaves the guard, the attempt, the client and the page state unchanged. |
| ChatSessionProofs.GuardDropsTrigger | Frontend/src/pages/ChatPage.jsx:103-106 | While the guard is set, a trigger makes no SDK call and leaves the attempt in flight. If the deps changed, that attempt's run is no longer mounted. |
| ChatSessionProofs.SettlingReleasesGuard | Frontend/src/pages/ChatPage.jsx:158-159 | Every exit of `initChat` clears the guard and ends the attempt: the watch resolves, any step rejects, or a cleaned-up run's connect resolves and takes the early return. |
| ChatSessionProofs.ConnectIssuedOnEmptyClient | Frontend/src/pages/ChatPage.jsx:115-129 | Any event that issues `connectUser` leaves the client holding no user, with the attempt waiting on that connect. |
| ChatSessionProofs.SwitchUserDisconnectsFirst | Frontend/src/pages/ChatPage.jsx:115-129 | If the client holds another user, the trigger issues only `disconnectUser`. `connectUser` for the new user is issued only after that disconnect resolves, on an empty client. |
| ChatSessionProofs.SameUserReusesConnection | Frontend/src/pages/ChatPage.jsx:120-144 | If the client already holds the auth user, there is no disconnect or connect. The trigger issues exactly the channel creation, with members [me, target], and its watch. |
| ChatSessionProofs.StaleAttemptCommitsNothing | Frontend/src/pages/ChatPage.jsx:134-162 | Once an attempt's run is cleaned up, its later steps leave `chatClient`, `channel` and `loading` unchanged and show no toast. |
| ChatSessionProofs.UnmountDisconnectsStoredClient | Frontend/src/pages/ChatPage.jsx:168-180 | Unmount clears the mounted flag. If a client is stored, it issues exactly one `disconnectUser`; otherwise it issues none. |
| ChatSessionProofs.UnmountFreezesPage | Frontend/src/pages/ChatPage.jsx:168-170 | After unmount, no event sequence changes the page state or shows a toast. |
| ChatSessionProofs.ChannelSetOnlyAfterWatch | Frontend/src/pages/ChatPage.jsx:144-150 | `channel` and `chatClient` change only when a mounted attempt's watch resolves. The channel then holds the watched channel and the chat UI shows. |
| ChatSessionProofs.FailureKeepsChannel | Frontend/src/pages/ChatPage.jsx:151-162 | A mounted failure shows one error toast, ends loading and releases the guard, but leaves `channel` and `chatClient` as they were. The chat shows iff a channel was already committed; otherwise the loader remains. |
| ChatSessionProofs.VideoCallSendsOneInvite | Frontend/src/pages/ChatPage.jsx:182-192 | With a channel, exactly one SDK call: `sendMessage` on that channel, with text ending in `origin + "/call/" + channel id`. Without a channel, nothing changes. |
| ChatSessionProofs.HappyPath | Frontend/src/pages/ChatPage.jsx:108-161 | From an empty client with all inputs: connect, create, watch, then the chat shows the pair channel. |
| ChatSessionProofs.DroppedTriggerNeverRetried | Frontend/src/pages/ChatPage.jsx:103-106 | A deps change during the first attempt is dropped. The attempt then commits nothing, the loader stays, and rendering again with the same deps does nothing. |
| ChatSessionProofs.DroppedTriggerKeepsStaleConversation | Frontend/src/pages/ChatPage.jsx:103-106 | After a successful start, a target change opens a new watch and a further change during it is dropped. The watch then commits nothing, so the page stays ready on the first target's channel with the guard clear, and rendering the latest deps again does nothing. |
| ChatSessionProofs.FailedSwitchKeepsOldChannel | Frontend/src/pages/ChatPage.jsx:144-162 | After a successful start, a switch to another target whose watch rejects ends ready on the first target's channel, with the deps of the new target and the error toast as the last logged effect. |
| ChatSessionProofs.UnmountedAttemptLeavesUserConnected | Frontend/src/pages/ChatPage.jsx:115-134 | If the page unmounts while a user switch is pending, the disconnect and connect still complete. No disconnect follows, and the client ends up holding the new user with no page mounted. |
| HomePage.InitialSentIds | Frontend/src/pages/HomePage.jsx:28 | The sent-request set starts empty, so no user shows "Request Sent". |
| HomePage.RecipientIds | Frontend/src/pages/HomePage.jsx:67-71 | The rebuilt set holds exactly the recipient ids of the requests. |
| HomePage.UpdateSentIds | Frontend/src/pages/HomePage.jsx:66-74 | With a non-empty list, the set becomes exactly its recipient ids. With an absent or empty list, the set is unchanged. |
| HomePage.SentAfterUpdate | Frontend/src/pages/HomePage.jsx:194 | After a non-empty list arrives, a user shows "Request Sent" iff some request in it is addressed to them. |
| HomePage.EmptyListKeepsStaleEntries | Frontend/src/pages/HomePage.jsx:67-72 | An absent or empty list keeps earlier entries, so a user can keep showing "Request Sent". |
| HomePage.UpdateIdempotent | Frontend/src/pages/HomePage.jsx:66-74 | Applying the same list twice gives the same set as applying it once. |
| HomePage.UpdateIgnoresOrderAndDuplicates | Frontend/src/pages/HomePage.jsx:69-71 | Two non-empty lists with the same requests, in any order and with any repeats, give the same set. |
| HomePage.RenderSendButton | Frontend/src/pages/HomePage.jsx:247-266 | The button is disabled iff the request was sent or a mutation is pending. Its caption is "Request Sent" iff the request was sent, else "Send Friend Request". |
| HomePage.ClickSendButton | Frontend/src/pages/HomePage.jsx:253-254 | A click requests iff the button is enabled, and then it requests exactly that user's id. |
| HomePage.FriendsLabelPlural | Frontend/src/pages/HomePage.jsx:103 | The label ends in "partners connected" iff the count is not 1, and in " partner connected" iff it is 1. |
| HomePage.FriendsLabelShowsCount | Frontend/src/pages/HomePage.jsx:103 | The label opens with the count in decimal digits, followed by a space. |
| Decimal.NatToStringRoundTrip | Frontend/src/pages/HomePage.jsx:103 | The decimal digits written for a count read back as that count. |

## Left out

- The star-canvas effect (`ChatPage.jsx:50-80`) and `StarBackground.js`: decorative animation with floating-point positions, `Math.random` and canvas drawing.
- Internals of the Stream chat SDK (`getInstance`, `connectUser`, `disconnectUser`, `channel().watch`, `sendMessage`): each is an opaque step that resolves or rejects. The client's user changes only when a connect or disconnect resolves.
- `client.channel(...)` throwing synchronously is not modelled; only rejections of the awaited steps are.
- React Query, axios and the REST calls: the token, the auth user (null on a 401, `useAuthUser.js:12-16`), the outgoing-request list and the friend count are inputs.
- Outgoing requests with a null `recipient`: each request is assumed to carry a populated recipient. For a null one, `req.recipient._id` at `HomePage.jsx:70` throws inside the effect, and the model has no such input.
- Rendering, JSX and styling of every page and component, and `console.log`/`console.error` output. Toasts are recorded in the log.
- Credential expiry or refresh during a live session: the code has no behaviour for it.
- A remount while an earlier page instance's `initChat` is still awaiting: `initializingRef` belongs to each instance, so the new instance could start a second attempt on the same shared client. The model is one page instance. It starts from a shared client with no call in progress, which may hold any user or none.
- ChannelKey.ChannelId: strings are compared by Unicode code point, while JavaScript compares UTF-16 code units. The two orders differ only for characters above U+FFFF.
- ChatSessionProofs.VideoCallSendsOneInvite: the `window.location.origin` value is a parameter, and a click is only possible while the page is mounted.
- HomePage.ClickSendButton: the rule that a disabled button delivers no click comes from the browser, not from the page's code.
- Decimal.NatToStringRoundTrip: counts of 10^21 or more, which JavaScript writes in exponent notation, are not modelled. An array length never gets that large.
