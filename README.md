# Chat socket, notifications and auth state of a social-media front end

This project models three state-transition components of a React/Redux front end:

- **The chat socket hook** (`store/useChatSocket.js`). While a logged-in user has a `userId`, its effect connects the shared socket and emits `register` with that id. It then binds eight listeners: `online_users`, `message_sent`, `receive_message`, `user_typing`, `message_delivered`, `message_read`, `notification` and `connect`. Its cleanup unbinds the same eight events and disconnects. Each listener turns one inbound event into dispatched store actions. For a message from the open chat partner, it also emits a `read_message` receipt.
- **The notifications slice** (`store/slices/notificationsSlice.js`). It holds a list of notification objects plus the `loading`/`error` flags of the fetch request. New notifications are prepended; a fetch installs the list in the order the server returned.
- **The auth slice reducers** (`store/slices/authSlice.js`). Its state has eight fields: `token`, `isAuthenticated`, `user`, `viewedProfile`, `viewedProfileLoading`, `loading`, `error` and `message`. It has one `pending`/`fulfilled`/`rejected` case per request kind.

Layout:

- `js.dfy`, module `Js`: the part of JavaScript's value model the code depends on. Values are undefined, null, booleans, integers, strings and object references. Plain objects are maps from property names to values. The module also covers truthiness, optional chaining, spread-with-override and `String.prototype.split`.
- `chat_socket.dfy`, module `ChatSocket`: the socket is a class with a listener table (event to bound listeners, in binding order) and a log of connects, disconnects, emits and dispatches. Each listener is the closure one run of the effect created, represented by what it closes over: `user.userId` and `currentChatUser?._id`. Each handler is a pure step from an inbound event to the effects it produces. Setup and cleanup are methods that make the same `on`/`off`/`emit` calls in the same order as the source. `Mounted` models React's run-cleanup-before-rerun lifecycle.
- `notifications_slice.dfy`, module `NotificationsSlice`: a class whose methods are the reducer cases. `markAllRead` is an in-place loop proved against the `AllRead` specification function.
- `auth_slice.dfy`, module `AuthSlice`: a class with the eight fields and one method per reducer case. Every method states the new state field by field, as an update of the old `Snapshot()`.

## Model

| member | source | states |
|---|---|---|
| Js.Split | store/slices/authSlice.js:260 | `split` with a non-empty separator yields at least one piece, and no piece contains the separator; with one piece the piece is the whole string |
| Js.JoinSplit | store/slices/authSlice.js:260 | joining the pieces of a split with the separator gives back the original string, so no text of the cookie is lost or invented |
| ChatSocket.ReceiveMessageStep | store/useChatSocket.js:43-63 | `addMessage(message)` is always dispatched first. A self-sent message produces nothing else. `incrementUnread(fromId)` is dispatched iff the sender is neither the user nor the open chat partner. `clearUnread(fromId)` and the `read_message {messageId, userId}` emit happen iff the sender is the open chat partner and not the user. The only emit is that receipt. The list has exactly one, two or three entries in these three cases, and in the last the receipt is emitted before `clearUnread` is dispatched |
| ChatSocket.NotificationStep | store/useChatSocket.js:90-99 | `addNotification(notification)` is dispatched iff `notification.to === user.userId`; otherwise nothing happens |
| ChatSocket.Step | store/useChatSocket.js:29-105 | no listener connects or disconnects. Only `receive_message` can emit or increment an unread count. `message_sent` and `message_delivered` dispatch only the status update `sent` / `delivered`. `message_read` dispatches `read` and then `clearUnread(data.userId)`. `connect` dispatches only `fetchUnreadCounts` and does not register again. `online_users` dispatches the list, or `[]` when there is none. `user_typing` dispatches `setTyping` with `data.from` and `data.typing` |
| ChatSocket.Fire | store/useChatSocket.js:29-105 | delivering an event runs its listeners in binding order; with no listener bound nothing happens, and delivery never connects or disconnects |
| ChatSocket.Bind | store/useChatSocket.js:29-105 | binding one listener to a set of events appends it to exactly those events' lists and leaves every other entry unchanged |
| ChatSocket.SetupOnFreshSocket | store/useChatSocket.js:29-105 | on a socket with no listeners, setup binds exactly the eight events, each to one listener |
| ChatSocket.CleanupUndoesSetup | store/useChatSocket.js:107-116 | cleanup unbinds exactly the events setup bound, so after setup then cleanup the listener table is empty, whatever it held before |
| ChatSocket.NoStaleListener | store/useChatSocket.js:107-116 | after cleanup no event, of any kind, produces any effect |
| ChatSocket.WireNamesOfBoundEvents | store/useChatSocket.js:29-115 | the eight events have eight distinct wire names, and they are exactly the names bound by `socket.on` and unbound by `socket.off` |
| ChatSocket.ActiveRunFiresOnce | store/useChatSocket.js:23-118 | while one run's listeners are bound, each inbound event is handled exactly once, by that run's listener |
| ChatSocket.Socket.On | store/useChatSocket.js:29 | `socket.on` appends the listener after those already bound to the event; the log is unchanged |
| ChatSocket.Socket.Off | store/useChatSocket.js:108 | `socket.off(event)` without a listener removes every listener of that event; the log is unchanged |
| ChatSocket.Socket.Deliver | store/useChatSocket.js:29-105 | an inbound event appends to the log the effects of the listeners bound to it, and leaves the table unchanged |
| ChatSocket.Setup | store/useChatSocket.js:23-105 | without a truthy `user?.userId`: no connect, no emit, no listener, no cleanup. Otherwise: exactly one connect, then one `register` emit carrying `user.userId`, then the eight listeners bound with this render's context |
| ChatSocket.BindListeners | store/useChatSocket.js:29-105 | the eight `socket.on` calls bind exactly the eight events to one new listener each and log nothing |
| ChatSocket.Cleanup | store/useChatSocket.js:107-117 | the eight events are unbound, then exactly one disconnect is logged |
| ChatSocket.UnbindListeners | store/useChatSocket.js:108-115 | the eight `socket.off` calls remove exactly the eight events and log nothing |
| ChatSocket.Mounted.Run | store/useChatSocket.js:23-118 | re-running the effect first runs the pending cleanup (one disconnect), then sets up again. The table afterwards holds exactly the new run's listeners, so none from an earlier user or chat partner survives |
| ChatSocket.Mounted.Unmount | store/useChatSocket.js:107-117 | unmounting runs the pending cleanup, if any, and leaves the listener table empty |
| NotificationsSlice.Stamped | store/slices/notificationsSlice.js:39 | the stored entry has `read = false` and `id` equal to the supplied timestamp; every other property is the payload's |
| NotificationsSlice.MarkedRead | store/slices/notificationsSlice.js:45 | `n.read = true` sets `read` and keeps every other property |
| NotificationsSlice.AllRead | store/slices/notificationsSlice.js:44-46 | marking all read keeps length and order, and each entry is its original with `read = true` |
| NotificationsSlice.WithIds | store/slices/notificationsSlice.js:56 | the fetched list keeps length and order; each entry's `id` is its `_id` and every other property is kept |
| NotificationsSlice.AllReadIdempotent | store/slices/notificationsSlice.js:44-46 | marking all read twice equals marking once |
| NotificationsSlice.AllReadEveryEntryRead | store/slices/notificationsSlice.js:44-46 | after marking, every entry has `read = true` |
| NotificationsSlice.AddTwiceKeepsBoth | store/slices/notificationsSlice.js:38-40 | adding the same payload twice stores two entries, newest first, that differ at most in `id`; the old list follows unchanged |
| NotificationsSlice.State.constructor | store/slices/notificationsSlice.js:32-36 | the initial state has no items, is not loading and has `error = null` |
| NotificationsSlice.State.AddNotification | store/slices/notificationsSlice.js:38-40 | prepends the stamped payload, so the length grows by one and the old list is the tail; `loading`/`error` are unchanged |
| NotificationsSlice.State.ClearNotifications | store/slices/notificationsSlice.js:41-43 | `items` becomes empty; `loading`/`error` are unchanged |
| NotificationsSlice.State.MarkAllRead | store/slices/notificationsSlice.js:44-46 | the in-place loop leaves `items == AllRead(old items)`; `loading`/`error` are unchanged |
| NotificationsSlice.State.FetchPending | store/slices/notificationsSlice.js:50-53 | `loading = true`, `error = null`, items untouched |
| NotificationsSlice.State.FetchFulfilled | store/slices/notificationsSlice.js:54-57 | `loading = false`, items replaced by the payload with ids copied from `_id`, `error` untouched |
| NotificationsSlice.State.FetchRejected | store/slices/notificationsSlice.js:58-61 | `loading = false`, `error = payload`, items untouched |
| NotificationsSlice.State.MarkNotificationsReadFulfilled | store/slices/notificationsSlice.js:62-64 | the same effect on `items` as `markAllRead`; `loading`/`error` are unchanged |
| AuthSlice.KeepIdentity | store/slices/authSlice.js:329 | the merged user carries the old user's `token` and `userId`, and the profile's value for every other property |
| AuthSlice.OwnProfileRefreshStable | store/slices/authSlice.js:325-333 | after one's own profile is merged in, the user still passes the identity test for that profile, and merging the same profile again changes nothing |
| AuthSlice.FindTokenRow | store/slices/authSlice.js:260 | finds the first cookie row starting with `token=`, or reports that there is none |
| AuthSlice.CookieToken | store/slices/authSlice.js:260 | the cookie token is `undefined` iff no row of `cookie.split('; ')` starts with `token=`. Otherwise it is a string without `=`: the text of the first such row after `token=`, up to the next `=` or the end of the row |
| AuthSlice.TokenValue | store/slices/authSlice.js:260 | `row.split('=')[1]` of a `token=` row exists and is the text after `token=` up to the next `=` |
| AuthSlice.SingleTokenCookie | store/slices/authSlice.js:260 | the cookie string `token=<v>` yields `v` as the token |
| AuthSlice.State.constructor | store/slices/authSlice.js:203-212 | token and user come from the stored user in a browser and are null on the server; `isAuthenticated` is the truthiness of the token; every other field starts cleared |
| AuthSlice.State.SetAuth | store/slices/authSlice.js:218-222 | `token = payload.token`, `isAuthenticated = true`, `user = payload`; all other fields unchanged |
| AuthSlice.State.Logout | store/slices/authSlice.js:223-229 | `token = null`, `isAuthenticated = false`, `user = null`; all other fields unchanged |
| AuthSlice.State.ClearError | store/slices/authSlice.js:230-232 | only `error` changes, to null |
| AuthSlice.State.ClearMessage | store/slices/authSlice.js:233-235 | only `message` changes, to null |
| AuthSlice.State.Pending | store/slices/authSlice.js:239-361 | every pending case except `getProfile` sets `loading = true, error = null`. `getProfile.pending` sets `viewedProfileLoading` instead. Nothing else changes |
| AuthSlice.State.Rejected | store/slices/authSlice.js:247-369 | every rejected case sets `error = payload`. All except `getProfile` set `loading = false`. `checkToken` also forces `isAuthenticated = false`. `getProfile` sets `viewedProfileLoading = false` and clears `viewedProfile`, and does not touch `loading` |
| AuthSlice.State.MessageFulfilled | store/slices/authSlice.js:243-316 | signup, verifyEmail, forgotPassword and resetPassword fulfilled: `loading = false`, `message = payload.message`, nothing else |
| AuthSlice.State.SigninFulfilled | store/slices/authSlice.js:255-265 | `loading = false`, `user = payload`, `isAuthenticated = true`. `token` becomes the cookie token only when that token is truthy; otherwise it is unchanged |
| AuthSlice.State.CheckTokenFulfilled | store/slices/authSlice.js:275-278 | `loading = false`, `isAuthenticated = payload.valid`, nothing else |
| AuthSlice.State.GetProfileFulfilled | store/slices/authSlice.js:325-333 | `viewedProfile = payload` and `viewedProfileLoading = false`, with `loading` untouched. `user` is replaced, keeping its `token`/`userId`, only when `user?.userId === payload._id`. It throws, leaving the state unchanged, exactly when there is no user and the payload has no `_id` |
| AuthSlice.State.UpdateProfileFulfilled | store/slices/authSlice.js:343-353 | `user` changes only if `user?.userId === payload.user._id`, keeping `token`/`userId`. `viewedProfile` changes only if its `_id` is the same. `loading = false` always. It throws, leaving the state unchanged, exactly when there is no user and the updated profile has no `_id` |
| AuthSlice.State.ChangePasswordFulfilled | store/slices/authSlice.js:362-365 | `loading = false`, `message = payload`, nothing else |

## Left out

- The request thunks (`store/slices/authSlice.js:10-199`, `store/slices/notificationsSlice.js:4-28`) are HTTP calls. Only their fulfilled and rejected payloads enter the model, as parameters.
- JWT role decoding with `atob`/`JSON.parse` (`store/slices/authSlice.js:30-31`) is a foreign call whose exception is swallowed.
- `updateProfile`'s error path calls a `rejectWithValue` that is not defined there (`store/slices/authSlice.js:108,128`). At run time that is a ReferenceError. `AuthSlice.State.Rejected` takes the rejection value as a parameter and does not model where it comes from.
- Writes to `localStorage` and the reading of `document.cookie` are left out. The stored user and the cookie string are parameters. The `localStorage.setItem`/`removeItem` calls are not modelled.
- `Date.now()` is a parameter of `AddNotification`. Nothing assumes timestamps are distinct or increasing.
- The `notify` toasts and `console.log` in the hook are not modelled, and neither is the socket transport (`./socket`, which is not part of this model).
- The chat slice's reducers (`store/slices/chatSlice.js`, not part of this model) are not modelled. Its actions are opaque records of their arguments, so nothing is said about unread counts or message statuses.
- The page, route-guard and provider components are layout and wiring, with no state logic.
- The code has no notification deduplication by composite key, does not append notifications, has no monotonic message-status transitions, does not re-register on reconnect and has no stale-fetch guard; the model has none of them.
- ChatSocket.ReceiveMessageStep: assumes `message.from` is an object. When it is missing, the source throws a TypeError after dispatching `addMessage`, and the model has no such case.
- ChatSocket.Step: `online_users` falls back to `[]` for any falsy payload. The model only represents "a list" or "no list", not a falsy non-list value such as `0` or `""`.
- ChatSocket.Socket.Off: socket.io's `off(event)` also removes listeners other components bound to the same event. The model assumes that nobody else binds these events on the shared socket.
- NotificationsSlice.State.FetchFulfilled: assumes the payload is an array of objects. A non-array payload makes `.map` throw, and the model has no such case.
- AuthSlice.State.UpdateProfileFulfilled: assumes `action.payload.user` is an object. When it is missing, reading `._id` throws, and the model has no such case.
- Numbers are unbounded integers. The code only compares them and stores timestamps, so floating point does not matter.
