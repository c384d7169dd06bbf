# lutar-stream-web3 signaling and session core, in Dafny

This project models the logic of a small live-streaming web application and proves properties about it:

- **WebRTC signaling client.** A per-room session object holds a socket and a peer connection and has a fixed role, streamer or viewer.
  - It sends a `join` message when the socket opens.
  - It handles inbound `offer`, `answer` and `candidate` messages. This follows the offer/answer exchange of section 3.2 of RFC 8829: a viewer answers an offer, and a streamer applies the answer.
  - It forwards local ICE candidates while the socket is open.
  - `disconnect` tears the socket and the peer connection down.
- **Persisted login session.** A provider keeps a login in browser storage and in the default `Authorization` header:
  - it restores the login on mount;
  - `login` writes three keys and the header;
  - `logout` removes them.
- **Stream routes.**
  - The bearer-token check (the header form of section 2.1 of RFC 6750).
  - The "go live" activity that a start posts to the hosted feed.
  - The mapping of feed activities to listed streams, and the fallback list.
  - The "mark offline" update that a stop sends.
- **Sign-In-with-Ethereum login payload.** It has the message fields of EIP-4361, with a 24-hour validity window.
- **Page logic.**
  - Duration labels on both pages.
  - The room a home-page card links to.
  - The VOD page's day-count labels, its three stable orderings, and its tag and address truncation.

The modules follow the source files:

| Module | File |
|---|---|
| `Signaling` | `src/lib/webrtc-signaling.ts` |
| `AuthContext` | `src/lib/auth-context.tsx` |
| `StreamsRoute` | `src/app/api/streams/route.ts` |
| `StopRoute` | `src/app/api/streams/stop/route.ts` |
| `LoginPayloadRoute` | `src/app/api/auth/login-payload/route.ts` |
| `HomePage` | `src/app/page.tsx` |
| `VodsPage` | `src/app/vods/page.tsx` |

Three support modules model the JavaScript semantics that the code relies on:

- **`JsStrings`:**
  - `startsWith`;
  - truthiness and `||`;
  - template interpolation of `undefined`;
  - first-occurrence `replace`;
  - `slice` with negative and clamped indices;
  - `split`.
- **`Decimal`:**
  - number-to-text conversion and its parser;
  - the truncating `%` operator.
- **`DurationLabel`:** the "`{h}h {m}m`" and "`{n}m`" labels and a parser for them. The parser is the partner against which the formatters are proved lossless.

The signaling client is a class: `Signaling.WebRTCSignaling`.

- Each event handler is one method and one atomic step.
- The browser objects are replaced by flags for whether the socket and peer connection are present and whether the socket is open.
- One ordered trace records every call made on them. Each call is one of:
  - a message sent;
  - a remote description set;
  - a local description set;
  - a candidate added;
  - a socket closed;
  - a peer connection closed.
- `createAnswer` is a function of the applied offer, fixed per session.
- Every method is proved to leave the object in `Step(old state, event)`.
- The properties of the client are proved about the pure `Step` and `Run` functions.

The login provider is also a class, `AuthContext.AuthProvider`. Its storage is a `map` field and so are the default headers. In the browser both are process-wide: local storage and axios's `defaults.headers.common` are shared by every provider. The per-object fields stand for these globals, so a provider mounted later is given the maps the earlier one left behind.

The home page maps the list route's response as if it held raw feed activities, reading `foreign_id`, `actor`, `extra_data` and `time`. The route, however, already returns shaped streams. Both mappings are modelled as written. `HomePage.ShapedStreamReadAsActivity` states what the combination produces: every card has the default title, the address "unknown", is not live, and links to a random room.

Similarly, the two routes authenticate to the feed with different credentials: the start route uses the API secret and the stop route uses the API key. Both credentials are inputs and are kept as written.

## Model

| member | source | states |
|---|---|---|
| Signaling.WebRTCSignaling.constructor | src/lib/webrtc-signaling.ts:10-18 | A new session has neither socket nor peer connection, keeps its room and role, and has made no calls. |
| Signaling.WebRTCSignaling.Connect | src/lib/webrtc-signaling.ts:20-29 | `connect()` creates the socket and peer connection (socket not yet open) and leaves the returned promise pending. |
| Signaling.WebRTCSignaling.OnOpen | src/lib/webrtc-signaling.ts:31-41 | Opening the socket sends one `join` with the room and the generated id, marks the socket open and resolves a pending `connect`. |
| Signaling.WebRTCSignaling.OnError | src/lib/webrtc-signaling.ts:43-46 | A socket error rejects a pending `connect` and changes nothing else. |
| Signaling.WebRTCSignaling.OnClose | src/lib/webrtc-signaling.ts:48-50 | A socket close only marks the socket as no longer open; no call is made. |
| Signaling.WebRTCSignaling.OnIceCandidate | src/lib/webrtc-signaling.ts:59-68 | A local candidate is sent as a `candidate` message exactly when it is non-null and the socket is open; nothing else changes. |
| Signaling.WebRTCSignaling.HandleMessage | src/lib/webrtc-signaling.ts:53-108 | The new state is one `handleMessage` step: the calls it makes are appended to the trace and no flag changes. |
| Signaling.WebRTCSignaling.Disconnect | src/lib/webrtc-signaling.ts:110-119 | `disconnect()` closes the socket before the peer connection, each only if present, and leaves both absent. |
| Signaling.MessageEffects | src/lib/webrtc-signaling.ts:72-108 | A message makes calls iff `pc` is present and the message is one of the three active cases: an offer to a viewer, an answer to a streamer, or a candidate message carrying a candidate. It never closes the socket or the peer connection. |
| Signaling.MessageEffectsOrdered | src/lib/webrtc-signaling.ts:76-91 | Within one message, the remote description is set before the local one, and both before the answer is sent. |
| Signaling.MessageEffectsByRole | src/lib/webrtc-signaling.ts:76-106 | A viewer given an offer applies it as the remote description, sets the created answer as its local description, and sends exactly one answer carrying that sdp. No other message sets a local description. A streamer given an answer applies it and sends nothing. A candidate message is applied, by either role, iff it carries a candidate. Every other message (`join`, `leave`, unknown types, an offer to a streamer, an answer to a viewer) sends and applies nothing. |
| Signaling.StepEffects | src/lib/webrtc-signaling.ts:20-119 | `connect()`, a socket error and a socket close make no call. Only `disconnect()` closes anything. Every event other than a message only sends or closes, and never touches a description or a candidate. |
| Signaling.Step | src/lib/webrtc-signaling.ts:20-119 | One event appends exactly its calls to the trace and keeps the session valid. Only `connect()` and `disconnect()` change whether `pc` is present. The `connect()` promise changes only on `connect()` itself, or on a socket open or error while it is pending. |
| Signaling.Run | src/lib/webrtc-signaling.ts:20-119 | Events are handled one at a time in arrival order; a valid session stays valid over any run. |
| Signaling.RunExtendsTrace | src/lib/webrtc-signaling.ts:20-119 | Over any run of events the trace only grows: every call made stays recorded, in place. |
| Signaling.DisconnectEffects | src/lib/webrtc-signaling.ts:110-119 | The socket is closed iff present, the peer iff present, and the socket always before the peer. |
| Signaling.StepKeepsValid | src/lib/webrtc-signaling.ts:20-119 | Socket and peer connection are created and dropped together, an open socket is a present one, and the call trace only grows. |
| Signaling.OpenSendsOneJoin | src/lib/webrtc-signaling.ts:31-41 | Opening the socket sends exactly one message, a `join` for the session's room and the fresh id, and then resolves `connect`. |
| Signaling.LocalCandidateSentOnlyWhenOpen | src/lib/webrtc-signaling.ts:59-67 | The sent messages grow by one `candidate` message iff the candidate is non-null and the socket is open; the rest of the state is unchanged. |
| Signaling.DisconnectIdempotent | src/lib/webrtc-signaling.ts:110-119 | After one `disconnect()` nothing is present, and a second call closes nothing and changes nothing. |
| Signaling.AnswersOwedCount | src/lib/webrtc-signaling.ts:76-91 | A viewer owes exactly one answer per offer received; a streamer owes none. |
| Signaling.MessageStep | src/lib/webrtc-signaling.ts:72-108 | With the peer connection present, one message adds exactly the answer owed for it to the sent messages and the candidate it carries to the applied candidates. |
| Signaling.MessagesKeepFlags | src/lib/webrtc-signaling.ts:53-108 | Any run of inbound messages keeps the peer connection, the socket and its open flag as they were. |
| Signaling.MessagesAnswered | src/lib/webrtc-signaling.ts:76-91 | With the peer connection present, a run of inbound messages makes the client send exactly the answers it owes, in arrival order. |
| Signaling.MessagesCandidatesApplied | src/lib/webrtc-signaling.ts:102-106 | With the peer connection present, a run of inbound messages makes the client apply exactly the candidates they carry, in arrival order. |
| Signaling.MessagesAnsweredInOrder | src/lib/webrtc-signaling.ts:53-108 | Over any run of inbound messages, the client sends exactly the answers it owes, and applies exactly the candidates carried, both in arrival order; the flags do not change. |
| Signaling.DetachedSessionIgnoresMessages | src/lib/webrtc-signaling.ts:73 | Before `connect()` or after `disconnect()`, any run of inbound messages leaves the session exactly as it was. |
| Signaling.SendsAllowedAppend | src/lib/webrtc-signaling.ts:33-89 | Two message sequences with only allowed kinds concatenate to one with only allowed kinds. |
| Signaling.StepSendsAllowed | src/lib/webrtc-signaling.ts:31-119 | One event sends only `join`, `answer` or `candidate` messages, and a streamer never sends an `answer`. |
| Signaling.RunSendsAllowed | src/lib/webrtc-signaling.ts:31-119 | Over any run of events, the client never sends an `offer` or any other kind than `join`, `answer` and `candidate`, and a streamer never sends an `answer`. |
| Signaling.ViewerScenario | src/lib/webrtc-signaling.ts:20-91 | Connect, open and one offer leave a viewer having sent its `join` and then one `answer`, with the offer as its only remote description and `connect` resolved. |
| Signaling.CollectAppend | src/lib/webrtc-signaling.ts:9-120 | Projecting a concatenated call trace (sent messages, candidates, remote descriptions) is the concatenation of the projections. |
| Signaling.CollectOne | src/lib/webrtc-signaling.ts:9-120 | The projection of a one-call trace is that call's item if it is of the projected kind, and empty otherwise. |
| AuthContext.RestoredUser | src/lib/auth-context.tsx:32-37 | A user is restored iff `jwt`, `streamToken` and `address` are all present and non-empty, and then holds exactly those values. |
| AuthContext.StoreUser | src/lib/auth-context.tsx:71-73 | Login writes the token, stream token and address under `jwt`, `streamToken` and `address`, and leaves every other key as it was. |
| AuthContext.ClearUser | src/lib/auth-context.tsx:82-84 | Logout removes exactly those three keys and leaves every other key as it was. |
| AuthContext.LoginThenRestore | src/lib/auth-context.tsx:36-73 | After a login with non-empty fields, a fresh mount restores the same user. |
| AuthContext.LogoutThenRestore | src/lib/auth-context.tsx:36-84 | After a logout, a fresh mount restores no user. |
| AuthContext.UseAuth | src/lib/auth-context.tsx:97-103 | Outside a provider the hook fails with "useAuth must be used within an AuthProvider"; inside, it returns the context. |
| AuthContext.AuthProvider.constructor | src/lib/auth-context.tsx:23-25 | A provider starts with no user and loading. |
| AuthContext.AuthProvider.Mount | src/lib/auth-context.tsx:30-41 | Mount restores the user, and sets the header to `Bearer {token}`, only when all three items are truthy; otherwise user and header are unchanged. It always ends with loading false. Storage is untouched. |
| AuthContext.AuthProvider.Login | src/lib/auth-context.tsx:43-79 | With no account address or no wallet, the matching alert is shown and nothing changes. A failed request changes nothing. A success stores the three keys, sets the header to `Bearer {token}` and the user to exactly the three returned values. |
| AuthContext.AuthProvider.Logout | src/lib/auth-context.tsx:81-88 | Logout clears the three keys, deletes the header, sets the user to null, and leaves loading alone. |
| AuthContext.RemountAfterLogin | src/lib/auth-context.tsx:30-86 | On the provider object itself: log in, remount, and the same user is back; log out, remount, and none is. |
| StreamsRoute.BearerToken | src/app/api/streams/route.ts:11-16 | The token is found iff the header is present and starts with the exact `"Bearer "`. It is then the header with those 7 characters removed; otherwise the error is "No token provided". |
| StreamsRoute.BearerTokenRoundTrip | src/app/api/streams/route.ts:11-16 | A header built as `"Bearer " + t` yields `t` back. |
| StreamsRoute.VerifyToken | src/app/api/streams/route.ts:11-18 | A bad header fails with "No token provided" before any verification; otherwise the verifier is given the extracted token. |
| StreamsRoute.ActivityData | src/app/api/streams/route.ts:102-115 | The posted activity has actor `user:{sub}`, verb `go_live`, object and foreign id both `stream:{roomId}`, is live, has category "Gaming", a thumbnail built from the encoded title, and the current time. |
| StreamsRoute.Post | src/app/api/streams/route.ts:95-127 | The feed is called iff the token verifies and the body was read, and then with exactly that activity. The response is 200 iff that call succeeds; every failure is 500 with "Failed to start stream". |
| StreamsRoute.ToStream | src/app/api/streams/route.ts:49-61 | The listed id is `foreign_id`, falling back to `stream:{id}`. Title and category default to "Untitled Stream" and "Gaming" when falsy. Live only when `is_live` is true. The thumbnail defaults to the "Stream" placeholder image. A missing actor gives address "0x123..." and display name "User Unknown...". An actor of at most 5 characters gives "User Unknown..."; a longer one gives "User " with its characters 5 to 10 and "...". An actor `user:{sub}` gets `sub` as address, or "0x123..." when `sub` is empty; every other actor gets the address `StreamerAddress` states. |
| StreamsRoute.DisplayName | src/app/api/streams/route.ts:55 | The display name is "User " + the actor's characters 5 to 10 + "...", or "User Unknown..." when the actor is missing or has at most 5 characters. |
| StreamsRoute.StreamerAddress | src/app/api/streams/route.ts:54 | A missing actor gives "0x123...". `user:{sub}` gives `sub`, or "0x123..." when `sub` is empty. An actor with no "user:" anywhere is kept whole, or gives "0x123..." when empty. Any other actor loses exactly its first "user:" and keeps what comes before and after it, or gives "0x123..." when nothing is left. |
| StreamsRoute.FallbackStreams | src/app/api/streams/route.ts:67-89 | Exactly two streams, both live and started now. Their ids are "stream:1" and "stream:2", the first in "Gaming" at the placeholder address, the second in "Programming" at a different address. |
| StreamsRoute.Get | src/app/api/streams/route.ts:43-93 | A readable feed gives one stream per activity, in order; any failure gives the two fixed fallback streams. |
| StreamsRoute.ListRequest | src/app/api/streams/route.ts:21-47 | The list is fetched with GET from the live-streams filter of the global feed, authenticated with `Bearer {secret}`. |
| StreamsRoute.ReplaceUserPrefix | src/app/api/streams/route.ts:54-103 | Removing the first `"user:"` from `user:{sub}` gives back `sub`. |
| StreamsRoute.StartedStreamListed | src/app/api/streams/route.ts:49-115 | Listing a started stream gives back what was posted: the stream key as id, the title (the default if empty), `sub` as address (the default if empty) with its first six characters in the display name, live, "Gaming", and the post time. |
| StopRoute.MarkOffline | src/app/api/streams/stop/route.ts:49-54 | The update targets `stream:{roomId}` and sets only `is_live`, to false. |
| StopRoute.StopEndpoint | src/app/api/streams/stop/route.ts:56 | The update goes to `/streams/global/{roomId}/`. |
| StopRoute.Post | src/app/api/streams/stop/route.ts:10-66 | A missing or non-`"Bearer "` header never reaches the feed. The feed is called with PUT iff the token verifies and the body was read, and then with exactly the offline update at the room's path (a missing `roomId` reads as "undefined"). The response is 200 iff that call succeeds, else 500 with "Failed to stop stream". |
| StopRoute.StopTargetsStartedStream | src/app/api/streams/stop/route.ts:49-54 | Stopping a room updates the activity that starting it created (the same foreign id), turning it from live to not live. |
| LoginPayloadRoute.Get | src/app/api/auth/login-payload/route.ts:4-26 | A missing or empty address gives 400 "Missing address" and no payload. Otherwise the payload echoes the address and the nonce, issues at now, is invalid before now and expires exactly 86,400,000 ms later. Its version is "1" and its statement fixed. Domain, uri and chain id default to "localhost:3000", "http://localhost:3000" and "1". |
| HomePage.FormatDuration | src/app/page.tsx:64-73 | Every minute count, negative included, reads back from its label. Below 60 the label is `{n}m`; from 60 minutes on it is `{h}h {m}m` with at least one hour and fewer than 60 minutes. |
| HomePage.ActivityToStream | src/app/page.tsx:40-52 | The card's id is `foreign_id` and its start is `time`. The title defaults to "Untitled Stream", the thumbnail to the "Stream" placeholder image, the address to "unknown", isLive to false, and the category is always "Gaming". The display name is the list route's: "User " with the actor's characters 5 to 10 and "...", or "User Unknown...". |
| HomePage.StreamIdOf | src/app/page.tsx:117 | The stream id is the card's id when truthy, otherwise `stream:` followed by the random suffix. |
| HomePage.RoomIdOf | src/app/page.tsx:118 | A stream id without ':' is its own room id; otherwise the room is the second ':'-separated segment. The room never contains ':'. |
| HomePage.RoomIdIsSecondSegment | src/app/page.tsx:118 | For ':'-free `a` and `b`, both `a:b` and `a:b:rest` link to room `b`. |
| HomePage.RoomIdOfStreamKey | src/app/page.tsx:117-118 | `stream:{r}` gives back `r` for every ':'-free room id `r`. |
| HomePage.StartedStreamLinksToItsRoom | src/app/page.tsx:40-118 | A card made from a started stream's raw activity links to the room that was started. |
| HomePage.ShapedStreamReadAsActivity | src/app/page.tsx:40-118 | Read from the list route's own output, every card has the default title, address "unknown", no start time and is not live, and links to the random room. |
| VodsPage.FormatDuration | src/app/vods/page.tsx:123-130 | From 60 minutes on the label is `{m div 60}h {m mod 60}m`, below that `{m}m`. A negative count keeps only its truncated remainder. |
| VodsPage.FormatDurationRoundTrip | src/app/vods/page.tsx:123-130 | For any non-negative count the label reads back as the count. From 60 minutes on it is `{h}h {m}m` with at least one hour and fewer than 60 minutes. |
| VodsPage.DurationLabelsAgree | src/app/vods/page.tsx:123-130 | The VOD page and the home page print the same label for the same non-negative minutes. |
| VodsPage.FormatDate | src/app/vods/page.tsx:136-140 | "Yesterday" iff the day count is 1. `{n} days ago` for any other count below 7. The locale date (None) iff the count is 7 or more. |
| VodsPage.InsertAtMost | src/app/vods/page.tsx:143-147 | A bound on every key of the list and on the inserted key bounds every key of the result. |
| VodsPage.InsertSorted | src/app/vods/page.tsx:143-147 | Inserting into a list in non-increasing key order keeps it in that order. |
| VodsPage.InsertPermutes | src/app/vods/page.tsx:143-147 | Inserting adds exactly the one element: the result is a permutation of the list plus it. |
| VodsPage.InsertWithKey | src/app/vods/page.tsx:143-147 | Insertion places the new element ahead of the elements with its key and leaves every other key's elements as they were. |
| VodsPage.SortDesc | src/app/vods/page.tsx:144-146 | The sort yields a permutation of its input in non-increasing key order. |
| VodsPage.SortDescStable | src/app/vods/page.tsx:144-146 | Elements with equal keys keep their input order. |
| VodsPage.SortVods | src/app/vods/page.tsx:143-147 | `recent` is a stable permutation by recording time, newest first. `popular` is a stable permutation by views, most first. `trending` equals `popular`. The input list is a value and stays as it was. |
| VodsPage.ShownTags | src/app/vods/page.tsx:262 | The card shows a prefix of the tags, of length min(3, count). |
| VodsPage.ShortAddress | src/app/vods/page.tsx:247 | The address is shown as its first 6 characters, "...", and its last 4, or the whole address on each side when it is shorter. |
| JsStrings.OrElse | src/app/api/streams/route.ts:51-60 | `o \|\| d`: the value when present and non-empty, otherwise the default. |
| JsStrings.Split | src/app/page.tsx:118 | `split` gives at least one part, exactly one iff the separator is absent (and then the part is the whole string), and no part contains the separator. |
| JsStrings.SplitJoin | src/app/page.tsx:118 | Joining the parts back with the separator gives the original string. |
| JsStrings.SplitJoined | src/app/page.tsx:118 | Splitting `a + c + b` with a separator-free `a` gives `a` followed by the parts of `b`. |
| JsStrings.Slice | src/app/vods/page.tsx:247 | `slice` is never longer than the string, and with in-range indices it is exactly the characters between them. |
| JsStrings.ReplaceFirst | src/app/api/streams/route.ts:54 | `replace` with a string pattern leaves the string alone when the pattern occurs nowhere. Otherwise it replaces exactly the first occurrence and keeps everything before and after it. |
| JsStrings.FindFrom | src/app/api/streams/route.ts:54 | The first position at or after `from` where the pattern occurs, or None when it occurs nowhere there. |
| Decimal.NatToString | src/app/page.tsx:69-72 | `${n}` of a non-negative number is at least one digit, all digits, and starts with '0' only for 0 itself, which prints as "0". |
| Decimal.IntToString | src/app/page.tsx:69 | `${i}` starts with a minus sign iff the number is negative; every other character is a digit, and a negative number's first digit is never '0'. |
| Decimal.NatToStringRoundTrip | src/app/page.tsx:69-72 | The decimal text of a number parses back to that number. |
| Decimal.IntToStringRoundTrip | src/app/page.tsx:69 | The text of any integer, negative included, parses back to it. |
| Decimal.JsRem | src/app/vods/page.tsx:125 | The `%` operator truncates toward zero: the remainder has the dividend's sign and a smaller magnitude than the divisor. |
| DurationLabel.ParseMinutesLabel | src/app/page.tsx:69 | A `{n}m` label reads back as `n`. |
| DurationLabel.ParseHoursLabel | src/app/page.tsx:70-72 | A `{h}h {m}m` label reads back as `60h + m`. |

## Left out

- Browser and transport primitives are not modelled: the socket's wire behaviour, the peer connection's internals, the SFU URL and the STUN servers. Only the calls made on them are recorded.
- The asynchronous interleaving of handlers is not modelled. Each handler runs as one atomic step, and the awaited peer-connection calls never fail.
- A message that is not JSON makes the socket's message handler throw before any state change. This is not modelled: inbound messages arrive already parsed.
- Calling `connect()` twice replaces the socket and peer connection without closing the old ones. The model only records the fresh flags; the leaked objects are not represented.
- Signaling.WebRTCSignaling.OnOpen: when `ws` is already null the source throws at `this.ws!`. The model treats that as a step that changes nothing.
- The clock, random numbers, nonce generation, JWT verification, `encodeURIComponent` and the feed's HTTP calls are inputs. So are the login payload request, the signature and the login response.
- Date parsing, ISO formatting, `Math.ceil` on day differences, locale date formatting and NaN are not modelled. Minute and day counts arrive as integers, and the locale date is None.
- `viewerCount` on the home page is `Math.random()` and is not modelled.
- Console logging and alerts are not modelled. An alert appears only as the login outcome that carries its text.
- StreamsRoute.Post: the `roomId` and `title` read from the body are taken to be strings; other JSON types are not modelled.
- `src/app/api/auth/login/route.ts` and every rendering-only file are not part of this model: the components, the watch, broadcast and VOD detail pages, and the layout.
- JavaScript strings are sequences of UTF-16 code units, while the model's strings are sequences of Unicode scalar values. The inputs are taken to be text in the Basic Multilingual Plane, where the two agree; addresses, tokens and ids are ASCII. `slice` and `split` indices therefore mean the same thing. Splitting a surrogate pair is not modelled.
- Insertion sort stands in for the engine's `Array.prototype.sort`. Only its result matters here: a stable sort in non-increasing key order.
