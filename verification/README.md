# Knight Bot: a Dafny model of the session, status store and dispatch core

Knight Bot is a WhatsApp bot with a small web dashboard. The transport is the
Baileys socket library; the server is Express with socket.io. This project
models the logic under that glue and proves what it promises:

- **App** (`app.dfy`, app.js) is the process-wide status store, modelled as
  class `App.Server`. It covers:
  - the initial `global.botState`;
  - the shallow-merge `updateBotStatus` and its broadcasts;
  - the `/api/pairing` validation and its single pending-request slot;
  - the `/health` rule and `formatUptime`.
- **Bot** (`bot.dfy`, bot.js) is one bot session, modelled as class
  `Bot.Session`. It covers:
  - the `connection.update` handler, with its status writes, scheduled
    restarts and welcome message;
  - the start-up failure path;
  - `requestPairingCode`: number normalisation and code grouping;
  - the inline dispatcher `handleIncomingMessage`.

  Every status write is one of the eight `Bot.Write` values. The replay of
  any sequence of them is proved never to set both the QR payload and the
  pairing code.
- **MessageHandler** (`message_handler.dfy`, handlers/messageHandler.js) is
  the stand-alone handler, modelled as class `MessageHandler.Handler`. It
  covers:
  - the per-chat user store;
  - the processed-messages counter;
  - the whole-body command key and the command table;
  - the guarded replies with their apology;
  - the prefix-gated random auto-reply;
  - the group welcome and goodbye loop.
- **MyFunc** (`myfunc.dfy`, lib/myfunc.js) is the `smsg` decoration of an
  inbound message object, modelled as class `MyFunc.MessageObject`. It
  covers `getContentType`, `isBaileys`, `isGroup` and the body fallback
  chain.
- **Dashboard** (`dashboard.dfy`, public/js/app.js) is the browser client,
  modelled as class `Dashboard.KnightBotApp`. It covers:
  - the status labels, badge classes and panel visibility;
  - the reconnect back-off counter;
  - the phone-number filter and submit check.
- **Text**, **WaMessage** and **Wrappers** hold what the modules share:
  - JavaScript string operations: `replace(/\D/g, '')`, `toLowerCase`,
    `trim`, `substring`, `split(..)[0]`, `join`;
  - the shape of an inbound message;
  - the sends made before a send throws (`WaMessage.Attempted`);
  - `Option` and `Result`.

The model runs nothing, so the world outside it becomes inputs:
- the current time;
- the draws of `Math.random`;
- the transport's answer to a pairing request;
- the index of the send that throws, if one does (`failAt`);
- the formatted local time written to a user record.

What the program asks of the world is recorded in order as outputs:
- messages sent (`sent`);
- pairing requests to the transport (`pairingCalls`);
- restart delays scheduled (`restarts`);
- socket.io emissions (`emitted`);
- reconnect timers (`pending`).

Where the code and its description disagree, the model follows the code:
- A restart is scheduled after every close, a logout included.
- `requestPairingCode` does no length check. Only the HTTP endpoint and the
  dashboard check the length.
- No message is de-duplicated by id.
- The command key of the stand-alone handler is the whole trimmed,
  lower-cased body, not its first word. So `!ai question` is plain chat
  there (`MessageHandler.ArgumentsNotRecognised`).
- The inline dispatcher's chat `!pair` goes through the fallback updater.
  `global.updateBotStatus` is never assigned in app.js (bot.js:298), so that
  fallback is a no-op and a code requested from chat never reaches the
  dashboard (`Bot.Session.AnswerPair`).
- `global.pairingRequest` is written by the pairing endpoint but read
  nowhere in these files. Only the slot is modelled.
- `getStatusText` has no label for the `error` state the start-up failure
  writes. The dashboard shows that state as unknown
  (`Dashboard.ServerStatusLabels`).

## Model

| member | source | states |
|---|---|---|
| App.Server.constructor | app.js:30-42 | The store starts `disconnected`, not connected, with no QR payload, pairing code or user, no message processed, no pending pairing request and nothing emitted; at most one code is set |
| App.Merge | app.js:142-147 | Every property the update carries overwrites the old value, every other property keeps it, and `lastUpdate` is the current time |
| App.SameFields | app.js:142-147 | Two states that agree on every property and on the stamp are the same state, so the field-wise merge contract determines the merged state |
| App.MergeNoChange | app.js:142-147 | Merging an update with no properties changes only the stamp |
| App.Combine | app.js:142-147 | The combined update carries each property of either update, the later update winning where both carry it |
| App.MergeTwice | app.js:142-147 | Two successive merges equal one merge of the combined update at the later time |
| App.MergeRepeat | app.js:142-147 | Applying the same update twice is the same as applying it once, apart from the stamp |
| App.Emissions | app.js:150-157 | A status write broadcasts one or two events. The first is always `bot-status` with the merged state. The second, a QR image, is present exactly when the update carries a truthy `qrCode` |
| App.Server.UpdateBotStatus | app.js:142-158 | The state becomes the merge. The broadcasts are exactly `Emissions`: one `bot-status` carrying the merged state, then a QR image only when the update carries a truthy `qrCode`. The pairing slot is untouched |
| App.Server.CountMessage | bot.js:238-240 | `messagesProcessed` goes up by one with no new stamp and no broadcast |
| App.Server.ClientConnected | app.js:123-126 | A newly connected client is sent the current state at once, and nothing changes |
| App.Server.GetQr | app.js:132-138 | A client asking for the QR code is sent one only when a truthy payload is stored, and nothing changes |
| App.PairingCheckAccepts | app.js:66-95 | A posted number is accepted exactly when it is a string with at least ten digits. The accepted value is its digits alone, and posting it again is accepted unchanged. A truthy non-string value fails in `replace` and is answered "Internal server error". A missing, falsy or empty value is answered "Phone number required" |
| App.Server.PostPairing | app.js:64-95 | A rejected number answers with its message and changes nothing, including a truthy non-string value that reaches the catch. An accepted one answers with success, fills the single pending slot with the cleaned number, writes `requesting_pairing` with both codes cleared, and broadcasts exactly one `bot-status` with the new state |
| App.HealthRule | app.js:108-115 | A connected bot is always healthy. For a fixed state, once the check answers 503 it answers 503 at every later time, so a 200 later means a 200 now. The answer is always 200 or 503 |
| App.HealthyAfterUpdate | app.js:108-115 | Any status write keeps the server healthy for the next five minutes |
| App.UptimeParts | app.js:194-198 | Hours are below 24 and minutes below 60. Days, hours and minutes account for the seconds to within the last partial minute |
| App.UptimeArithmetic | app.js:195-197 | The floor and remainder arithmetic of the three parts meets those bounds |
| Bot.WriteEffect | bot.js:51-94 | Each status write sets exactly the properties of its object literal and keeps every other one. For example, a QR write sets the payload, clears the pairing code and sets `scan_qr`, and an open write sets connected with both codes cleared and the user recorded |
| Bot.WriteKeepsNotBoth | app.js:80-84 | No status write sets both the QR payload and the pairing code when at most one was set before |
| Bot.AtTime | bot.js:46-100 | The writes of one handler call are stamped in order with the same time |
| Bot.ReplayOneMore | app.js:142-158 | Replaying one more write is one more merge, and broadcasting one more write appends exactly that write's emissions for the merged state |
| Bot.BroadcastsShape | app.js:142-158 | Each write broadcasts once or twice. From a state with at most one code set, no broadcast `bot-status` carries both codes |
| Bot.ReplayKeepsNotBoth | bot.js:150-155 | Any sequence of status writes keeps at most one of the two codes set |
| Bot.NeverBothFromInitial | app.js:33-34 | From the initial state, the QR payload and the pairing code are never both set |
| Bot.Session.constructor | bot.js:20 | A new session has sent nothing, scheduled nothing and requested no code |
| Bot.Session.OnConnectionUpdate | bot.js:46-100 | The handler issues the QR write for a truthy `qr`, then the open write for `open`, or the close write for `close`, in that order. The broadcasts are those of the same writes, in the same order. A close schedules one restart at 5000 ms. An open with a user sends one welcome. At most one code stays set |
| Bot.Session.Apply | bot.js:53-94 | One status write advances the replay of the handler's writes by one step. It appends that write's broadcasts, extending the fold of the writes so far. At most one code stays set |
| Bot.Session.Greet | bot.js:180-217 | The welcome goes to the bot's own number only when the transport reports a user |
| Bot.CloseEffect | bot.js:74-98 | A close sets `isConnected` false. It writes `logged_out` exactly when the status code is the logged-out code (401) and `reconnecting` otherwise, leaves both codes and the user as they were, and schedules exactly one restart at 5000 ms |
| Bot.QrThenOpen | bot.js:51-68 | A QR event followed by an open event leaves the session connected with the account recorded and both codes cleared. After the QR event alone, the payload was set and the status was `scan_qr` |
| Bot.WelcomeTarget | bot.js:183 | The welcome JID is the part of the user id before the first `:` followed by `@s.whatsapp.net`. It is the id itself plus that suffix when the id has no `:` |
| Bot.NormaliseNumber | bot.js:142-145 | The normalised number consists of digits only |
| Bot.NormaliseNumberSpec | bot.js:142-145 | Only the digits are kept. One leading `0` becomes `62`, any other digit string is unchanged, the result never starts with `0`, and normalising is idempotent |
| Bot.Lead | bot.js:148 | The leading run that `.` matches, capped at four characters, stops only at the cap, the end or a line terminator |
| Bot.Groups | bot.js:148 | Every group of `match(/.{1,4}/g)` has one to four characters |
| Bot.LeadOfPlain | bot.js:148 | On a code without line terminators, a group takes as many characters as the cap allows |
| Bot.GroupsStep | bot.js:148 | A code without line terminators is grouped four characters at a time |
| Bot.GroupsShape | bot.js:148 | The groups put back together give the code. Every group but the last has four characters, and only the empty code has no groups |
| Bot.WithoutJoin | bot.js:148 | Deleting the hyphens from groups joined by `-` gives their concatenation |
| Bot.GroupsWithin | bot.js:148 | A character absent from the code is absent from every group |
| Bot.FormatCodeRoundTrip | bot.js:148 | Deleting the hyphens from a formatted code gives the code back, and an empty code stays empty |
| Bot.GroupsOfThree | bot.js:148 | Two full groups and a last group of one to four characters are split exactly so |
| Bot.PlainSuffix | bot.js:148 | A suffix of a code without line terminators has none either |
| Bot.JoinThree | bot.js:148 | Three groups joined by `-` are the groups with a hyphen between each pair |
| Bot.FormatCodeExample | bot.js:148 | `ABCD1234EFGH` is formatted as `ABCD-1234-EFGH` |
| Bot.Session.RequestPairingCode | bot.js:137-178 | The transport is asked for a code for the normalised number. Success writes `enter_pairing` with the formatted code, clears the QR payload, records the number and returns them. Failure writes `pairing_error` with the message and returns it. A dashboard write broadcasts that write's emissions. With the no-op updater nothing is written or broadcast. At most one code stays set |
| Bot.Session.Start | bot.js:113-133 | A start-up failure writes `error` with its message, broadcasts it, and schedules one restart at 10000 ms. Otherwise a `PAIRING_NUMBER` leads to one pairing request, written to the dashboard and broadcast. Without one, nothing is written, broadcast, scheduled or requested |
| Bot.CommandOfIgnoresCase | bot.js:243-309 | Routing ignores case: a text routes as its lower-cased form does |
| Bot.BangPingUnrouted | bot.js:280 | `!ping` is not a command of this dispatcher; only `ping` is |
| Bot.LowerOfLower | bot.js:243 | Lower-casing a text without upper-case letters changes nothing |
| Bot.IgnoredNotCounted | bot.js:221-227 | A message with no content, or the bot's own, is not counted, gets no reply and asks for no code |
| Bot.UnroutedUnanswered | bot.js:243-313 | A text that matches no route gets no reply |
| Bot.EmptyPairUsage | bot.js:284-292 | `!pair` with an empty argument is answered with the usage text alone and asks for no code |
| Bot.PlannedShape | bot.js:243-313 | A routed command plans at most two replies, all to the chat it came from. Two replies are planned exactly for `!pair` with an argument, and the first is the announcement that a code is being requested |
| Bot.IncomingShape | bot.js:219-319 | The dispatcher replies only to counted messages, at most twice, always in the chat the message came from. Two replies come only from `!pair` with an argument. A code is requested at most once per message, for an all-digit number, and only after the announcement was sent |
| Bot.Session.HandleIncomingMessage | bot.js:219-319 | `messagesProcessed` goes up by exactly one for a message that has content, a key, is not the bot's own and has non-empty text, and is unchanged otherwise. The sends and pairing requests are those of its route, stopping at the send that throws. Nothing is broadcast |
| Bot.Session.AnswerPair | bot.js:294-308 | `!pair` with an argument announces the request, asks the transport for a code for the normalised number, and reports the code or the error. It writes nothing to the dashboard. A throwing announcement ends it before the request |
| Bot.Session.Answer | bot.js:243-313 | A routed message is answered with its command's replies up to the send that throws. A code is requested only for `!pair` with an argument |
| Bot.Session.SendAll | bot.js:316-318 | The replies are sent in order until one throws, and the rest are dropped |
| Bot.Session.OnMessagesUpsert | bot.js:106-110 | Only `notify` batches are handled, and only their first message. The status state gains exactly one processed message when that message is counted, and is otherwise unchanged. Its sends and pairing requests are those of the dispatcher. Nothing is broadcast, no restart is scheduled, and the pending pairing slot is unchanged |
| MessageHandler.Touch | handlers/messageHandler.js:65-70 | A new chat gets a record with count one. A known chat's count goes up by exactly one and keeps its id. The last-active time is set, and every other record is unchanged |
| MessageHandler.RedeliveryCountedTwice | handlers/messageHandler.js:65-75 | There is no de-duplication: the same message delivered twice is counted twice, and other chats are unaffected |
| MessageHandler.MessageBody | handlers/messageHandler.js:55-57 | The body is non-empty only for a first property `conversation` or `extendedTextMessage`. Reading it throws only for a null `extendedTextMessage` |
| MessageHandler.ClassifyTable | handlers/messageHandler.js:135-198 | The switch reaches its default branch exactly for keys outside the command table, and the three menu spellings share one branch |
| MessageHandler.CommandKeyIgnoresPadding | handlers/messageHandler.js:88 | The command key ignores case and surrounding white space |
| MessageHandler.LowerOfSpaces | handlers/messageHandler.js:88 | White space is unchanged by lower-casing |
| MessageHandler.ArgumentsNotRecognised | handlers/messageHandler.js:88 | A key containing a space, such as a command with arguments, matches no command |
| MessageHandler.TemplateIndex | handlers/messageHandler.js:206 | The template index chosen by a draw from [0, 1) is the floor of three times the draw, one of the three templates |
| MessageHandler.DisplayName | handlers/messageHandler.js:90 | The display name is the push name when truthy and never empty |
| MessageHandler.GuardedShape | handlers/messageHandler.js:215-220 | Under the `try`/`catch`, all sends go to the sender. An apology is sent exactly when a send threw, only as the last send, and every other send is the planned one at its place |
| MessageHandler.PlannedToSender | handlers/messageHandler.js:135-213 | Every reply a branch plans goes back to the chat the message came from, and none is the apology |
| MessageHandler.PlannedShape | handlers/messageHandler.js:135-213 | A branch plans at most two replies, two only for `!ping`. It plans none only for text in the default branch that looks like a command or loses the draw |
| MessageHandler.PlannedAutoReply | handlers/messageHandler.js:198-213 | A planned auto-reply comes only from the default branch, for text not starting with `!`, `.` or `/` and a draw under 0.3, and uses one of the three templates |
| MessageHandler.AutoReplyOnlyForChat | handlers/messageHandler.js:198-213 | Every auto-reply sent answers a key outside the command table, for text not starting with `!`, `.` or `/`, with a draw under 0.3 |
| MessageHandler.ApologyOnlyAfterFailure | handlers/messageHandler.js:86-220 | An empty body sends nothing. Every send goes to the sender. An apology is sent exactly when a planned send throws, once, and last |
| MessageHandler.Handle | handlers/messageHandler.js:230 | The displayed name is a prefix of the participant id containing no `@` |
| MessageHandler.GroupNotices | handlers/messageHandler.js:227-238 | There is one notice per participant for `add` and `remove`, and none for other actions |
| MessageHandler.GroupNoticesShape | handlers/messageHandler.js:227-238 | Notices follow the participant order and go to the group. `add` sends a welcome naming and mentioning the participant, and `remove` sends a goodbye naming them |
| MessageHandler.NoticesStep | handlers/messageHandler.js:227-238 | Each loop step appends the next participant's notice |
| MessageHandler.Handler.constructor | handlers/messageHandler.js:7-16 | The store is the parsed user file, or empty when it is missing or does not parse |
| MessageHandler.Handler.HandleMessages | handlers/messageHandler.js:48-83 | A message with no content, no readable body or sent by the bot changes nothing. Any other message updates its chat's record and the processed count by one, even when its body is empty, and then gets the command step's sends |
| MessageHandler.Handler.HandleCommand | handlers/messageHandler.js:85-221 | An empty body sends nothing. Otherwise the body's branch sends its replies under the error handler, and the store is unchanged |
| MessageHandler.Handler.SendGuarded | handlers/messageHandler.js:134-220 | A branch's sends go out in order. A throwing send ends the branch and one apology follows |
| MessageHandler.Handler.HandleGroupParticipantUpdate | handlers/messageHandler.js:223-242 | The loop sends the notices in participant order and stops at the send that throws |
| MyFunc.ContentType | lib/myfunc.js:26-28 | The content type is defined exactly for a non-empty message object, and it is a property of that object |
| MyFunc.TypedContent | lib/myfunc.js:20 | `m.msg` is the content stored under the content type |
| MyFunc.SmsgBody | lib/myfunc.js:19 | The body is undefined only for an empty message object. A non-empty conversation always wins. Otherwise it is the first truthy of `text`, `caption` and `contentText`. Only when all of these are missing or falsy is it the content type |
| MyFunc.PlainTextBody | lib/myfunc.js:19 | The body of a text message is its text |
| MyFunc.CaptionBody | lib/myfunc.js:19 | The body of a captioned image without text is its caption |
| MyFunc.TypeNameBody | lib/myfunc.js:19 | A message without any text falls back to its content type |
| MyFunc.MessageObject.constructor | lib/myfunc.js:5 | A fresh message object has no derived field and no download action |
| MyFunc.MessageObject.Derive | lib/myfunc.js:8-22 | The key fields are set only when there is a key, with `isBaileys` exactly for a 16-character id starting with `BAE5` and `isGroup` exactly for a chat ending in `@g.us`. The content fields are set only when there is a message, with `mtype` equal to the type. A download action is attached only for content with a URL |
| MyFunc.MessageObject.DeriveKey | lib/myfunc.js:8-15 | The key fields are derived, and the content fields are unchanged |
| MyFunc.MessageObject.DeriveContent | lib/myfunc.js:16-22 | The content fields are derived, and the key fields are unchanged |
| MyFunc.SmsgAsWritten | lib/myfunc.js:5-7 | A missing message is returned as is. Every other message makes the function throw a reference error for `proto` |
| MyFunc.Smsg | lib/myfunc.js:5-24 | A missing message is returned unchanged. Otherwise, with a key, `id`, `chat`, `fromMe`, `isBaileys` and `isGroup` are derived from it. Without a key those fields keep their values. With a message, `mtype`, `msg`, `body` and the download flag are derived, the flag set exactly for content with a URL. Without a message those fields keep their values |
| Dashboard.StatusText | public/js/app.js:152-164 | The eight known statuses have their own labels, and every other status shows the unknown label |
| Dashboard.ServerStatusLabels | public/js/app.js:152-164 | Every state the server writes has a label except `error`, which is shown as unknown |
| Dashboard.ServerStatusBadges | public/js/app.js:129-150 | The badge is connected exactly for `connected`, scanning exactly for `scan_qr` and `requesting_pairing`, reconnecting exactly for `reconnecting`, and disconnected otherwise |
| Dashboard.PanelsFor | public/js/app.js:102-127 | The QR panel is visible exactly for `scan_qr`, the pairing result exactly for `enter_pairing`, never both, and the pairing form always |
| Dashboard.UserLabel | public/js/app.js:82-90 | The user row is shown exactly when there is a user, and its label is never empty |
| Dashboard.Pow2 | public/js/app.js:263 | A power of two is at least one |
| Dashboard.Delay | public/js/app.js:263 | Every reconnect delay is between 1000 and 30000 ms |
| Dashboard.DelaySchedule | public/js/app.js:261-269 | The delays are 1, 2, 4, 8 and 16 seconds for the first five retries and 30 seconds from the sixth. They never decrease |
| Dashboard.Pow2Grows | public/js/app.js:263 | Powers of two grow with the exponent |
| Dashboard.RunCounts | public/js/app.js:4-33 | Over any run of events the retry count never decreases, every retry is one reconnect, and every pending timer is between 1 and 30 seconds |
| Dashboard.Exhausted | public/js/app.js:261-273 | Once five retries have been made, no timer is ever set again |
| Dashboard.SequentialBound | public/js/app.js:261-273 | When each timer fires before the next disconnect, the retry count stays at most five |
| Dashboard.StartBound | public/js/app.js:4-5 | From a fresh page, sequentially fired timers make at most five reconnects in all |
| Dashboard.OverlappingTimersExceedCap | public/js/app.js:261-269 | Two disconnects in a row at four retries set two timers, and both retry, so the count reaches six |
| Dashboard.FilterPhone | public/js/app.js:67 | The filtered field holds digits only, and filtering it again changes nothing |
| Dashboard.SubmitCheck | public/js/app.js:190-198 | A number is posted exactly when it has at least ten characters, and unchanged. An empty one gets the missing-number notice |
| Dashboard.ClientCheckMatchesServer | public/js/app.js:190-198 | After the input filter, a number passes the client's check exactly when the server's pairing check accepts it, and the server stores it unchanged |
| Dashboard.KnightBotApp.constructor | public/js/app.js:2-10 | The page starts with no retries, disconnected, no timers and the loaded notice |
| Dashboard.KnightBotApp.UpdateConnectionBadge | public/js/app.js:129-150 | The dot and label follow the status, and nothing else changes |
| Dashboard.KnightBotApp.OnConnect | public/js/app.js:20-26 | Connected is set without resetting the retry count. The dot turns green, a notice is shown, and the QR payload is requested once. Every other field is unchanged |
| Dashboard.KnightBotApp.OnDisconnect | public/js/app.js:28-33 | Connected is cleared, the dot shows disconnected, and the reconnect logic runs. Every other field is unchanged |
| Dashboard.KnightBotApp.AttemptReconnect | public/js/app.js:261-273 | Below five retries, a timer is set with the back-off delay and the attempt is announced. Otherwise only the exhaustion notice is shown. The retry count, reconnects, connection flag and every other field are unchanged |
| Dashboard.KnightBotApp.FireTimer | public/js/app.js:266-269 | A fired timer counts one retry and one reconnect. Nothing shown on the page changes |
| Dashboard.KnightBotApp.OnConnectError | public/js/app.js:35-38 | A connection error is announced with its message, and nothing else changes |
| Dashboard.KnightBotApp.OnBotStatus | public/js/app.js:72-100 | The dot, label, user row and panels follow the received state, and the reconnect state is unchanged |
| Dashboard.KnightBotApp.UpdatePanelVisibility | public/js/app.js:102-127 | The panels follow the status. The pairing code is shown for `enter_pairing` and kept otherwise. A notice is shown for `requesting_pairing`. Every other field is unchanged |
| Dashboard.KnightBotApp.OnPhoneInput | public/js/app.js:64-69 | The phone field keeps only the digits typed. Every other field is unchanged |
| Dashboard.KnightBotApp.RequestPairingCode | public/js/app.js:184-231 | A refused number posts nothing and shows its notice. An accepted one is posted once. The server's answer, or a failed request, decides the notice, and the field is cleared only on success. Only the phone field, the posted list and the notices change |
| Text.DigitsOnly | bot.js:142 | The result holds digits only and is no longer than the input |
| Text.DigitsOnlyOfDigits | app.js:72 | A string of digits is its own digit string |
| Text.DigitsOnlyFixpoint | public/js/app.js:67 | Filtering leaves a string unchanged exactly when it holds digits only |
| Text.DigitsOnlyIdempotent | public/js/app.js:67 | Filtering twice is filtering once |
| Text.DigitsOnlyKeepsDigits | bot.js:142 | Every digit is kept as often as it occurs, in the multiset sense, and nothing else is kept |
| Text.DigitsOnlyAppend | bot.js:142 | Filtering works piece by piece over a concatenation |
| Text.ToLower | handlers/messageHandler.js:88 | Lower-casing keeps the length and maps each character on its own |
| Text.ToLowerIdempotent | bot.js:243 | Lower-casing twice is lower-casing once, and leaves no upper-case letter |
| Text.ToLowerAppend | handlers/messageHandler.js:88 | Lower-casing splits over a concatenation |
| Text.TrimStart | handlers/messageHandler.js:88 | The result is a suffix of the input. Only white space is dropped, and the result does not start with white space |
| Text.TrimEnd | handlers/messageHandler.js:88 | The result is a prefix of the input. Only white space is dropped, and the result does not end with white space |
| Text.TrimEnds | handlers/messageHandler.js:88 | A trimmed string neither starts nor ends with white space |
| Text.TrimUnpadded | handlers/messageHandler.js:88 | Trimming a string without surrounding white space changes nothing |
| Text.TrimIdempotent | bot.js:286 | Trimming twice is trimming once |
| Text.TrimStartSkips | handlers/messageHandler.js:88 | Leading white space does not change the start-trimmed result |
| Text.TrimEndSkips | handlers/messageHandler.js:88 | Trailing white space does not change the end-trimmed result |
| Text.TrimStartAppend | handlers/messageHandler.js:88 | Start-trimming a concatenation trims into the second part only when the first is all white space |
| Text.TrimIgnoresPadding | handlers/messageHandler.js:88 | White space around a string does not change its trimmed form |
| Text.Drop | bot.js:276 | `substring(n)` is the suffix after the first n characters, or empty |
| Text.Before | bot.js:183 | `split(c)[0]` is the longest prefix without c, followed in the input by c when shorter |
| Text.Without | bot.js:148 | Deleting a character leaves no occurrence of it |
| Text.WithoutAppend | bot.js:148 | Deleting works piece by piece over a concatenation |
| Text.WithoutAbsent | bot.js:148 | Deleting an absent character changes nothing |
| Text.DigitChar | app.js:198 | A digit value is written as a digit character |
| Text.DigitValue | app.js:198 | A digit character has a value below ten and is written back as itself |
| Text.Decimal | app.js:198 | A number's decimal text is a non-empty string of digits |
| Text.DecimalRoundTrip | app.js:198 | Reading a number's decimal text gives the number back |
| WaMessage.FirstKey | handlers/messageHandler.js:55 | The first property name exists exactly for a non-empty message object |
| WaMessage.Lookup | lib/myfunc.js:19 | A property is found exactly when the object has one of that name |
| WaMessage.Attempted | handlers/messageHandler.js:215-220 | The sends made before a throw are a prefix of the planned ones. When a send throws they run up to and including it, and otherwise they are all of them |

## Left out

- The Baileys socket itself is not modelled: its construction, authentication state, version fetch, key store and credential saving. Its events are method calls; what is asked of it is recorded.
- The file system is not modelled. The session purge on logout is not represented. `data/users.json` is the `users` map: a missing or unparsable file reads as the empty map. The premium and owner files are never used by a reply.
- Express routing, the socket.io transport, `/api/status` and `getSystemInfo` are I/O.
- QR image rendering is a foreign call. Emissions carry the QR payload instead of the rendered image.
- App.Server.UpdateBotStatus: emits the QR image right after the `bot-status`. In the source the image is emitted when the asynchronous rendering resolves. So it can arrive after later `bot-status` emissions, and on a rendering failure it is emitted as null.
- App.Server.GetQr: sends the `qr-update` at once. In the source it is sent when the asynchronous rendering resolves, so it can arrive after later emissions, and on a rendering failure it is sent as null.
- Strings are sequences of Unicode scalar values, while JavaScript indexes UTF-16 code units. So `Bot.Groups` (`/.{1,4}/g` without the `u` flag), `Text.Drop` (`substring`) and the length tests on phone numbers differ from the source for characters outside the Basic Multilingual Plane. Pairing codes, phone numbers and chat ids are ASCII.
- Timers and the clock are inputs. Restarts and reconnects are recorded as delays, not run.
- `formatUptime` is modelled over whole seconds, because `process.uptime()` is a float.
- `Math.random` is two inputs: the template draw and the acceptance draw.
- DOM updates, notification timing, the clock and system-information refresh of the page, and `fetch` are not modelled. The page keeps only the state its handlers decide on.
- Reply texts and button templates are opaque reply tags. This includes the measured ping latency and the time in the welcome message.
- `handleStatus` only logs. settings.js, lib/lightweight_store.js and lib/lightweight.js are not part of this model.
- The other helpers of lib/myfunc.js are not part of this model: `isUrl`, `getBuffer`, `getSizeMedia`, `sleep`, `reSize` and `generateMessageTag`.
- MyFunc.MessageObject.Derive: does not set `m.sender`, because it depends on the transport's `decodeJid`. That call may throw after the key fields are set, which the model does not represent.
- MyFunc.MessageObject.DeriveKey: does not set `m.sender` and does not model a throw of `decodeJid` after `id`, `chat`, `fromMe`, `isBaileys` and `isGroup` are set.
- MyFunc.SmsgBody: treats an object-valued `conversation` as absent and falls through to the other fields. In the source such a value is truthy and becomes the body.
- The `download` action is modelled as a flag, not a callable.
- Text.ToLower: lower-cases ASCII letters only. JavaScript's `toLowerCase` also maps other Unicode letters. So a command key with non-ASCII capitals may classify differently.
- Bot.IncomingText: treats a `conversation` or `text` holding a non-string value as empty text. In the source such a value is counted and then throws at `toLowerCase`, and the throw is caught. So the model does not count it, while the source does.
- MessageHandler.MessageBody: models a `conversation` holding an object as the empty body. In the source that body is truthy and `toLowerCase` throws inside the caught region, so neither version sends anything.
- MessageHandler.Handler.HandleMessages: the `!info` user count is the size of the store after the message's own record is saved. Re-reading the file is not modelled separately.
- Dashboard.StatusText: does not model the object-prototype lookup quirk. A status such as `constructor` would return an inherited property in the source.
- Dashboard.KnightBotApp.OnBotStatus: does not model the last-update text or the message and user counters shown.
- App.HealthRule: `lastUpdate` is always present in the model. Both the initial state and every merge set it, so the source's presence test always holds.

## Findings

| source | as written | input that shows it | evidently intended | confidence | as-written member | corrected member |
|---|---|---|---|---|---|---|
| lib/myfunc.js:7 | `smsg` reads `proto.WebMessageInfo`, but `proto` is never imported or declared in that file, so the read throws a ReferenceError before any field is derived | any non-null message object | the key and content fields of lines 8-22 are derived and the object is returned | not executed | MyFunc.SmsgAsWritten | MyFunc.Smsg |
