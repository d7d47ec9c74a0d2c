# Verification-and-blacklist core of a group-chat moderation bot

The bot watches a group chat for spam. A message whose text (or caption) contains a
forbidden word, ignoring case, gets a "prove you are not a robot" challenge with a
button. The bot records a pending verification for the pair (user, chat) and starts a
60-second timer. If the user presses the button in time, the pending row is deleted.
If the timer fires while that same challenge is still pending, the user is written
to the chat's blacklist and a ban is attempted. The pending row is deleted afterwards.
Admins can list the blacklist or unban one user. Only the chat's creator can clear
the whole chat's blacklist. Anyone can ask for a status count.

The model has these modules:

- `Config` holds the timeout of 60 seconds and the forbidden-word list.
- `Records` holds the two tables from models.py. Each table is a `map` keyed by
  `ChatKey(userId, chatId)`, so the unique `(user_id, chat_id)` constraint is
  built in. `Create` fails when the key is already taken.
- `Detector` is the keyword detector. It is a loop with an early return, proved
  against the `Suspicious` specification.
- `Callback` covers the button data `verify_<id>`: Python's `str`, `split("_")` and
  `int`, and the round trip between them.
- `Listing` is the `/blacklist` packing loop, with a 4000-character limit per message.
- `Moderation` has one pure transition function per handler (`OnMessage`, `OnPress`,
  `OnTimeout`, `OnUnban`, `OnClear`). Each returns the new tables and what the
  handler reported. The class `Moderator` holds the two tables as fields. Each of
  its methods performs one handler atomically, step by step. Each state-changing
  method ensures that its effect equals its transition function. The read-only
  status and listing methods state their replies directly.
- `Interleaving` treats a run of the bot as a sequence of events. It proves the
  invariants that hold across runs and both orders of the press/timer race.

Results of calls into the chat platform are parameters of the handlers:

- the id of the sent challenge, or none if sending raised;
- the profile lookup result;
- whether the ban, the notice edit and the fallback edit went through;
- the chat type;
- whether the unban went through;
- the caller's role.

The clock is an integer parameter. A timer firing is a separate event that carries
(user, chat, message id).

Points of the code's behaviour worth noting:

- The status command has no role check.
- A `/blacklist` message may be longer than 4000 characters when a single entry is
  that long. That entry is then sent alone.
- The listing is in whatever order the database returns, not insertion order.
- A timeout escalation whose fallback notice also fails never deletes its pending
  row. See `AbortedEscalationLeavesBoth`.
- The fallback notice says the ban failed even when the ban succeeded and only the
  notice edit after it failed. `OnTimeout` reports `NotBanned` in both cases.

## Model

| member | source | states |
|---|---|---|
| Detector.ContainsForbiddenWords | bot.py:32-40 | false for absent text; otherwise true exactly when some forbidden word, lower-cased, occurs in the lower-cased text |
| Detector.SubstringIn | bot.py:38 | the substring test `word in text` is true exactly when the word occurs at some position of the text |
| Detector.Lower | bot.py:36 | `text.lower()` keeps the length and lower-cases each character with LowerChar |
| Detector.LowerChar | bot.py:36 | lower-casing leaves no capital letter and leaves every other character unchanged |
| Detector.IgnoresCase | bot.py:36-38 | a text and its lower-cased form are judged the same |
| Detector.IgnoresSurroundings | bot.py:37-39 | there is no word-boundary check: a suspicious text stays suspicious inside any longer text |
| Detector.FlagsWordInsideLongerWord | bot.py:37-39 | a forbidden word inside a longer upper-case word is still flagged |
| Callback.IntToString | bot.py:292 | `str(user_id)` has no `_`, starts with `-` exactly for negative ids, and is otherwise all ASCII digits |
| Callback.ParseInt | bot.py:46 | `int(...)` succeeds exactly on ASCII digits with an optional leading sign, and gives a negative value only after `-` |
| Callback.EncodeCallback | bot.py:292 | button data is the prefix `verify_` followed by the decimal user id |
| Callback.Split | bot.py:45 | `split` gives at least one piece, no piece contains the separator, and joining the pieces with it gives back the text |
| Callback.DecodeCallback | bot.py:43-46 | an id is decoded only from data that starts with `verify_`, the prefix the handler is routed on |
| Callback.ParseIntOfString | bot.py:46 | `int(str(i)) == i` for every integer |
| Callback.DecodeEncode | bot.py:43-46 | decoding the data built at bot.py:292 for user u gives u back |
| Callback.EncodeInjective | bot.py:49 | different users get different button data, so the presser check compares against the right user |
| Records.Create | models.py:16-18 | an insert fails exactly when a row with the same (user_id, chat_id) exists; otherwise it adds one row and keeps all others |
| Records.DeleteChat | bot.py:188 | deleting a chat's rows removes exactly the keys of that chat and keeps the other rows unchanged |
| Records.SameUserSeveralChats | models.py:8-18 | a user blacklisted in one chat can still be blacklisted in another, and the first row stays |
| Records.DeleteChatCount | bot.py:188-190 | the rows left plus the rows deleted make up the whole table |
| Listing.ChunkListing | bot.py:158-177 | the messages, run together, are the header followed by every entry in query order; the first message starts with the header; a message is over 4000 characters only when it is a single entry |
| Moderation.MessageBody | bot.py:269-270 | the checked text is the text if it is non-empty, else the caption if that is non-empty, else nothing |
| Moderation.OnMessage | bot.py:266-313 | every outcome is tied to its condition: no text, not suspicious, already blacklisted, already pending, send failed; a challenge is sent and a pending row created iff the text trips the detector, the user is not blacklisted and not pending in that chat (checked in that order), and the send succeeded; the row holds the challenge id and expires at now + 60; otherwise both tables are unchanged; the blacklist is never changed |
| Moderation.OnPress | bot.py:43-71 | unreadable data or a presser other than the encoded user changes nothing; otherwise that user's pending row in the chat is deleted if present; the blacklist is never changed |
| Moderation.EscalationRow | bot.py:86-106 | the blacklist row has the reason "Не прошел верификацию" and created_at at insertion; its names come from the lookup, or are all null when the lookup failed |
| Moderation.OnTimeout | bot.py:74-128 | nothing changes unless a pending row matches user, chat and message id; on a match the blacklist row is inserted whatever the ban result; the outcome is Banned, NotBanned (ban or notice failed, fallback shown) or Aborted (fallback failed too); the pending row is deleted exactly when a notice was shown; a duplicate blacklist key aborts with no change |
| Moderation.OnUnban | bot.py:193-243 | only admins change anything; a missing or non-numeric argument gets the usage or invalid-id reply; only the (user, chat) blacklist row is removed; when it was absent the reply is "not found" and no platform unban is made; the platform is called only for supergroups and channels, and the reply says whether that unban succeeded; other chat types get the manual-unban reply and a failed chat lookup its own reply; every reply names the argument's id; pending is never changed |
| Moderation.OnClear | bot.py:180-190 | only the creator changes anything; every row of the chat is deleted, no other chat's row is touched, and the reported count is the number deleted |
| Moderation.Moderator.ProcessMessage | bot.py:266-313 | the handler's effect on both tables and its outcome are those of OnMessage, and it keeps the tables disjoint |
| Moderation.Moderator.ProcessVerification | bot.py:43-71 | the handler's effect and outcome are those of OnPress, and it keeps the tables disjoint |
| Moderation.Moderator.CheckVerificationTimeout | bot.py:74-128 | the handler's effect and outcome are those of OnTimeout; unless aborted, it keeps the tables disjoint |
| Moderation.Moderator.CmdUnban | bot.py:193-243 | the handler's effect and outcome are those of OnUnban, and it keeps the tables disjoint |
| Moderation.Moderator.CmdClearBlacklist | bot.py:180-190 | the handler's effect and outcome are those of OnClear, and it keeps the tables disjoint |
| Moderation.Moderator.CmdStatus | bot.py:131-138 | the reported number is BlacklistedCount, the count of the chat's blacklist rows, and it is zero iff the chat has none |
| Moderation.Moderator.CmdBlacklist | bot.py:141-177 | non-admins get only the refusal; an empty chat list gets only "Черный список пуст."; otherwise the replies are the header and every row's entry, packed as ChunkListing promises: at least one reply, the first starting with the header |
| Interleaving.StepKeepsDisjoint | bot.py:279-286 | every completed handler keeps pending and blacklist disjoint |
| Interleaving.RunKeepsDisjoint | bot.py:99-128 | from disjoint tables, any run of completed events ends with disjoint tables |
| Interleaving.StepNeverRewritesRows | models.py:14 | rows are only inserted and deleted, never updated |
| Interleaving.RunNeverRewritesBlacklistRows | models.py:14 | a blacklist row present throughout a run keeps its created_at and all other fields |
| Interleaving.PressThenTimer | bot.py:79-85 | if the button wins the race, the challenge is resolved and the later timer is stale and blacklists no one |
| Interleaving.TimerThenPress | bot.py:54-71 | if a completed timeout wins the race, the user is blacklisted and the later press finds nothing and changes nothing |
| Interleaving.OtherUserCannotResolve | bot.py:49-51 | pressing another user's button changes neither table |
| Interleaving.RepeatedMessageIgnored | bot.py:284-286 | a second suspicious message while a challenge is pending changes nothing and sends nothing |
| Interleaving.OlderChallengeTimerIsStale | bot.py:79-85 | a timer for an older challenge message is stale even while a newer challenge is pending |
| Interleaving.FailedBanStillBlacklists | bot.py:99-125 | a failed ban still leaves the user blacklisted with the fixed reason, and the challenge is removed |
| Interleaving.AbortedEscalationLeavesBoth | bot.py:117-128 | if the fallback notice raises, the user stays both pending and blacklisted, and a later press still reports success |
| Interleaving.ClearThenCountZero | bot.py:133 | after the creator clears a chat, the status count is zero |
| Interleaving.EscalationCountsOne | bot.py:99-106 | a completed escalation raises the chat's status count by exactly one |

## Left out

- Bot and dispatcher construction, `init_db`, `main`, polling, logging and the error handler (bot.py:20-29, 260-263, 316-333) are I/O plumbing. So is the ORM persistence layer.
- Calls into the chat platform (`answer`, `edit_text`, `get_chat_member`, `get_chat`, `ban_chat_member`, `unban_chat_member`) are not modelled. Their results are parameters. A failing `get_chat_member` in a role check raises and ends the handler. It changes no table, like a refused caller. In `/blacklist` it also sends no reply at all, while the model would send the admins-only refusal.
- The sleep and task scheduling (bot.py:76, 311) are not modelled. A timer firing is an `Interleaving.TimerFired` event with any (user, chat, message id).
- Interleavings at `await` points inside one handler are not modelled. Each handler is atomic.
- Message routing is not modelled. Commands (`/blacklist`, `/clear_blacklist`, `/unban`, `/help`) and the exact text "статус" go to their own handlers, registered before the catch-all, and never reach the detector. `Interleaving.MessageArrived` and `Moderator.ProcessMessage` stand for a message that did reach `process_message`.
- Detector.LowerChar: lower-cases ASCII and basic Cyrillic capitals only. Full Unicode case mapping, where `str.lower` can change the length, is not modelled.
- Callback.ParseInt: accepts only an optional sign and ASCII digits. Python's `int` also strips surrounding whitespace and accepts non-ASCII digits.
- The `/unban` argument is taken already parsed as `UnbanArg`.
- Message texts, the `@username` formatting, `strftime` dates and the help command (bot.py:160-168, 246-257) are not modelled. Listing entries are opaque strings.
- The alert texts shown on a button press do not affect the tables and are not modelled. The confirmation edit after a successful press is not modelled either.
- `datetime.now()` is an integer parameter. `expires_at` is stored but never read by the bot.
- Reading the environment in config.py is not modelled. Its constants are in `Config`.
- The listing order is not modelled: `.all()` has no ordering, so any order of the chat's rows is allowed.
- The surrogate `id` primary keys of both tables are not modelled.
