/**
 * The verification state machine and the admin commands of the bot
 * (bot.py), over the two tables of models.py. Each handler is one atomic
 * transition. The results of calls into the chat platform (the id of a sent
 * message, whether a ban or an edit went through, the chat type, the caller's
 * role) are parameters.
 *
 * The `On*` functions are the specification of each handler: they give the
 * tables after the handler and what it reported. The class `Moderator` holds
 * the two tables and performs each handler step by step.
 */
module Moderation {
  import opened Records
  import opened Config
  import opened Detector
  import opened Callback
  import opened Listing

  datatype Tables = Tables(pending: Table<PendingVerification>, blacklist: Table<BlacklistedUser>)

  /** No user is both awaiting verification and blacklisted in the same chat. */
  ghost predicate Disjoint(t: Tables)
  {
    t.pending.Keys !! t.blacklist.Keys
  }

  /** A chat member's status as the platform reports it. */
  datatype Role = Creator | Administrator | Member | Restricted | Left | Kicked

  predicate IsAdmin(role: Role)
  {
    role == Administrator || role == Creator
  }

  datatype ChatType = Private | Group | Supergroup | Channel

  /** What `get_chat_member` tells about a user. */
  datatype Profile = Profile(username: Option<string>, firstName: string, lastName: Option<string>)

  const FailedVerificationReason: string := "Не прошел верификацию"
  const AdminsOnlyReply: string := "Эта команда доступна только администраторам чата."

  // ---------------------------------------------------------------------
  // A suspicious message arrives (process_message)
  // ---------------------------------------------------------------------

  /** `message.text or message.caption`: the first of the two that is non-empty. */
  function MessageBody(text: Option<string>, caption: Option<string>): (body: Option<string>)
    ensures body.Some? <==> (text.Some? && text.value != "") || (caption.Some? && caption.value != "")
    ensures body.Some? ==> body.value != "" && (body == text || body == caption)
    ensures text.Some? && text.value != "" ==> body == text
  {
    if text.Some? && text.value != "" then text
    else if caption.Some? && caption.value != "" then caption
    else None
  }

  datatype MessageOutcome =
    | NoText
    | NotSuspicious
    | AlreadyBlacklisted
    | AlreadyPending
    | ChallengeNotSent        // sending the challenge raised
    | ChallengeSent(messageId: int)

  /**
   * The detector is consulted first, then the blacklist, then the pending
   * table; a challenge and a pending row appear only when all three pass.
   * The pending row records the challenge message and expires one timeout
   * from now. Every other outcome leaves both tables as they were.
   */
  ghost function OnMessage(t: Tables, userId: int, chatId: int, text: Option<string>,
                           caption: Option<string>, now: int, sent: Option<int>): (r: (Tables, MessageOutcome))
    ensures r.0.blacklist == t.blacklist
    ensures r.1.ChallengeSent? <==>
      Suspicious(MessageBody(text, caption)) && ChatKey(userId, chatId) !in t.blacklist &&
      ChatKey(userId, chatId) !in t.pending && sent.Some?
    ensures r.1.ChallengeSent? ==>
      && r.1.messageId == sent.value
      && r.0.pending == t.pending[ChatKey(userId, chatId) := PendingVerification(sent.value, now + VerificationTimeout)]
    ensures !r.1.ChallengeSent? ==> r.0 == t
    ensures r.1 == NoText <==> MessageBody(text, caption).None?
    ensures r.1 == NotSuspicious <==>
      MessageBody(text, caption).Some? && !Suspicious(MessageBody(text, caption))
    ensures r.1 == ChallengeNotSent <==>
      Suspicious(MessageBody(text, caption)) && ChatKey(userId, chatId) !in t.blacklist &&
      ChatKey(userId, chatId) !in t.pending && sent.None?
    ensures r.1 == AlreadyBlacklisted <==>
      Suspicious(MessageBody(text, caption)) && ChatKey(userId, chatId) in t.blacklist
    ensures r.1 == AlreadyPending <==>
      Suspicious(MessageBody(text, caption)) && ChatKey(userId, chatId) !in t.blacklist &&
      ChatKey(userId, chatId) in t.pending
  {
    var body := MessageBody(text, caption);
    var key := ChatKey(userId, chatId);
    if body.None? then (t, NoText)
    else if !Suspicious(body) then (t, NotSuspicious)
    else if key in t.blacklist then (t, AlreadyBlacklisted)
    else if key in t.pending then (t, AlreadyPending)
    else if sent.None? then (t, ChallengeNotSent)
    else
      var row := PendingVerification(sent.value, now + VerificationTimeout);
      (Tables(t.pending[key := row], t.blacklist), ChallengeSent(sent.value))
  }

  // ---------------------------------------------------------------------
  // The challenge button is pressed (process_verification)
  // ---------------------------------------------------------------------

  datatype PressOutcome =
    | Unreadable   // the data is not `verify_<int>`: int() raises
    | NotForYou
    | Verified
    | NotFound

  /**
   * Only the user named in the button may resolve it; then the pending row
   * of that user in the pressed message's chat is deleted, whichever
   * challenge message it belongs to. The blacklist is never touched.
   */
  function OnPress(t: Tables, presserId: int, chatId: int, data: string): (r: (Tables, PressOutcome))
    ensures r.0.blacklist == t.blacklist
    ensures r.1 == Verified <==>
      DecodeCallback(data) == Some(presserId) && ChatKey(presserId, chatId) in t.pending
    ensures r.0.pending == if r.1 == Verified then t.pending - {ChatKey(presserId, chatId)} else t.pending
    ensures r.1 == NotForYou <==> DecodeCallback(data).Some? && DecodeCallback(data) != Some(presserId)
    ensures r.1 == Unreadable <==> DecodeCallback(data).None?
  {
    match DecodeCallback(data)
    case None => (t, Unreadable)
    case Some(userId) =>
      if presserId != userId then (t, NotForYou)
      else
        var key := ChatKey(userId, chatId);
        if key in t.pending then (Tables(t.pending - {key}, t.blacklist), Verified)
        else (t, NotFound)
  }

  // ---------------------------------------------------------------------
  // The timer of a challenge fires (check_verification_timeout)
  // ---------------------------------------------------------------------

  datatype TimeoutOutcome =
    | Stale               // no pending row for this exact challenge
    | InsertFailed        // the blacklist already holds the user: create raises
    | Banned              // banned, and the notice was edited in
    | NotBanned           // fallback notice shown: the ban, or the notice after a successful ban, failed
    | Aborted             // the fallback notice failed as well: the pending row stays

  /** A pending row exists for this user and chat, for this challenge message. */
  predicate Matches(t: Tables, key: ChatKey, messageId: int)
  {
    key in t.pending && t.pending[key].messageId == messageId
  }

  /** The blacklist row written on escalation; names are null when the lookup failed. */
  function EscalationRow(profile: Option<Profile>, now: int): (row: BlacklistedUser)
    ensures row.reason == Some(FailedVerificationReason) && row.createdAt == now
    ensures profile.None? ==> row.username.None? && row.firstName.None? && row.lastName.None?
    ensures profile.Some? ==>
      && row.username == profile.value.username
      && row.firstName == Some(profile.value.firstName)
      && row.lastName == profile.value.lastName
  {
    match profile
    case None => BlacklistedUser(None, None, None, Some(FailedVerificationReason), now)
    case Some(p) => BlacklistedUser(p.username, Some(p.firstName), p.lastName, Some(FailedVerificationReason), now)
  }

  /**
   * A timer changes nothing unless the pending row matches user, chat and
   * message. On a match the blacklist row is written before the ban is tried,
   * so it stays whether or not the ban succeeds; the pending row is deleted
   * last, and only when one of the two notices could be shown.
   */
  function OnTimeout(t: Tables, userId: int, chatId: int, messageId: int, now: int,
                     profile: Option<Profile>, banOk: bool, editOk: bool, fallbackOk: bool): (r: (Tables, TimeoutOutcome))
    ensures !Matches(t, ChatKey(userId, chatId), messageId) ==> r == (t, Stale)
    ensures Matches(t, ChatKey(userId, chatId), messageId) && ChatKey(userId, chatId) in t.blacklist ==>
      r == (t, InsertFailed)
    ensures Matches(t, ChatKey(userId, chatId), messageId) && ChatKey(userId, chatId) !in t.blacklist ==>
      r.0.blacklist == t.blacklist[ChatKey(userId, chatId) := EscalationRow(profile, now)]
    ensures r.1 == Banned <==>
      Matches(t, ChatKey(userId, chatId), messageId) && ChatKey(userId, chatId) !in t.blacklist && banOk && editOk
    ensures r.1 == NotBanned <==>
      Matches(t, ChatKey(userId, chatId), messageId) && ChatKey(userId, chatId) !in t.blacklist &&
      !(banOk && editOk) && fallbackOk
    ensures r.1 == Aborted <==>
      Matches(t, ChatKey(userId, chatId), messageId) && ChatKey(userId, chatId) !in t.blacklist &&
      !(banOk && editOk) && !fallbackOk
    ensures r.1 == Stale <==> !Matches(t, ChatKey(userId, chatId), messageId)
    ensures r.0.pending == if r.1 == Banned || r.1 == NotBanned
      then t.pending - {ChatKey(userId, chatId)} else t.pending
  {
    var key := ChatKey(userId, chatId);
    if !Matches(t, key, messageId) then (t, Stale)
    else match Create(t.blacklist, key, EscalationRow(profile, now))
      case None => (t, InsertFailed)
      case Some(blacklist) =>
        if banOk && editOk then (Tables(t.pending - {key}, blacklist), Banned)
        else if fallbackOk then (Tables(t.pending - {key}, blacklist), NotBanned)
        else (Tables(t.pending, blacklist), Aborted)
  }

  // ---------------------------------------------------------------------
  // Admin commands: /unban, /clear_blacklist, status
  // ---------------------------------------------------------------------

  /** The argument of `/unban`, already parsed. */
  datatype UnbanArg = NoArgument | NotANumber | UserIdArg(userId: int)

  datatype UnbanOutcome =
    | UnbanAdminsOnly
    | UnbanUsage
    | InvalidUserId
    | NotInBlacklist(userId: int)
    | Unbanned(userId: int)           // removed and unbanned on the platform
    | UnbanFailed(userId: int)        // removed, the platform refused the unban
    | UnbanManually(userId: int)      // removed, the chat type has no unban
    | ChatTypeUnknown(userId: int)    // removed, the chat lookup failed

  /** Whether the handler asked the platform to lift a ban. */
  predicate CallsPlatformUnban(o: UnbanOutcome)
  {
    o.Unbanned? || o.UnbanFailed?
  }

  /**
   * `/unban <id>` deletes only that user's row in this chat. When there was
   * no row, it says so and never calls the platform's unban; the platform is
   * called only for supergroups and channels.
   */
  function OnUnban(t: Tables, chatId: int, role: Role, arg: UnbanArg,
                   chatType: Option<ChatType>, unbanOk: bool): (r: (Tables, UnbanOutcome))
    ensures r.0.pending == t.pending
    ensures r.0.blacklist == if IsAdmin(role) && arg.UserIdArg?
      then t.blacklist - {ChatKey(arg.userId, chatId)} else t.blacklist
    ensures !IsAdmin(role) ==> r.1 == UnbanAdminsOnly
    ensures r.1.NotInBlacklist? <==>
      IsAdmin(role) && arg.UserIdArg? && ChatKey(arg.userId, chatId) !in t.blacklist
    ensures r.1.NotInBlacklist? ==> r.0 == t && !CallsPlatformUnban(r.1)
    ensures CallsPlatformUnban(r.1) <==>
      IsAdmin(role) && arg.UserIdArg? && ChatKey(arg.userId, chatId) in t.blacklist &&
      (chatType == Some(Supergroup) || chatType == Some(Channel))
    ensures CallsPlatformUnban(r.1) ==> (r.1.Unbanned? <==> unbanOk)
    ensures r.1.ChatTypeUnknown? <==>
      IsAdmin(role) && arg.UserIdArg? && ChatKey(arg.userId, chatId) in t.blacklist && chatType.None?
    ensures r.1.UnbanManually? <==>
      IsAdmin(role) && arg.UserIdArg? && ChatKey(arg.userId, chatId) in t.blacklist &&
      chatType.Some? && chatType.value != Supergroup && chatType.value != Channel
    ensures IsAdmin(role) && arg.NoArgument? ==> r.1 == UnbanUsage
    ensures IsAdmin(role) && arg.NotANumber? ==> r.1 == InvalidUserId
    ensures (r.1.NotInBlacklist? || r.1.Unbanned? || r.1.UnbanFailed? || r.1.UnbanManually? ||
             r.1.ChatTypeUnknown?) ==> arg.UserIdArg? && r.1.userId == arg.userId
  {
    if !IsAdmin(role) then (t, UnbanAdminsOnly)
    else match arg
      case NoArgument => (t, UnbanUsage)
      case NotANumber => (t, InvalidUserId)
      case UserIdArg(userId) =>
        var key := ChatKey(userId, chatId);
        if key !in t.blacklist then (t, NotInBlacklist(userId))
        else
          var after := Tables(t.pending, t.blacklist - {key});
          match chatType
          case None => (after, ChatTypeUnknown(userId))
          case Some(kind) =>
            if kind == Supergroup || kind == Channel then
              (after, if unbanOk then Unbanned(userId) else UnbanFailed(userId))
            else (after, UnbanManually(userId))
  }

  datatype ClearOutcome = CreatorOnly | Cleared(count: nat)

  /**
   * `/clear_blacklist`, creator only: deletes every row of this chat and no
   * other chat's rows, and reports how many it deleted.
   */
  function OnClear(t: Tables, chatId: int, role: Role): (r: (Tables, ClearOutcome))
    ensures r.0.pending == t.pending
    ensures role != Creator ==> r == (t, CreatorOnly)
    ensures role == Creator ==>
      r.1 == Cleared(|RowsOfChat(t.blacklist, chatId)|) && RowsOfChat(r.0.blacklist, chatId) == {}
    ensures r.0.blacklist.Keys <= t.blacklist.Keys
    ensures forall k :: k in t.blacklist && k.chatId != chatId ==>
      k in r.0.blacklist && r.0.blacklist[k] == t.blacklist[k]
  {
    if role != Creator then (t, CreatorOnly)
    else (Tables(t.pending, DeleteChat(t.blacklist, chatId)), Cleared(|RowsOfChat(t.blacklist, chatId)|))
  }

  /** The count that the status reply shows: users blacklisted in this chat. */
  function BlacklistedCount(t: Tables, chatId: int): nat
  {
    |RowsOfChat(t.blacklist, chatId)|
  }

  /** `order` is what the database returns for one chat: each of its rows once, in some order. */
  ghost predicate ListsChat(blacklist: Table<BlacklistedUser>, chatId: int, order: seq<ChatKey>)
  {
    && (forall i :: 0 <= i < |order| ==> order[i] in blacklist && order[i].chatId == chatId)
    && (forall k :: k in blacklist && k.chatId == chatId ==> k in order)
    && (forall i, j :: 0 <= i < j < |order| ==> order[i] != order[j])
  }

  // ---------------------------------------------------------------------
  // The bot's state and its handlers
  // ---------------------------------------------------------------------

  class Moderator {
    var pending: Table<PendingVerification>
    var blacklist: Table<BlacklistedUser>

    function State(): Tables
      reads this
    {
      Tables(pending, blacklist)
    }

    constructor ()
      ensures State() == Tables(map[], map[])
      ensures Disjoint(State())
    {
      pending := map[];
      blacklist := map[];
    }

    /** process_message; a `ChallengeSent` outcome schedules the challenge's timer. */
    method ProcessMessage(userId: int, chatId: int, text: Option<string>, caption: Option<string>,
                          now: int, sent: Option<int>) returns (outcome: MessageOutcome)
      modifies this
      ensures (State(), outcome) == OnMessage(old(State()), userId, chatId, text, caption, now, sent)
      ensures Disjoint(old(State())) ==> Disjoint(State())
    {
      var body := MessageBody(text, caption);
      if body.None? {
        return NoText;
      }
      var flagged := ContainsForbiddenWords(body);
      if !flagged {
        return NotSuspicious;
      }
      var key := ChatKey(userId, chatId);
      if key in blacklist {
        return AlreadyBlacklisted;
      }
      if key in pending {
        return AlreadyPending;
      }
      if sent.None? {
        return ChallengeNotSent;
      }
      var created := Create(pending, key, PendingVerification(sent.value, now + VerificationTimeout));
      pending := created.value;
      outcome := ChallengeSent(sent.value);
    }

    /** process_verification: `presserId` pressed the button carrying `data` in chat `chatId`. */
    method ProcessVerification(presserId: int, chatId: int, data: string) returns (outcome: PressOutcome)
      modifies this
      ensures (State(), outcome) == OnPress(old(State()), presserId, chatId, data)
      ensures Disjoint(old(State())) ==> Disjoint(State())
    {
      var decoded := DecodeCallback(data);
      if decoded.None? {
        return Unreadable;
      }
      var userId := decoded.value;
      if presserId != userId {
        return NotForYou;
      }
      var key := ChatKey(userId, chatId);
      if key in pending {
        pending := pending - {key};
        outcome := Verified;
      } else {
        outcome := NotFound;
      }
    }

    /** check_verification_timeout, from the moment its sleep ends. */
    method CheckVerificationTimeout(userId: int, chatId: int, messageId: int, now: int,
                                    profile: Option<Profile>, banOk: bool, editOk: bool,
                                    fallbackOk: bool) returns (outcome: TimeoutOutcome)
      modifies this
      ensures (State(), outcome) ==
        OnTimeout(old(State()), userId, chatId, messageId, now, profile, banOk, editOk, fallbackOk)
      ensures Disjoint(old(State())) && outcome != Aborted ==> Disjoint(State())
    {
      var key := ChatKey(userId, chatId);
      if !(key in pending && pending[key].messageId == messageId) {
        return Stale;
      }
      var inserted := Create(blacklist, key, EscalationRow(profile, now));
      if inserted.None? {
        return InsertFailed;
      }
      blacklist := inserted.value;
      if banOk && editOk {
        outcome := Banned;
      } else if fallbackOk {
        outcome := NotBanned;
      } else {
        return Aborted;
      }
      pending := pending - {key};
    }

    /** cmd_unban. */
    method CmdUnban(chatId: int, role: Role, arg: UnbanArg, chatType: Option<ChatType>,
                    unbanOk: bool) returns (outcome: UnbanOutcome)
      modifies this
      ensures (State(), outcome) == OnUnban(old(State()), chatId, role, arg, chatType, unbanOk)
      ensures Disjoint(old(State())) ==> Disjoint(State())
    {
      if !IsAdmin(role) {
        return UnbanAdminsOnly;
      }
      if arg.NoArgument? {
        return UnbanUsage;
      }
      if arg.NotANumber? {
        return InvalidUserId;
      }
      var userId := arg.userId;
      var key := ChatKey(userId, chatId);
      var deleted := key in blacklist;
      blacklist := blacklist - {key};
      if !deleted {
        return NotInBlacklist(userId);
      }
      if chatType.None? {
        return ChatTypeUnknown(userId);
      }
      if chatType.value == Supergroup || chatType.value == Channel {
        outcome := if unbanOk then Unbanned(userId) else UnbanFailed(userId);
      } else {
        outcome := UnbanManually(userId);
      }
    }

    /** cmd_clear_blacklist. */
    method CmdClearBlacklist(chatId: int, role: Role) returns (outcome: ClearOutcome)
      modifies this
      ensures (State(), outcome) == OnClear(old(State()), chatId, role)
      ensures Disjoint(old(State())) ==> Disjoint(State())
    {
      if role != Creator {
        return CreatorOnly;
      }
      var deletedCount := |RowsOfChat(blacklist, chatId)|;
      blacklist := DeleteChat(blacklist, chatId);
      outcome := Cleared(deletedCount);
    }

    /** cmd_status: open to every member, it reports this chat's blacklist size. */
    method CmdStatus(chatId: int) returns (count: nat)
      ensures count == BlacklistedCount(State(), chatId)
      ensures count == 0 <==> forall k :: k in blacklist ==> k.chatId != chatId
    {
      count := BlacklistedCount(State(), chatId);
    }

    /**
     * cmd_blacklist: admins only. `order` is the database's answer for this
     * chat and `entries[i]` the rendered text of row `order[i]`.
     */
    method CmdBlacklist(chatId: int, role: Role, order: seq<ChatKey>, entries: seq<string>)
      returns (replies: seq<string>)
      requires ListsChat(blacklist, chatId, order) && |entries| == |order|
      ensures !IsAdmin(role) ==> replies == [AdminsOnlyReply]
      ensures IsAdmin(role) && RowsOfChat(blacklist, chatId) == {} ==> replies == [EmptyListingReply]
      ensures IsAdmin(role) && RowsOfChat(blacklist, chatId) != {} ==>
        |replies| >= 1 && ListingHeader <= replies[0] &&
        Concat(replies) == ListingHeader + Concat(entries) &&
        forall i :: 0 <= i < |replies| ==> |replies[i]| <= MaxMessageLength || replies[i] in entries
    {
      if !IsAdmin(role) {
        return [AdminsOnlyReply];
      }
      if |order| == 0 {
        return [EmptyListingReply];
      }
      assert order[0] in RowsOfChat(blacklist, chatId);
      replies := ChunkListing(entries);
    }
  }
}
