/**
 * Runs of the bot as sequences of atomic events, and the claims that hold
 * across them: the disjointness of the two tables, rows that are never
 * rewritten, and the race between a button press and the challenge's timer.
 */
module Interleaving {
  import opened Records
  import opened Config
  import opened Detector
  import opened Callback
  import opened Moderation

  /** The events that change the tables; status and listing only read them. */
  datatype Event =
    | MessageArrived(userId: int, chatId: int, text: Option<string>, caption: Option<string>,
                     now: int, sent: Option<int>)
    | ButtonPressed(presserId: int, chatId: int, data: string)
    | TimerFired(userId: int, chatId: int, messageId: int, now: int, profile: Option<Profile>,
                 banOk: bool, editOk: bool, fallbackOk: bool)
    | UnbanCommand(chatId: int, role: Role, arg: UnbanArg, chatType: Option<ChatType>, unbanOk: bool)
    | ClearCommand(chatId: int, role: Role)

  ghost function Step(t: Tables, e: Event): Tables
  {
    match e
    case MessageArrived(u, c, text, caption, now, sent) => OnMessage(t, u, c, text, caption, now, sent).0
    case ButtonPressed(p, c, data) => OnPress(t, p, c, data).0
    case TimerFired(u, c, m, now, profile, banOk, editOk, fallbackOk) =>
      OnTimeout(t, u, c, m, now, profile, banOk, editOk, fallbackOk).0
    case UnbanCommand(c, role, arg, chatType, unbanOk) => OnUnban(t, c, role, arg, chatType, unbanOk).0
    case ClearCommand(c, role) => OnClear(t, c, role).0
  }

  /** An event runs to its end: only an escalation whose fallback notice raises does not. */
  ghost predicate Completes(t: Tables, e: Event)
  {
    !e.TimerFired? ||
    OnTimeout(t, e.userId, e.chatId, e.messageId, e.now, e.profile, e.banOk, e.editOk, e.fallbackOk).1 != Aborted
  }

  ghost function Run(t: Tables, events: seq<Event>): Tables
    decreases |events|
  {
    if events == [] then t else Run(Step(t, events[0]), events[1..])
  }

  ghost predicate AllComplete(t: Tables, events: seq<Event>)
    decreases |events|
  {
    events == [] || (Completes(t, events[0]) && AllComplete(Step(t, events[0]), events[1..]))
  }

  /** Every completed handler keeps the two tables disjoint. */
  lemma StepKeepsDisjoint(t: Tables, e: Event)
    requires Disjoint(t) && Completes(t, e)
    ensures Disjoint(Step(t, e))
  {
  }

  /** Disjointness holds after any run of completed events from a disjoint start. */
  lemma {:induction false} RunKeepsDisjoint(t: Tables, events: seq<Event>)
    requires Disjoint(t) && AllComplete(t, events)
    ensures Disjoint(Run(t, events))
    decreases |events|
  {
    if events != [] {
      StepKeepsDisjoint(t, events[0]);
      RunKeepsDisjoint(Step(t, events[0]), events[1..]);
    }
  }

  /** A row that survives a step is unchanged by it: rows are inserted and deleted, never updated. */
  lemma StepNeverRewritesRows(t: Tables, e: Event)
    ensures forall k :: k in t.blacklist && k in Step(t, e).blacklist ==> Step(t, e).blacklist[k] == t.blacklist[k]
    ensures forall k :: k in t.pending && k in Step(t, e).pending ==> Step(t, e).pending[k] == t.pending[k]
  {
  }

  /**
   * Over a whole run, a blacklist row present at both ends kept its
   * `created_at` and everything else: it is set once, at insertion.
   */
  lemma {:induction false} RunNeverRewritesBlacklistRows(t: Tables, events: seq<Event>, k: ChatKey)
    requires k in t.blacklist && k in Run(t, events).blacklist
    requires forall i :: 0 <= i <= |events| ==> k in Run(t, events[..i]).blacklist
    ensures Run(t, events).blacklist[k] == t.blacklist[k]
    decreases |events|
  {
    if events != [] {
      var t1 := Step(t, events[0]);
      assert events[..1] == [events[0]];
      assert Run(t, events[..1]) == Run(t1, []);
      StepNeverRewritesRows(t, events[0]);
      forall i | 0 <= i <= |events[1..]|
        ensures k in Run(t1, events[1..][..i]).blacklist
      {
        assert events[..i + 1] == [events[0]] + events[1..][..i];
        assert events[..i + 1][1..] == events[1..][..i];
        assert k in Run(t, events[..i + 1]).blacklist;
      }
      RunNeverRewritesBlacklistRows(t1, events[1..], k);
    }
  }

  /**
   * Button first: the right user's press resolves the challenge, and its timer,
   * firing later, finds nothing and blacklists no one.
   */
  lemma PressThenTimer(t: Tables, u: int, c: int, m: int, now: int, profile: Option<Profile>,
                       banOk: bool, editOk: bool, fallbackOk: bool)
    requires Disjoint(t) && Matches(t, ChatKey(u, c), m)
    ensures var (t1, pressed) := OnPress(t, u, c, EncodeCallback(u));
      var (t2, fired) := OnTimeout(t1, u, c, m, now, profile, banOk, editOk, fallbackOk);
      && pressed == Verified && fired == Stale
      && t2.blacklist == t.blacklist && ChatKey(u, c) !in t2.pending
  {
    DecodeEncode(u);
  }

  /**
   * Timer first: a completed escalation blacklists the user and removes the
   * challenge, and a press arriving afterwards finds nothing and changes nothing.
   */
  lemma TimerThenPress(t: Tables, u: int, c: int, m: int, now: int, profile: Option<Profile>,
                       banOk: bool, editOk: bool, fallbackOk: bool)
    requires Disjoint(t) && Matches(t, ChatKey(u, c), m)
    requires (banOk && editOk) || fallbackOk
    ensures var (t1, fired) := OnTimeout(t, u, c, m, now, profile, banOk, editOk, fallbackOk);
      var (t2, pressed) := OnPress(t1, u, c, EncodeCallback(u));
      && (fired == Banned || fired == NotBanned)
      && ChatKey(u, c) in t1.blacklist && ChatKey(u, c) !in t1.pending
      && pressed == NotFound && t2 == t1
  {
    DecodeEncode(u);
  }

  /** Someone else pressing a user's button changes neither table. */
  lemma OtherUserCannotResolve(t: Tables, u: int, presser: int, c: int)
    requires presser != u
    ensures OnPress(t, presser, c, EncodeCallback(u)) == (t, NotForYou)
  {
    DecodeEncode(u);
  }

  /**
   * A second suspicious message while a challenge is pending sends nothing
   * and keeps the first challenge, timer and expiry included.
   */
  lemma RepeatedMessageIgnored(t: Tables, u: int, c: int, text: Option<string>, caption: Option<string>,
                               now1: int, sent1: Option<int>, now2: int, sent2: Option<int>)
    requires OnMessage(t, u, c, text, caption, now1, sent1).1.ChallengeSent?
    ensures var t1 := OnMessage(t, u, c, text, caption, now1, sent1).0;
      OnMessage(t1, u, c, text, caption, now2, sent2) == (t1, AlreadyPending)
  {
  }

  /**
   * A timer for an older challenge message of the same user and chat is
   * stale even while a newer challenge is pending.
   */
  lemma OlderChallengeTimerIsStale(t: Tables, u: int, c: int, m: int, now: int, profile: Option<Profile>,
                                   banOk: bool, editOk: bool, fallbackOk: bool)
    requires ChatKey(u, c) in t.pending && t.pending[ChatKey(u, c)].messageId != m
    ensures OnTimeout(t, u, c, m, now, profile, banOk, editOk, fallbackOk) == (t, Stale)
  {
  }

  /**
   * When the ban fails the user is blacklisted all the same, with the
   * fixed reason, and the challenge is removed once the fallback notice is shown.
   */
  lemma FailedBanStillBlacklists(t: Tables, u: int, c: int, m: int, now: int, profile: Option<Profile>,
                                 editOk: bool)
    requires Disjoint(t) && Matches(t, ChatKey(u, c), m)
    ensures var (t1, fired) := OnTimeout(t, u, c, m, now, profile, false, editOk, true);
      && fired == NotBanned
      && ChatKey(u, c) in t1.blacklist
      && t1.blacklist[ChatKey(u, c)].reason == Some(FailedVerificationReason)
      && ChatKey(u, c) !in t1.pending
  {
  }

  /**
   * When the fallback notice raises too, the escalation stops before deleting
   * the challenge: the user is left both blacklisted and pending, and a later
   * press of the button still reports a successful verification.
   */
  lemma AbortedEscalationLeavesBoth(t: Tables, u: int, c: int, m: int, now: int, profile: Option<Profile>)
    requires Disjoint(t) && Matches(t, ChatKey(u, c), m)
    ensures var (t1, fired) := OnTimeout(t, u, c, m, now, profile, false, false, false);
      && fired == Aborted
      && !Disjoint(t1)
      && OnPress(t1, u, c, EncodeCallback(u)).1 == Verified
      && ChatKey(u, c) in OnPress(t1, u, c, EncodeCallback(u)).0.blacklist
  {
    DecodeEncode(u);
    var (t1, fired) := OnTimeout(t, u, c, m, now, profile, false, false, false);
    assert ChatKey(u, c) in t1.pending.Keys * t1.blacklist.Keys;
  }

  /** After the creator clears a chat, its status reports zero. */
  lemma ClearThenCountZero(t: Tables, c: int)
    ensures BlacklistedCount(OnClear(t, c, Creator).0, c) == 0
  {
  }

  /** A completed escalation adds exactly one to the chat's count. */
  lemma EscalationCountsOne(t: Tables, u: int, c: int, m: int, now: int, profile: Option<Profile>,
                            banOk: bool, editOk: bool, fallbackOk: bool)
    requires Disjoint(t) && Matches(t, ChatKey(u, c), m)
    ensures BlacklistedCount(OnTimeout(t, u, c, m, now, profile, banOk, editOk, fallbackOk).0, c) ==
      BlacklistedCount(t, c) + 1
  {
    var k := ChatKey(u, c);
    var t1 := OnTimeout(t, u, c, m, now, profile, banOk, editOk, fallbackOk).0;
    assert k !in t.blacklist;
    assert RowsOfChat(t1.blacklist, c) == RowsOfChat(t.blacklist, c) + {k};
  }
}
