/**
 * The `/blacklist` reply (bot.py): one rendered entry per blacklisted user,
 * packed after a header into messages of at most 4000 characters. The text of
 * an entry (id, names, reason, date) is not modelled; entries are opaque.
 */
module Listing {

  const MaxMessageLength: nat := 4000
  const ListingHeader: string := "Черный список пользователей:\n\n"
  const EmptyListingReply: string := "Черный список пуст."

  /** All pieces run together, in order. */
  function Concat(pieces: seq<string>): string
  {
    if pieces == [] then [] else Concat(pieces[..|pieces| - 1]) + pieces[|pieces| - 1]
  }

  lemma ConcatSnoc(pieces: seq<string>, last: string)
    ensures Concat(pieces + [last]) == Concat(pieces) + last
  {
  }

  /**
   * The packing loop: an entry that would push the current message past
   * the limit sends the message and starts the next one with that entry.
   * Nothing is lost or reordered, the first message starts with the header,
   * and a message is over the limit only when it is one entry on its own.
   */
  method ChunkListing(entries: seq<string>) returns (messages: seq<string>)
    ensures |messages| >= 1
    ensures Concat(messages) == ListingHeader + Concat(entries)
    ensures ListingHeader <= messages[0]
    ensures forall i :: 0 <= i < |messages| ==>
      |messages[i]| <= MaxMessageLength || messages[i] in entries
  {
    var text := ListingHeader;
    messages := [];
    for i := 0 to |entries|
      invariant Concat(messages) + text == ListingHeader + Concat(entries[..i])
      invariant messages == [] ==> ListingHeader <= text
      invariant messages != [] ==> ListingHeader <= messages[0]
      invariant |text| <= MaxMessageLength || text in entries
      invariant forall j :: 0 <= j < |messages| ==>
        |messages[j]| <= MaxMessageLength || messages[j] in entries
    {
      var userInfo := entries[i];
      assert entries[..i + 1] == entries[..i] + [userInfo];
      ConcatSnoc(entries[..i], userInfo);
      ghost var sofar := ListingHeader + Concat(entries[..i + 1]);
      assert sofar == (ListingHeader + Concat(entries[..i])) + userInfo;
      assert Concat(messages) + (text + userInfo) == (Concat(messages) + text) + userInfo;
      if |text + userInfo| > MaxMessageLength {
        ConcatSnoc(messages, text);
        messages := messages + [text];
        text := userInfo;
      } else {
        text := text + userInfo;
      }
    }
    assert entries[..|entries|] == entries;
    ConcatSnoc(messages, text);
    messages := messages + [text];
  }
}
