/**
 * The keyword spam detector `contains_forbidden_words` (bot.py): a message is
 * suspicious when some forbidden word, lower-cased, occurs anywhere in the
 * lower-cased text. There is no tokenisation and no word-boundary check.
 */
module Detector {
  import opened Records
  import opened Config

  predicate IsCapital(c: char)
  {
    'A' <= c <= 'Z' || 'А' <= c <= 'Я' || c == 'Ё'
  }

  /**
   * Per-character lower-casing: ASCII capitals, the Cyrillic capitals А..Я
   * and Ё. Every other character is left as it is.
   */
  function LowerChar(c: char): (l: char)
    ensures !IsCapital(l)
    ensures !IsCapital(c) ==> l == c
  {
    if 'A' <= c <= 'Z' then (c as int + 32) as char
    else if 'А' <= c <= 'Я' then (c as int + 32) as char
    else if c == 'Ё' then 'ё'
    else c
  }

  /** `str.lower`, character by character. */
  function Lower(s: string): (r: string)
    ensures |r| == |s|
    ensures forall i :: 0 <= i < |s| ==> r[i] == LowerChar(s[i])
  {
    seq(|s|, i requires 0 <= i < |s| => LowerChar(s[i]))
  }

  /** `needle in hay` for strings: needle is a contiguous piece of hay. */
  ghost predicate Occurs(needle: string, hay: string)
  {
    exists k :: 0 <= k <= |hay| && needle <= hay[k..]
  }

  /** The detector's specification. */
  ghost predicate Suspicious(text: Option<string>)
  {
    text.Some? &&
    exists j :: 0 <= j < |ForbiddenWords| && Occurs(Lower(ForbiddenWords[j]), Lower(text.value))
  }

  /** Python's substring test, as a search from the front of `hay`. */
  function SubstringIn(needle: string, hay: string): (b: bool)
    ensures b <==> Occurs(needle, hay)
    decreases |hay|
  {
    if needle <= hay then
      assert hay[0..] == hay;
      true
    else if hay == [] then
      false
    else
      var b := SubstringIn(needle, hay[1..]);
      assert forall k :: 1 <= k <= |hay| ==> hay[1..][k - 1..] == hay[k..];
      assert Occurs(needle, hay) ==> Occurs(needle, hay[1..]) by {
        if Occurs(needle, hay) {
          var k :| 0 <= k <= |hay| && needle <= hay[k..];
          assert k != 0;
          assert needle <= hay[1..][k - 1..];
        }
      }
      b
  }

  /**
   * `contains_forbidden_words`: false for an absent text; otherwise a search
   * over the forbidden words that stops at the first one found.
   */
  method ContainsForbiddenWords(text: Option<string>) returns (found: bool)
    ensures found <==> Suspicious(text)
  {
    if text.None? {
      return false;
    }
    var textLower := Lower(text.value);
    for i := 0 to |ForbiddenWords|
      invariant forall j :: 0 <= j < i ==> !Occurs(Lower(ForbiddenWords[j]), textLower)
    {
      if SubstringIn(Lower(ForbiddenWords[i]), textLower) {
        return true;
      }
    }
    return false;
  }

  lemma LowerIdempotent(s: string)
    ensures Lower(Lower(s)) == Lower(s)
  {
  }

  lemma LowerConcat(a: string, b: string)
    ensures Lower(a + b) == Lower(a) + Lower(b)
  {
  }

  /** Case does not matter: a text and its lower-cased form are judged alike. */
  lemma IgnoresCase(t: string)
    ensures Suspicious(Some(t)) <==> Suspicious(Some(Lower(t)))
  {
    LowerIdempotent(t);
  }

  /**
   * No word boundaries: a suspicious text stays suspicious whatever
   * surrounds it, so a forbidden word inside a longer word still matches.
   */
  lemma IgnoresSurroundings(before: string, t: string, after: string)
    requires Suspicious(Some(t))
    ensures Suspicious(Some(before + t + after))
  {
    var j :| 0 <= j < |ForbiddenWords| && Occurs(Lower(ForbiddenWords[j]), Lower(t));
    var w := Lower(ForbiddenWords[j]);
    var k :| 0 <= k <= |Lower(t)| && w <= Lower(t)[k..];
    LowerConcat(before + t, after);
    LowerConcat(before, t);
    var whole := Lower(before) + Lower(t) + Lower(after);
    assert Lower(before + t + after) == whole;
    assert whole[|before| + k..] == Lower(t)[k..] + Lower(after);
    assert w <= whole[|before| + k..];
    assert Occurs(w, Lower(before + t + after));
  }

  /** A discount word hidden inside a longer word is flagged. */
  lemma FlagsWordInsideLongerWord()
    ensures Suspicious(Some("СУПЕРСКИДКА"))
  {
    var t := "СУПЕРСКИДКА";
    assert ForbiddenWords[11] == "скидка";
    assert Lower(ForbiddenWords[11]) == "скидка";
    assert Lower(t) == "суперскидка";
    assert "скидка" <= Lower(t)[5..];
  }
}
