/**
 * Case folding used by every command comparison of the game
 * (`body.to_lowercase() == "..."`). The model folds the ASCII letters
 * 'A'..'Z' and leaves every other character unchanged.
 */
module Text {

  predicate IsUpper(c: char) {
    'A' <= c <= 'Z'
  }

  function LowerChar(c: char): (d: char)
    ensures !IsUpper(d)
    ensures !IsUpper(c) ==> d == c
    ensures IsUpper(c) ==> d as int == c as int + 32
  {
    if IsUpper(c) then (c as int - 'A' as int + 'a' as int) as char else c
  }

  /** The lower-case form of a string, folded character by character. */
  function Lower(s: string): (r: string)
    ensures |r| == |s|
    decreases |s|
  {
    if s == [] then [] else [LowerChar(s[0])] + Lower(s[1..])
  }

  /** Each character of the folded string is the folded character. */
  lemma {:induction false} LowerAt(s: string)
    ensures forall i :: 0 <= i < |s| ==> Lower(s)[i] == LowerChar(s[i])
    decreases |s|
  {
    if s != [] {
      LowerAt(s[1..]);
    }
  }

  /** A string with no upper-case letter. */
  predicate IsLower(s: string) {
    forall i :: 0 <= i < |s| ==> !IsUpper(s[i])
  }

  /** Case-insensitive equality with a lower-case phrase, as the game compares commands. */
  predicate Matches(body: string, phrase: string) {
    Lower(body) == phrase
  }

  lemma LowerIsLower(s: string)
    ensures IsLower(Lower(s))
  {
    LowerAt(s);
  }

  /** Folding leaves a lower-case string as it is. */
  lemma LowerKeepsLower(s: string)
    requires IsLower(s)
    ensures Lower(s) == s
  {
    LowerAt(s);
  }

  /** Folding twice is folding once. */
  lemma LowerIdempotent(s: string)
    ensures Lower(Lower(s)) == Lower(s)
  {
    LowerIsLower(s);
    LowerKeepsLower(Lower(s));
  }

  /** Folding distributes over concatenation. */
  lemma {:induction false} LowerAppend(a: string, b: string)
    ensures Lower(a + b) == Lower(a) + Lower(b)
  {
    if a != [] {
      calc {
        Lower(a + b);
        { assert (a + b)[1..] == a[1..] + b; }
        [LowerChar(a[0])] + Lower(a[1..] + b);
        { LowerAppend(a[1..], b); }
        [LowerChar(a[0])] + Lower(a[1..]) + Lower(b);
      }
    } else {
      assert a + b == b;
    }
  }

  /**
   * A command phrase can only be matched when it is itself lower case:
   * the folded body never holds an upper-case letter.
   */
  lemma MatchNeedsLowerPhrase(body: string, phrase: string)
    requires Matches(body, phrase)
    ensures IsLower(phrase)
  {
    LowerIsLower(body);
  }

  /** Typing a lower-case phrase verbatim always matches it. */
  lemma VerbatimMatches(phrase: string)
    requires IsLower(phrase)
    ensures Matches(phrase, phrase)
  {
    LowerKeepsLower(phrase);
  }
}
