/** The string operations the views rely on: ASCII case mapping (standing in
    for `toLowerCase`/`toUpperCase`), substring search (`includes`),
    splitting on a space (`split(" ")`) and joining back, and the initials
    shown in avatar fallbacks. */
module Text {

  function LowerChar(c: char): char {
    if 'A' <= c <= 'Z' then (c as int + 32) as char else c
  }

  function UpperChar(c: char): char {
    if 'a' <= c <= 'z' then (c as int - 32) as char else c
  }

  /** `toLowerCase`, restricted to ASCII letters. */
  function Lower(s: string): string {
    seq(|s|, i requires 0 <= i < |s| => LowerChar(s[i]))
  }

  /** `toUpperCase`, restricted to ASCII letters. */
  function Upper(s: string): string {
    seq(|s|, i requires 0 <= i < |s| => UpperChar(s[i]))
  }

  /** Lower-casing keeps the length, leaves no upper-case ASCII letter behind
      and changes nothing when applied a second time. */
  lemma LowerIsNormal(s: string)
    ensures |Lower(s)| == |s|
    ensures forall i :: 0 <= i < |s| ==> !('A' <= Lower(s)[i] <= 'Z')
    ensures Lower(Lower(s)) == Lower(s)
    ensures Lower(s) == "" <==> s == ""
  {
  }

  /** `needle` occurs at the very start of `hay`. */
  predicate StartsWith(hay: string, needle: string) {
    |needle| <= |hay| && hay[..|needle|] == needle
  }

  /** `hay.includes(needle)`: `needle` occurs somewhere in `hay`; the empty
      string occurs everywhere. */
  predicate Contains(hay: string, needle: string)
    decreases |hay|
  {
    StartsWith(hay, needle) || (hay != [] && Contains(hay[1..], needle))
  }

  /** `needle` sits in `hay` starting at position `k`. */
  predicate OccursAt(hay: string, needle: string, k: int) {
    0 <= k <= |hay| - |needle| && hay[k..k + |needle|] == needle
  }

  /** `includes` holds exactly when there is a position where the needle sits. */
  lemma {:induction false} ContainsAt(hay: string, needle: string)
    ensures Contains(hay, needle) <==> exists k :: OccursAt(hay, needle, k)
    decreases |hay|
  {
    if StartsWith(hay, needle) {
      assert OccursAt(hay, needle, 0);
    } else if hay == [] {
    } else {
      ContainsAt(hay[1..], needle);
      if Contains(hay[1..], needle) {
        var k :| OccursAt(hay[1..], needle, k);
        assert hay[k + 1..k + 1 + |needle|] == hay[1..][k..k + |needle|];
        assert OccursAt(hay, needle, k + 1);
      }
      if k :| OccursAt(hay, needle, k) {
        assert k != 0;
        assert hay[1..][k - 1..k - 1 + |needle|] == hay[k..k + |needle|];
        assert OccursAt(hay[1..], needle, k - 1);
      }
    }
  }

  /** `s.split(" ")`: the maximal space-free pieces of `s`, in order; there is
      always at least one piece, and empty pieces appear around adjacent,
      leading or trailing spaces. */
  function Split(s: string): (parts: seq<string>)
    ensures |parts| >= 1
    ensures forall i :: 0 <= i < |parts| ==> ' ' !in parts[i]
    decreases |s|
  {
    if s == [] then [""]
    else if s[0] == ' ' then [""] + Split(s[1..])
    else
      var rest := Split(s[1..]);
      assert ' ' !in rest[0];
      [[s[0]] + rest[0]] + rest[1..]
  }

  /** `parts.join(" ")`. */
  function Join(parts: seq<string>): string {
    if parts == [] then ""
    else if |parts| == 1 then parts[0]
    else parts[0] + " " + Join(parts[1..])
  }

  /** Splitting on a space and joining with a space gives the string back. */
  lemma {:induction false} JoinSplit(s: string)
    ensures Join(Split(s)) == s
    decreases |s|
  {
    if s != [] {
      JoinSplit(s[1..]);
      var rest := Split(s[1..]);
      if s[0] == ' ' {
        assert Split(s) == [""] + rest;
        assert Join(Split(s)) == "" + " " + Join(rest);
        assert s == " " + s[1..];
      } else {
        assert Split(s) == [[s[0]] + rest[0]] + rest[1..];
        if |rest| == 1 {
          assert Join(Split(s)) == [s[0]] + rest[0];
        } else {
          assert Join(Split(s)) == [s[0]] + rest[0] + " " + Join(rest[1..]);
          assert Join(rest) == rest[0] + " " + Join(rest[1..]);
        }
        assert s == [s[0]] + s[1..];
      }
    }
  }

  /** `parts.map((n) => n[0]).join("")`: the first character of every piece;
      an empty piece yields `undefined`, which `join` renders as nothing.
      A character here is a whole character, where `n[0]` takes one UTF-16
      code unit; the two differ only outside the Basic Multilingual Plane. */
  function FirstChars(parts: seq<string>): string {
    if parts == [] then ""
    else (if parts[0] == "" then "" else [parts[0][0]]) + FirstChars(parts[1..])
  }

  /** `name.split(" ").map((n) => n[0]).join("").toUpperCase()`. */
  function Initials(name: string): string {
    Upper(FirstChars(Split(name)))
  }

  /** Reference definition of the initials: the characters that start a word,
      that is, a non-space character at the start or right after a space. */
  function WordStarts(s: string, afterSpace: bool): string
    decreases |s|
  {
    if s == [] then ""
    else (if s[0] != ' ' && afterSpace then [s[0]] else "") + WordStarts(s[1..], s[0] == ' ')
  }

  /** The first characters of the pieces are exactly the word-start characters. */
  lemma {:induction false} FirstCharsAreWordStarts(s: string)
    ensures FirstChars(Split(s)) == WordStarts(s, true)
    ensures FirstChars(Split(s)[1..]) == WordStarts(s, false)
    decreases |s|
  {
    if s != [] {
      FirstCharsAreWordStarts(s[1..]);
      var rest := Split(s[1..]);
      if s[0] == ' ' {
        assert Split(s) == [""] + rest;
        assert Split(s)[1..] == rest;
      } else {
        assert Split(s) == [[s[0]] + rest[0]] + rest[1..];
        assert Split(s)[1..] == rest[1..];
        assert FirstChars(rest) == (if rest[0] == "" then "" else [rest[0][0]]) + FirstChars(rest[1..]);
      }
    }
  }

  /** One initial at most per piece. */
  lemma {:induction false} FirstCharsLength(parts: seq<string>)
    ensures |FirstChars(parts)| <= |parts|
  {
    if parts != [] {
      FirstCharsLength(parts[1..]);
    }
  }

  /** The initials are the upper-cased word-start characters, at most one
      per space-separated piece of the name. */
  lemma InitialsSpec(name: string)
    ensures Initials(name) == Upper(WordStarts(name, true))
    ensures |Initials(name)| <= |Split(name)|
    ensures forall i :: 0 <= i < |Initials(name)| ==> !('a' <= Initials(name)[i] <= 'z')
  {
    FirstCharsAreWordStarts(name);
    FirstCharsLength(Split(name));
  }
}
