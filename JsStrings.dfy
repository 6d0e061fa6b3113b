/** The string operations of the JavaScript runtime that the front end relies on. */
module JsStrings {

  /** Number of occurrences of `c` in `s`. */
  function Count(s: string, c: char): nat
  {
    if s == [] then 0 else (if s[0] == c then 1 else 0) + Count(s[1..], c)
  }

  /** `parts.join(sep)` for a non-empty list of parts. */
  function Join(parts: seq<string>, sep: char): string
    requires |parts| >= 1
  {
    if |parts| == 1 then parts[0] else parts[0] + [sep] + Join(parts[1..], sep)
  }

  /**
   * `s.split(sep)` for a one-character separator: the maximal runs between
   * separators, so there is always one part more than there are separators,
   * no part contains the separator, and joining the parts gives `s` back.
   */
  function Split(s: string, sep: char): (parts: seq<string>)
    ensures |parts| == Count(s, sep) + 1
    ensures forall k :: 0 <= k < |parts| ==> sep !in parts[k]
    ensures Join(parts, sep) == s
  {
    if s == [] then [""]
    else if s[0] == sep then
      var rest := Split(s[1..], sep);
      assert [""] + rest == [""] + rest;
      [""] + rest
    else
      var rest := Split(s[1..], sep);
      var parts := [[s[0]] + rest[0]] + rest[1..];
      assert parts[1..] == rest[1..];
      assert Join(parts, sep) == s by {
        if |rest| == 1 {
          assert Join(parts, sep) == [s[0]] + rest[0];
        } else {
          assert Join(rest, sep) == rest[0] + [sep] + Join(rest[1..], sep);
        }
        assert s == [s[0]] + s[1..];
      }
      parts
  }

  /** `s.replace(/from/g, to)` for a single character: every `from` becomes `to`. */
  function ReplaceAll(s: string, from: char, to: char): (r: string)
    ensures |r| == |s|
    ensures forall k :: 0 <= k < |s| ==> r[k] == if s[k] == from then to else s[k]
  {
    if s == [] then [] else [if s[0] == from then to else s[0]] + ReplaceAll(s[1..], from, to)
  }

  /** `toLowerCase` on one character; only the ASCII letters have a case here. */
  function LowerChar(c: char): char
  {
    if 'A' <= c <= 'Z' then (c as int - 'A' as int + 'a' as int) as char else c
  }

  function ToLower(s: string): (r: string)
    ensures |r| == |s|
    ensures forall k :: 0 <= k < |s| ==> r[k] == LowerChar(s[k])
  {
    if s == [] then [] else [LowerChar(s[0])] + ToLower(s[1..])
  }

  /** Lower-casing is idempotent and leaves no ASCII capital behind. */
  lemma {:induction false} ToLowerIdempotent(s: string)
    ensures ToLower(ToLower(s)) == ToLower(s)
    ensures forall k :: 0 <= k < |s| ==> !('A' <= ToLower(s)[k] <= 'Z')
  {
    var t := ToLower(s);
    forall k | 0 <= k < |t| ensures ToLower(t)[k] == t[k] && !('A' <= t[k] <= 'Z') {
      LowerCharIdempotent(s[k]);
    }
  }

  function UpperChar(c: char): char
  {
    if 'a' <= c <= 'z' then (c as int - 'a' as int + 'A' as int) as char else c
  }

  /** ASCII `toUpperCase`. */
  function ToUpper(s: string): (r: string)
    ensures |r| == |s|
    ensures forall k :: 0 <= k < |s| ==> r[k] == UpperChar(s[k])
  {
    if s == [] then [] else [UpperChar(s[0])] + ToUpper(s[1..])
  }

  /** Lower-casing ignores case: a string and its upper-case form lower-case alike. */
  lemma {:induction false} ToLowerIgnoresCase(s: string)
    ensures ToLower(ToUpper(s)) == ToLower(s)
  {
    var a, b := ToLower(ToUpper(s)), ToLower(s);
    forall k | 0 <= k < |s| ensures a[k] == b[k] {
      LowerCharIgnoresCase(s[k]);
    }
  }

  lemma LowerCharIgnoresCase(c: char)
    ensures LowerChar(UpperChar(c)) == LowerChar(c)
  {
  }

  lemma LowerCharIdempotent(c: char)
    ensures LowerChar(LowerChar(c)) == LowerChar(c)
    ensures !('A' <= LowerChar(c) <= 'Z')
  {
  }
}
