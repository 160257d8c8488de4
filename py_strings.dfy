/** The few `str` methods the core relies on, with Python's semantics:
    `split` on a single separator character, `strip` with no argument, and
    `startswith`. */
module PyStrings {

  /** The characters `str.isspace()` accepts, which `str.strip()` removes. */
  predicate IsSpace(c: char)
  {
    ('\t' <= c <= '\r') || ('\U{1C}' <= c <= '\U{1F}') || c == ' '
    || c == '\U{85}' || c == '\U{A0}' || c == '\U{1680}'
    || ('\U{2000}' <= c <= '\U{200A}') || c == '\U{2028}' || c == '\U{2029}'
    || c == '\U{202F}' || c == '\U{205F}' || c == '\U{3000}'
  }

  /** The parts rejoined with the separator between consecutive parts. */
  function Join(parts: seq<string>, sep: char): string
    requires |parts| > 0
  {
    if |parts| == 1 then parts[0] else parts[0] + [sep] + Join(parts[1..], sep)
  }

  /** `s.split(sep)` for a one-character separator: the maximal runs between
      separators, empty runs included, so there is always one more part than
      there are separators. */
  function Split(s: string, sep: char): (parts: seq<string>)
    ensures |parts| > 0
    ensures forall i :: 0 <= i < |parts| ==> sep !in parts[i]
  {
    if |s| == 0 then [""]
    else
      var rest := Split(s[1..], sep);
      if s[0] == sep then [""] + rest
      else [[s[0]] + rest[0]] + rest[1..]
  }

  /** Rejoining the parts of `s.split(sep)` with the separator gives `s`
      back. */
  lemma {:induction false} SplitJoins(s: string, sep: char)
    ensures Join(Split(s, sep), sep) == s
    decreases |s|
  {
    if |s| > 0 {
      var rest := Split(s[1..], sep);
      SplitJoins(s[1..], sep);
      var parts := Split(s, sep);
      if s[0] == sep {
        assert parts[1..] == rest;
      } else if |rest| > 1 {
        assert parts[1..] == rest[1..];
      }
    }
  }

  /** Splitting is determined by the joined text: any separator-free parts
      that rejoin to `s` are `s.split(sep)`. */
  lemma {:induction false} SplitUnique(s: string, sep: char, parts: seq<string>)
    requires |parts| > 0 && Join(parts, sep) == s
    requires forall i :: 0 <= i < |parts| ==> sep !in parts[i]
    ensures parts == Split(s, sep)
    decreases |s|
  {
    if |s| > 0 && |parts[0]| == 0 {
      assert s[0] == sep && s[1..] == Join(parts[1..], sep);
      SplitUnique(s[1..], sep, parts[1..]);
    } else if |s| > 0 {
      var tail := [parts[0][1..]] + parts[1..];
      assert Join(tail, sep) == s[1..] by {
        if |parts| > 1 {
          assert tail[1..] == parts[1..];
        }
      }
      assert s[0] == parts[0][0] && s[0] != sep;
      SplitUnique(s[1..], sep, tail);
      assert [s[0]] + tail[0] == parts[0];
      assert [parts[0]] + tail[1..] == parts;
    }
  }

  /** The number of leading characters that `strip` removes. */
  function LeadingSpaces(s: string): (n: nat)
    ensures n <= |s|
    ensures forall k :: 0 <= k < n ==> IsSpace(s[k])
    ensures n < |s| ==> !IsSpace(s[n])
  {
    if |s| > 0 && IsSpace(s[0]) then 1 + LeadingSpaces(s[1..]) else 0
  }

  /** The length of `s` once its trailing whitespace is removed. */
  function TrimmedEnd(s: string): (n: nat)
    ensures n <= |s|
    ensures forall k :: n <= k < |s| ==> IsSpace(s[k])
    ensures n > 0 ==> !IsSpace(s[n - 1])
  {
    if |s| > 0 && IsSpace(s[|s| - 1]) then TrimmedEnd(s[..|s| - 1]) else |s|
  }

  /** `s.strip()`: the text between the leading and the trailing whitespace. */
  function Strip(s: string): string
  {
    var i := LeadingSpaces(s);
    var j := TrimmedEnd(s);
    if j <= i then "" else s[i..j]
  }

  /** `strip` removes whitespace only, from both ends, and leaves text that
      neither starts nor ends with whitespace; all-whitespace text becomes
      empty. */
  lemma StripBounds(s: string)
    ensures exists i, j :: 0 <= i <= j <= |s| && Strip(s) == s[i..j]
                           && (forall k :: 0 <= k < i ==> IsSpace(s[k]))
                           && (forall k :: j <= k < |s| ==> IsSpace(s[k]))
    ensures |Strip(s)| > 0 ==> !IsSpace(Strip(s)[0]) && !IsSpace(Strip(s)[|Strip(s)| - 1])
    ensures (forall k :: 0 <= k < |s| ==> IsSpace(s[k])) ==> Strip(s) == ""
  {
    var i := LeadingSpaces(s);
    var j := TrimmedEnd(s);
    if j <= i {
      assert Strip(s) == s[i..i];
    } else {
      assert Strip(s) == s[i..j];
    }
  }

  /** Stripping twice changes nothing more. */
  lemma StripIdempotent(s: string)
    ensures Strip(Strip(s)) == Strip(s)
  {
    var r := Strip(s);
    StripBounds(s);
    assert LeadingSpaces(r) == 0;
    assert TrimmedEnd(r) == |r|;
  }

  /** `s.startswith(prefix)`. */
  predicate StartsWith(s: string, prefix: string)
  {
    |prefix| <= |s| && s[..|prefix|] == prefix
  }
}
