/** The two JavaScript string operations the forms rely on: `String.prototype.trim`
    and `s.split(sep)[0]`. */
module Text {

  /** A character that `trim` strips: the WhiteSpace and LineTerminator code points of
      ECMAScript (TAB, LF, VT, FF, CR, SPACE, NBSP, the Zs space separators,
      LINE SEPARATOR, PARAGRAPH SEPARATOR and the byte-order mark). */
  predicate IsTrimmable(c: char) {
    || c == '\t' || c == '\n' || c == '\U{000B}' || c == '\U{000C}' || c == '\r'
    || c == ' ' || c == '\U{00A0}' || c == '\U{1680}'
    || ('\U{2000}' <= c <= '\U{200A}')
    || c == '\U{2028}' || c == '\U{2029}' || c == '\U{202F}' || c == '\U{205F}'
    || c == '\U{3000}' || c == '\U{FEFF}'
  }

  /** Every character of `s` is trimmable: the strings for which `s.trim()` is falsy. */
  predicate IsBlank(s: string) {
    forall k :: 0 <= k < |s| ==> IsTrimmable(s[k])
  }

  /** Drops the leading trimmable characters. */
  function TrimStart(s: string): (r: string)
    ensures |r| <= |s| && r == s[|s| - |r|..]
    ensures r == [] || !IsTrimmable(r[0])
    ensures forall k :: 0 <= k < |s| - |r| ==> IsTrimmable(s[k])
  {
    if |s| > 0 && IsTrimmable(s[0]) then TrimStart(s[1..]) else s
  }

  /** Drops the trailing trimmable characters. */
  function TrimEnd(s: string): (r: string)
    ensures |r| <= |s| && r == s[..|r|]
    ensures r == [] || !IsTrimmable(r[|r| - 1])
    ensures forall k :: |r| <= k < |s| ==> IsTrimmable(s[k])
  {
    if |s| > 0 && IsTrimmable(s[|s| - 1]) then TrimEnd(s[..|s| - 1]) else s
  }

  /** `s.trim()`: `TrimStart(s)` with its trailing trimmable characters dropped. The
      result is empty exactly when `s` is blank, neither starts nor ends with a
      trimmable character, and is a prefix of `TrimStart(s)` whose dropped tail is
      all trimmable. */
  function Trim(s: string): (r: string)
    ensures r == [] <==> IsBlank(s)
    ensures r != [] ==> !IsTrimmable(r[0]) && !IsTrimmable(r[|r| - 1])
    ensures r <= TrimStart(s)
    ensures forall k :: |r| <= k < |TrimStart(s)| ==> IsTrimmable(TrimStart(s)[k])
  {
    TrimBothEnds(s);
    TrimEnd(TrimStart(s))
  }

  /** What trimming both ends gives: the prefix of the left-trimmed string left by
      `TrimEnd`, empty exactly when every character of `s` was trimmable. */
  lemma TrimBothEnds(s: string)
    ensures var t := TrimStart(s);
            var r := TrimEnd(t);
            && (r == [] <==> IsBlank(s))
            && (r != [] ==> !IsTrimmable(r[0]))
            && r <= t
            && (forall k :: |r| <= k < |t| ==> IsTrimmable(t[k]))
  {
    var t := TrimStart(s);
    var r := TrimEnd(t);
    if r != [] {
      assert r[0] == t[0];
    }
    if r == [] {
      assert t == [];
    }
  }

  /** Trimming is idempotent: a string that has been trimmed once is left alone. */
  lemma {:induction false} TrimIdempotent(s: string)
    ensures Trim(Trim(s)) == Trim(s)
  {
    var r := Trim(s);
    assert TrimStart(r) == r;
    assert TrimEnd(r) == r;
  }

  /** `s.split(sep)[0]`: the part of `s` before the first `sep`, or all of `s` when it
      has none. The result is a prefix of `s` without `sep`, and when it is shorter
      than `s` it stops exactly at a `sep`. */
  function BeforeFirst(s: string, sep: char): (r: string)
    ensures r <= s
    ensures sep !in r
    ensures |r| < |s| ==> s[|r|] == sep
  {
    if s == [] || s[0] == sep then [] else [s[0]] + BeforeFirst(s[1..], sep)
  }

  /** Splitting again changes nothing: the part before the first `sep` has no `sep`. */
  lemma {:induction false} BeforeFirstIdempotent(s: string, sep: char)
    ensures BeforeFirst(BeforeFirst(s, sep), sep) == BeforeFirst(s, sep)
  {
    if s != [] && s[0] != sep {
      BeforeFirstIdempotent(s[1..], sep);
      var r := BeforeFirst(s[1..], sep);
      assert ([s[0]] + r)[1..] == r;
    }
  }
}
