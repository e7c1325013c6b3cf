/**
 * The few pieces of the Java string library that the gateway relies on:
 * `Character.isWhitespace`, commons-lang3 `StringUtils.isBlank`/`isAnyBlank`,
 * `String.trim`, `String.replace` of a one-character target by "",
 * `String.startsWith`, and the rendering of a null reference by `+`.
 */
module JavaText {
  import opened Wrappers

  /** `Character.isWhitespace`: the Unicode space, line and paragraph separators
      except the three non-breaking spaces, plus U+0009..U+000D and U+001C..U+001F. */
  predicate IsWhitespace(c: char) {
    || ('\t' <= c <= '\r')
    || ('\U{001C}' <= c <= ' ')
    || c == '\U{1680}'
    || ('\U{2000}' <= c <= '\U{2006}')
    || ('\U{2008}' <= c <= '\U{200A}')
    || c == '\U{2028}' || c == '\U{2029}' || c == '\U{205F}' || c == '\U{3000}'
  }

  /** `StringUtils.isBlank` on a non-null string: empty or whitespace only. */
  predicate IsBlank(s: string) {
    forall i :: 0 <= i < |s| ==> IsWhitespace(s[i])
  }

  /** `StringUtils.isBlank` on a possibly-null string. */
  predicate IsBlankOrNull(s: Option<string>) {
    s.None? || IsBlank(s.value)
  }

  /** `StringUtils.isAnyBlank(css...)`: some argument is blank. */
  predicate IsAnyBlank(ss: seq<string>) {
    exists i :: 0 <= i < |ss| && IsBlank(ss[i])
  }

  /** `s.startsWith(prefix)`. */
  predicate StartsWith(s: string, prefix: string) {
    prefix <= s
  }

  /** The characters `String.trim` removes from either end: code point at most U+0020. */
  predicate Trimmable(c: char) {
    c <= ' '
  }

  /** Number of trimmable characters at the start of `s`. */
  function LeadingTrimmable(s: string): (n: nat)
    ensures n <= |s|
    ensures forall i :: 0 <= i < n ==> Trimmable(s[i])
    ensures n < |s| ==> !Trimmable(s[n])
  {
    if |s| > 0 && Trimmable(s[0]) then 1 + LeadingTrimmable(s[1..]) else 0
  }

  /** Number of trimmable characters at the end of `s`. */
  function TrailingTrimmable(s: string): (n: nat)
    ensures n <= |s|
    ensures forall i :: |s| - n <= i < |s| ==> Trimmable(s[i])
    ensures n < |s| ==> !Trimmable(s[|s| - n - 1])
  {
    if |s| > 0 && Trimmable(s[|s| - 1]) then 1 + TrailingTrimmable(s[..|s| - 1]) else 0
  }

  /** Neither end of `s` is trimmable. */
  predicate IsTrimmed(s: string) {
    s == [] || (!Trimmable(s[0]) && !Trimmable(s[|s| - 1]))
  }

  /** `s.trim()`: the longest slice of `s` whose ends are not trimmable,
      obtained by cutting only trimmable characters from both ends. */
  function Trim(s: string): (r: string)
    ensures IsTrimmed(r)
    ensures LeadingTrimmable(s) + |r| <= |s|
    ensures r == s[LeadingTrimmable(s)..LeadingTrimmable(s) + |r|]
    ensures forall i :: LeadingTrimmable(s) + |r| <= i < |s| ==> Trimmable(s[i])
  {
    var lo := LeadingTrimmable(s);
    var rest := s[lo..];
    var hi := |rest| - TrailingTrimmable(rest);
    assert rest != [] ==> !Trimmable(rest[0]);
    rest[..hi]
  }

  /** `s.replace(String.valueOf(c), "")`: every occurrence of `c` removed. */
  function RemoveAll(s: string, c: char): (r: string)
    ensures c !in r
    ensures |r| <= |s|
    ensures forall x :: x in r ==> x in s
  {
    if s == [] then [] else (if s[0] == c then [] else [s[0]]) + RemoveAll(s[1..], c)
  }

  /** What string concatenation appends for a possibly-null reference. */
  function Rendered(s: Option<string>): string {
    s.GetOr("null")
  }

  /** Removal distributes over concatenation, so it acts on each character alone. */
  lemma {:induction false} RemoveAllAppend(a: string, b: string, c: char)
    ensures RemoveAll(a + b, c) == RemoveAll(a, c) + RemoveAll(b, c)
  {
    if a == [] {
      assert a + b == b;
    } else {
      var ab := a + b;
      assert ab[0] == a[0] && ab[1..] == a[1..] + b;
      var keep := if a[0] == c then [] else [a[0]];
      assert RemoveAll(ab, c) == keep + RemoveAll(a[1..] + b, c);
      assert RemoveAll(a, c) == keep + RemoveAll(a[1..], c);
      RemoveAllAppend(a[1..], b, c);
      assert keep + (RemoveAll(a[1..], c) + RemoveAll(b, c)) == (keep + RemoveAll(a[1..], c)) + RemoveAll(b, c);
    }
  }

  /** A string that does not contain `c` is left as it is. */
  lemma {:induction false} RemoveAllAbsent(s: string, c: char)
    requires c !in s
    ensures RemoveAll(s, c) == s
  {
    if s != [] {
      assert c !in s[1..];
      RemoveAllAbsent(s[1..], c);
    }
  }

  /** Removing a separator that occurs nowhere else joins the two parts. */
  lemma RemoveAllSeparator(a: string, b: string, c: char)
    requires c !in a && c !in b
    ensures RemoveAll(a + [c] + b, c) == a + b
  {
    assert RemoveAll([c] + b, c) == b by {
      RemoveAllAppend([c], b, c);
      assert RemoveAll([c], c) == [];
      RemoveAllAbsent(b, c);
    }
    assert a + [c] + b == a + ([c] + b);
    RemoveAllAppend(a, [c] + b, c);
    RemoveAllAbsent(a, c);
  }

  /** Trimming is idempotent and leaves a trimmed string alone. */
  lemma TrimTrimmed(s: string)
    requires IsTrimmed(s)
    ensures Trim(s) == s
  {
  }
}
