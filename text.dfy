/** String helpers shared by the services: Python's `str.strip()` with no
    argument, `str.join`, and a prefix test. */
module Text {

  /** The characters Python's `str.isspace()` accepts, which are the ones
      `str.strip()` removes. */
  predicate IsSpace(c: char) {
    ('\U{0009}' <= c <= '\U{000D}') || ('\U{001C}' <= c <= '\U{0020}') ||
    c == '\U{0085}' || c == '\U{00A0}' || c == '\U{1680}' ||
    ('\U{2000}' <= c <= '\U{200A}') || c == '\U{2028}' || c == '\U{2029}' ||
    c == '\U{202F}' || c == '\U{205F}' || c == '\U{3000}'
  }

  predicate IsPrefix(p: string, s: string) {
    |p| <= |s| && s[..|p|] == p
  }

  /** The first index from `i` on that holds no character of `ws`, or
      `|s|`. */
  function SkipSpaces(s: string, i: nat, ws: char -> bool): (n: nat)
    requires i <= |s|
    ensures i <= n <= |s|
    ensures forall k :: i <= k < n ==> ws(s[k])
    ensures n < |s| ==> !ws(s[n])
    decreases |s| - i
  {
    if i == |s| || !ws(s[i]) then i else SkipSpaces(s, i + 1, ws)
  }

  /** The end of `s[..j]` once its trailing characters of `ws` are
      dropped. */
  function SkipSpacesBack(s: string, j: nat, ws: char -> bool): (n: nat)
    requires j <= |s|
    ensures n <= j
    ensures forall k :: n <= k < j ==> ws(s[k])
    ensures n > 0 ==> !ws(s[n - 1])
  {
    if j == 0 || !ws(s[j - 1]) then j else SkipSpacesBack(s, j - 1, ws)
  }

  /** How many characters of `ws` the string `s` starts with. */
  function LeadingSpaces(s: string, ws: char -> bool): (n: nat)
    ensures n <= |s|
  {
    SkipSpaces(s, 0, ws)
  }

  /** What lies between the leading and the trailing run of `ws` characters
      of `s`; it neither starts nor ends with one. */
  function StripBy(s: string, ws: char -> bool): (r: string)
    ensures LeadingSpaces(s, ws) + |r| <= |s|
    ensures r == s[LeadingSpaces(s, ws)..LeadingSpaces(s, ws) + |r|]
    ensures forall k :: 0 <= k < LeadingSpaces(s, ws) ==> ws(s[k])
    ensures forall k :: LeadingSpaces(s, ws) + |r| <= k < |s| ==> ws(s[k])
    ensures r == [] || (!ws(r[0]) && !ws(r[|r| - 1]))
  {
    var i := SkipSpaces(s, 0, ws);
    var j := SkipSpacesBack(s, |s|, ws);
    if j <= i then
      assert i < |s| ==> j > i;
      ""
    else
      s[i..j]
  }

  /** Python's `s.strip()` with no argument. */
  function Trim(s: string): string {
    StripBy(s, IsSpace)
  }

  /** A string that neither starts nor ends with a `ws` character is its
      own strip. */
  lemma StripOfStripped(s: string, ws: char -> bool)
    requires s == [] || (!ws(s[0]) && !ws(s[|s| - 1]))
    ensures StripBy(s, ws) == s
  {
    if s != [] {
      assert SkipSpaces(s, 0, ws) == 0;
      assert SkipSpacesBack(s, |s|, ws) == |s|;
      assert s[0..|s|] == s;
    }
  }

  /** Stripping twice is stripping once. */
  lemma StripIdempotent(s: string, ws: char -> bool)
    ensures StripBy(StripBy(s, ws), ws) == StripBy(s, ws)
  {
    StripOfStripped(StripBy(s, ws), ws);
  }

  /** The same for `str.strip()`. */
  lemma TrimIdempotent(s: string)
    ensures Trim(Trim(s)) == Trim(s)
  {
    StripIdempotent(s, IsSpace);
  }

  /** Python's `sep.join(xs)`. */
  function Join(xs: seq<string>, sep: string): (r: string)
    ensures xs == [] ==> r == ""
    ensures |xs| == 1 ==> r == xs[0]
  {
    if |xs| == 0 then ""
    else if |xs| == 1 then xs[0]
    else xs[0] + sep + Join(xs[1..], sep)
  }

  /** Appending one more item to a non-empty join adds the separator and the
      item at the end: the items appear in the joined string in order. */
  lemma {:induction false} JoinSnoc(xs: seq<string>, x: string, sep: string)
    requires xs != []
    ensures Join(xs + [x], sep) == Join(xs, sep) + sep + x
  {
    if |xs| == 1 {
      assert xs + [x] == [xs[0], x];
      assert (xs + [x])[1..] == [x];
    } else {
      assert (xs + [x])[1..] == xs[1..] + [x];
      JoinSnoc(xs[1..], x, sep);
    }
  }

  /** Every character of a join comes from an item or from the separator. */
  lemma {:induction false} JoinChars(xs: seq<string>, sep: string, c: char)
    requires c in Join(xs, sep)
    ensures c in sep || exists k :: 0 <= k < |xs| && c in xs[k]
  {
    if |xs| > 1 {
      var rest := Join(xs[1..], sep);
      assert Join(xs, sep) == xs[0] + sep + rest;
      if c in xs[0] {
      } else if c in sep {
      } else {
        assert c in rest;
        JoinChars(xs[1..], sep, c);
        var k :| 0 <= k < |xs[1..]| && c in xs[1..][k];
        assert c in xs[k + 1];
      }
    }
  }
}
