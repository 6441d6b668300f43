/** The Python string built-ins the core relies on: str.strip(), str.split(sep),
    sep.join(parts) and the substring test `sub in s`. */
module Text {

  /** The characters for which Python's str.isspace() holds; str.strip() removes them. */
  predicate IsSpace(c: char) {
    var n := c as int;
    (9 <= n <= 13) || (28 <= n <= 32) || n == 0x85 || n == 0xA0 || n == 0x1680
    || (0x2000 <= n <= 0x200A) || n == 0x2028 || n == 0x2029 || n == 0x202F
    || n == 0x205F || n == 0x3000
  }

  /** `s` has no leading and no trailing whitespace. */
  predicate Unpadded(s: string) {
    s == [] || (!IsSpace(s[0]) && !IsSpace(s[|s| - 1]))
  }

  function TrimLeft(s: string): (r: string)
    ensures r == [] || !IsSpace(r[0])
  {
    if s != [] && IsSpace(s[0]) then TrimLeft(s[1..]) else s
  }

  function TrimRight(s: string): (r: string)
    ensures r == [] || !IsSpace(r[|r| - 1])
    ensures s != [] && !IsSpace(s[0]) ==> r != [] && !IsSpace(r[0])
  {
    if s != [] && IsSpace(s[|s| - 1]) then TrimRight(s[..|s| - 1]) else s
  }

  /** Python's str.strip() with no argument. */
  function Strip(s: string): (r: string)
    ensures Unpadded(r)
  {
    TrimRight(TrimLeft(s))
  }

  /** Stripping a string that has no surrounding whitespace leaves it as it is. */
  lemma StripUnpadded(s: string)
    requires Unpadded(s)
    ensures Strip(s) == s
  {
  }

  /** Python's sep.join(parts). */
  function Join(parts: seq<string>, sep: char): string {
    if |parts| == 0 then []
    else if |parts| == 1 then parts[0]
    else parts[0] + [sep] + Join(parts[1..], sep)
  }

  /** Python's s.split(sep) for a one-character separator: never empty, no part holds the
      separator, and joining the parts back with the separator gives `s`. */
  function SplitOn(s: string, sep: char): (parts: seq<string>)
    ensures |parts| >= 1
    ensures forall k :: 0 <= k < |parts| ==> sep !in parts[k]
    ensures Join(parts, sep) == s
    decreases |s|
  {
    if s == [] then [[]]
    else
      var rest := SplitOn(s[1..], sep);
      if s[0] == sep then
        assert Join([[]] + rest, sep) == [] + [sep] + Join(rest, sep);
        [[]] + rest
      else
        var parts := [[s[0]] + rest[0]] + rest[1..];
        assert parts[1..] == rest[1..];
        parts
  }

  /** Splitting `g + [sep] + r` on `sep` yields `g` first when `g` holds no separator. */
  lemma {:induction false} SplitAtFirst(g: string, r: string, sep: char)
    requires sep !in g
    ensures SplitOn(g + [sep] + r, sep) == [g] + SplitOn(r, sep)
    decreases |g|
  {
    if g == [] {
      assert g + [sep] + r == [sep] + r;
      assert ([sep] + r)[1..] == r;
    } else {
      SplitAtFirst(g[1..], r, sep);
      assert (g + [sep] + r)[1..] == g[1..] + [sep] + r;
      assert [g[0]] + g[1..] == g;
    }
  }

  /** Python's `sub in s` for two strings. */
  function IsSubstring(sub: string, s: string): bool
    decreases |s|
  {
    sub <= s || (s != [] && IsSubstring(sub, s[1..]))
  }
}
