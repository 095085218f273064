/** String helpers with the meaning of the Rust `str` methods the source
    calls: `trim`, `starts_with`, `ends_with`, `strip_prefix`,
    `strip_suffix` and `lines`. Strings are sequences of Unicode scalar
    values; `Utf8Len` recovers the byte length Rust's `len` reports. */
module Text {
  import opened Basics

  /** Rust's `char::is_whitespace`: the Unicode White_Space property. */
  predicate IsWhitespace(c: char) {
    var n := c as int;
    || (0x09 <= n <= 0x0D) || n == 0x20 || n == 0x85 || n == 0xA0
    || n == 0x1680 || (0x2000 <= n <= 0x200A) || n == 0x2028 || n == 0x2029
    || n == 0x202F || n == 0x205F || n == 0x3000
  }

  predicate IsPrefix(p: string, s: string) {
    |p| <= |s| && s[..|p|] == p
  }

  predicate IsSuffix(p: string, s: string) {
    |p| <= |s| && s[|s| - |p|..] == p
  }

  function StripPrefix(s: string, p: string): (r: Option<string>)
    ensures r.Some? <==> IsPrefix(p, s)
    ensures r.Some? ==> p + r.value == s
  {
    if IsPrefix(p, s) then
      assert s == p + s[|p|..];
      Some(s[|p|..])
    else None
  }

  function StripSuffix(s: string, p: string): (r: Option<string>)
    ensures r.Some? <==> IsSuffix(p, s)
    ensures r.Some? ==> r.value + p == s
  {
    if IsSuffix(p, s) then
      assert s == s[..|s| - |p|] + s[|s| - |p|..];
      Some(s[..|s| - |p|])
    else None
  }

  /** `str::trim_start`. */
  function TrimStart(s: string): (r: string)
    ensures IsSuffix(r, s)
    ensures r == [] || !IsWhitespace(r[0])
    ensures forall i :: 0 <= i < |s| - |r| ==> IsWhitespace(s[i])
  {
    if |s| > 0 && IsWhitespace(s[0]) then
      var r := TrimStart(s[1..]);
      assert s[|s| - |r|..] == s[1..][|s| - 1 - |r|..];
      assert forall i :: 1 <= i < |s| - |r| ==> s[i] == s[1..][i - 1];
      r
    else s
  }

  /** `str::trim_end`. */
  function TrimEnd(s: string): (r: string)
    ensures IsPrefix(r, s)
    ensures r == [] || !IsWhitespace(r[|r| - 1])
    ensures forall i :: |r| <= i < |s| ==> IsWhitespace(s[i])
  {
    if |s| > 0 && IsWhitespace(s[|s| - 1]) then
      var r := TrimEnd(s[..|s| - 1]);
      assert s[..|r|] == s[..|s| - 1][..|r|];
      assert forall i :: |r| <= i < |s| - 1 ==> s[i] == s[..|s| - 1][i];
      r
    else s
  }

  /** `str::trim`: leading and trailing whitespace removed. */
  function Trim(s: string): (r: string)
    ensures r == [] || (!IsWhitespace(r[0]) && !IsWhitespace(r[|r| - 1]))
    ensures |r| <= |s|
  {
    TrimEnd(TrimStart(s))
  }

  /** `trim` keeps one contiguous slice of the input and drops only
      whitespace around it. */
  lemma TrimSlice(s: string)
    ensures |s| - |TrimStart(s)| + |Trim(s)| <= |s|
    ensures Trim(s) == s[|s| - |TrimStart(s)|..|s| - |TrimStart(s)| + |Trim(s)|]
    ensures forall k :: 0 <= k < |s| - |TrimStart(s)| ==> IsWhitespace(s[k])
    ensures forall k :: |s| - |TrimStart(s)| + |Trim(s)| <= k < |s| ==> IsWhitespace(s[k])
  {
    TrimKeepsSlice(s);
    TrimDropsTrailing(s);
  }

  lemma TrimKeepsSlice(s: string)
    ensures Trim(s) == s[|s| - |TrimStart(s)|..|s| - |TrimStart(s)| + |Trim(s)|]
  {
    var t := TrimStart(s);
    var lead := |s| - |t|;
    var u := TrimEnd(t);
    assert Trim(s) == u;
    assert t == s[lead..];
    assert u == t[..|u|];
    SliceOfSlice(s, lead, |u|);
  }

  lemma SliceOfSlice(s: string, a: nat, n: nat)
    requires a + n <= |s|
    ensures s[a..][..n] == s[a..a + n]
  {
  }

  lemma TrimDropsTrailing(s: string)
    ensures forall k :: |s| - |TrimStart(s)| + |Trim(s)| <= k < |s| ==> IsWhitespace(s[k])
  {
    var t := TrimStart(s);
    var lead := |s| - |t|;
    assert t == s[lead..];
    assert forall k :: lead + |TrimEnd(t)| <= k < |s| ==> s[k] == t[k - lead];
  }

  /** Occurrences of `c` in `t`. */
  function Count(c: char, t: string): nat {
    if t == [] then 0 else Count(c, t[..|t| - 1]) + (if t[|t| - 1] == c then 1 else 0)
  }

  lemma {:induction false} CountAbsent(c: char, t: string)
    requires forall j :: 0 <= j < |t| ==> t[j] != c
    ensures Count(c, t) == 0
  {
    if t != [] {
      CountAbsent(c, t[..|t| - 1]);
    }
  }

  lemma {:induction false} CountAppend(c: char, a: string, b: string)
    ensures Count(c, a + b) == Count(c, a) + Count(c, b)
  {
    if b == [] {
      assert a + b == a;
    } else {
      assert (a + b)[..|a + b| - 1] == a + b[..|b| - 1];
      CountAppend(c, a, b[..|b| - 1]);
    }
  }

  /** Concatenation of a sequence of strings. */
  function Concat(parts: seq<string>): string {
    if parts == [] then [] else parts[0] + Concat(parts[1..])
  }

  lemma {:induction false} ConcatAppend(a: seq<string>, b: seq<string>)
    ensures Concat(a + b) == Concat(a) + Concat(b)
  {
    if a == [] {
      assert a + b == b;
    } else {
      assert (a + b)[1..] == a[1..] + b;
      ConcatAppend(a[1..], b);
    }
  }

  /** Index of the first occurrence of `c`. */
  function FindChar(s: string, c: char): (r: Option<nat>)
    ensures r.None? <==> c !in s
    ensures r.Some? ==> r.value < |s| && s[r.value] == c && c !in s[..r.value]
  {
    if s == [] then None
    else if s[0] == c then Some(0)
    else
      match FindChar(s[1..], c)
      case None => None
      case Some(i) =>
        assert s[..i + 1] == [s[0]] + s[1..][..i];
        Some(i + 1)
  }

  /** A line taken up to a `'\n'` loses one trailing `'\r'`. */
  function DropCarriageReturn(line: string): (r: string)
    ensures IsPrefix(r, line) && |line| - 1 <= |r|
    ensures |r| < |line| <==> line != [] && line[|line| - 1] == '\r'
  {
    if |line| > 0 && line[|line| - 1] == '\r' then line[..|line| - 1] else line
  }

  /** `str::lines`: split at `'\n'`, dropping a `'\r'` before it; a final
      line ending does not start an extra empty line. */
  function Lines(s: string): (ls: seq<string>)
    ensures s == [] <==> ls == []
    decreases |s|
  {
    if s == [] then []
    else
      match FindChar(s, '\n')
      case None => [s]
      case Some(i) => [DropCarriageReturn(s[..i])] + Lines(s[i + 1..])
  }

  /** No line holds a `'\n'`; text without one is a single line; and there
      is one line per `'\n'`, plus one for text after the last. */
  lemma LinesShape(s: string)
    ensures forall k :: 0 <= k < |Lines(s)| ==> '\n' !in Lines(s)[k]
    ensures s != [] && '\n' !in s ==> Lines(s) == [s]
    ensures |Lines(s)| == Count('\n', s) + (if s == [] || s[|s| - 1] == '\n' then 0 else 1)
  {
    LinesWithoutNewline(s);
    LinesCount(s);
  }

  lemma {:induction false} LinesWithoutNewline(s: string)
    ensures forall k :: 0 <= k < |Lines(s)| ==> '\n' !in Lines(s)[k]
    decreases |s|
  {
    if s != [] {
      match FindChar(s, '\n')
      case None =>
      case Some(i) =>
        var line := DropCarriageReturn(s[..i]);
        LinesWithoutNewline(s[i + 1..]);
        assert '\n' !in line by {
          assert line == s[..i][..|line|];
        }
        assert Lines(s) == [line] + Lines(s[i + 1..]);
    }
  }

  lemma {:induction false} LinesCount(s: string)
    ensures |Lines(s)| == Count('\n', s) + (if s == [] || s[|s| - 1] == '\n' then 0 else 1)
    decreases |s|
  {
    if s != [] {
      match FindChar(s, '\n')
      case None =>
        CountAbsent('\n', s);
      case Some(i) =>
        var rest := s[i + 1..];
        LinesCount(rest);
        NewlineSplitCount(s, i);
        if rest != [] {
          assert s[|s| - 1] == rest[|rest| - 1];
        }
    }
  }

  /** Cutting at the first `'\n'` leaves one fewer to count. */
  lemma NewlineSplitCount(s: string, i: nat)
    requires i < |s| && s[i] == '\n' && '\n' !in s[..i]
    ensures Count('\n', s) == 1 + Count('\n', s[i + 1..])
  {
    var rest := s[i + 1..];
    assert s == s[..i] + ([s[i]] + rest);
    CountAppend('\n', s[..i], [s[i]] + rest);
    CountAppend('\n', [s[i]], rest);
    assert Count('\n', [s[i]]) == 1 by {
      assert [s[i]][..0] == [];
    }
    CountAbsent('\n', s[..i]);
  }

  /** Number of bytes of the UTF-8 encoding of `c`. */
  function Utf8Len(c: char): (n: nat)
    ensures 1 <= n <= 4
  {
    var v := c as int;
    if v < 0x80 then 1 else if v < 0x800 then 2 else if v < 0x1_0000 then 3 else 4
  }

  /** Rust's `str::len`: the UTF-8 byte length. */
  function ByteLen(s: string): nat {
    if s == [] then 0 else Utf8Len(s[0]) + ByteLen(s[1..])
  }

  lemma {:induction false} ByteLenAppend(a: string, b: string)
    ensures ByteLen(a + b) == ByteLen(a) + ByteLen(b)
  {
    if a == [] {
      assert a + b == b;
    } else {
      assert (a + b)[1..] == a[1..] + b;
      ByteLenAppend(a[1..], b);
    }
  }

  /** The byte length of a prefix grows strictly with the prefix. */
  lemma ByteLenPrefixStep(s: string, k: nat)
    requires k < |s|
    ensures ByteLen(s[..k + 1]) == ByteLen(s[..k]) + Utf8Len(s[k])
  {
    assert s[..k + 1] == s[..k] + [s[k]];
    ByteLenAppend(s[..k], [s[k]]);
  }

  lemma {:induction false} ByteLenPrefixMonotone(s: string, j: nat, k: nat)
    requires j <= k <= |s|
    ensures ByteLen(s[..j]) + (k - j) <= ByteLen(s[..k])
    decreases k - j
  {
    if j < k {
      ByteLenPrefixMonotone(s, j, k - 1);
      ByteLenPrefixStep(s, k - 1);
    }
  }
}
