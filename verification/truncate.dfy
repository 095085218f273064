/** `truncate_diff` (src/ai/mod.rs): the diff placed in the commit prompt is
    cut to a byte budget without splitting a UTF-8 encoded character. */
module Truncation {
  import opened Basics
  import opened Text

  /** The budget `build_prompt` passes: 3000 bytes. */
  const DiffBudget: nat := 3000

  /** The number of leading characters whose encoding takes exactly `b`
      bytes; `None` when byte offset `b` is not a character boundary. */
  function CharsAtByte(s: string, b: nat): (r: Option<nat>)
    ensures r.Some? ==> r.value <= |s| && ByteLen(s[..r.value]) == b
  {
    if b == 0 then Some(0)
    else if s == [] then None
    else if b < Utf8Len(s[0]) then None
    else
      match CharsAtByte(s[1..], b - Utf8Len(s[0]))
      case None => None
      case Some(k) =>
        assert s[..k + 1] == [s[0]] + s[1..][..k];
        ByteLenAppend([s[0]], s[1..][..k]);
        Some(k + 1)
  }

  /** Rust's `str::is_char_boundary`. */
  predicate IsCharBoundary(s: string, b: nat) {
    CharsAtByte(s, b).Some?
  }

  /** Every prefix ends on a boundary. */
  lemma {:induction false} PrefixEndsOnBoundary(s: string, k: nat)
    requires k <= |s|
    ensures CharsAtByte(s, ByteLen(s[..k])) == Some(k)
  {
    if k > 0 {
      assert s[..k] == [s[0]] + s[1..][..k - 1];
      ByteLenAppend([s[0]], s[1..][..k - 1]);
      PrefixEndsOnBoundary(s[1..], k - 1);
    }
  }

  /** `truncate_diff`: the diff itself when it fits, otherwise the longest
      character prefix that fits, found by stepping the byte offset back to
      the nearest character boundary. */
  method TruncateDiff(diff: string, maxBytes: nat) returns (r: string)
    ensures IsPrefix(r, diff)
    ensures ByteLen(diff) <= maxBytes ==> r == diff
    ensures ByteLen(diff) > maxBytes ==>
      && ByteLen(r) <= maxBytes
      && |r| < |diff|
      && ByteLen(diff[..|r| + 1]) > maxBytes
  {
    if ByteLen(diff) <= maxBytes {
      return diff;
    }
    var boundary: nat := maxBytes;
    while !IsCharBoundary(diff, boundary) && boundary > 0
      invariant boundary <= maxBytes
      invariant forall b: nat :: boundary < b <= maxBytes ==> !IsCharBoundary(diff, b)
    {
      boundary := boundary - 1;
    }
    var k := CharsAtByte(diff, boundary).value;
    r := diff[..k];
    assert diff[..|diff|] == diff;
    if k == |diff| {
      assert false;
    }
    ByteLenPrefixStep(diff, k);
    PrefixEndsOnBoundary(diff, k + 1);
    assert IsCharBoundary(diff, ByteLen(diff[..k + 1]));
  }

  /** The diff as the commit prompt embeds it: cut to 3000 bytes. */
  method PromptDiff(diff: string) returns (r: string)
    ensures IsPrefix(r, diff)
    ensures ByteLen(r) <= DiffBudget
    ensures ByteLen(diff) <= DiffBudget ==> r == diff
  {
    r := TruncateDiff(diff, DiffBudget);
  }
}
