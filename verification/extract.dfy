/** Recovering the JSON object from a model's reply: the Markdown fence
    stripper both clients share, and the two brace-depth scanners that
    find the first balanced `{…}` span when the whole reply does not
    decode. The OpenAI client clamps the depth at zero
    (src/ai/openai.rs:276-279); the Anthropic client does not
    (src/ai/anthropic.rs:153-154).

    The source records byte offsets (`char_indices`, `len_utf8`); the model
    records character indices. Both delimit the same substring, since a
    brace is a one-byte character. */
module Extract {
  import opened Basics
  import opened Text
  import opened Json

  const JsonFence := "```json"
  const Fence := "```"

  // ---- Fence stripping ----

  /** Removes an opening fence `open` and a closing "```" and trims what is
      left; `None` when the two would overlap. */
  function Unwrap(content: string, open: string): (r: Option<string>)
    ensures r.Some? <==> |open| + |Fence| <= |content| && IsPrefix(open, content) && IsSuffix(Fence, content)
    ensures r.Some? ==> r.value == Trim(content[|open|..|content| - |Fence|])
  {
    match StripPrefix(content, open)
    case None => None
    case Some(rest) =>
      AfterOpenFence(content, open);
      match StripSuffix(rest, Fence)
      case None => None
      case Some(inner) => Some(Trim(inner))
  }

  /** What follows an opening fence ends with the closing fence exactly
      when the content does and the two do not overlap; inside them is
      the slice between. */
  lemma AfterOpenFence(content: string, open: string)
    requires |open| <= |content|
    ensures IsSuffix(Fence, content[|open|..]) <==> |open| + |Fence| <= |content| && IsSuffix(Fence, content)
    ensures |open| + |Fence| <= |content| ==>
              content[|open|..][..|content| - |open| - |Fence|] == content[|open|..|content| - |Fence|]
  {
    var rest := content[|open|..];
    if |Fence| <= |rest| {
      assert rest[|rest| - |Fence|..] == content[|content| - |Fence|..];
    }
  }

  /** The fence stripper: a "```json … ```" wrapper is tried first, then a
      bare "``` … ```" one; the content is kept as it is when neither
      applies or when the fences overlap (e.g. the content is just "```"). */
  function StripFence(content: string): (r: string)
    ensures !(IsPrefix(Fence, content) && IsSuffix(Fence, content)) ==> r == content
    ensures IsPrefix(JsonFence, content) && IsSuffix(Fence, content) ==>
              r == (if |content| >= |JsonFence| + |Fence|
                    then Trim(content[|JsonFence|..|content| - |Fence|]) else content)
    ensures !IsPrefix(JsonFence, content) && IsPrefix(Fence, content) && IsSuffix(Fence, content) ==>
              r == (if |content| >= 2 * |Fence|
                    then Trim(content[|Fence|..|content| - |Fence|]) else content)
  {
    if IsPrefix(JsonFence, content) && IsSuffix(Fence, content) then
      match Unwrap(content, JsonFence)
      case Some(inner) => inner
      case None => content
    else if IsPrefix(Fence, content) && IsSuffix(Fence, content) then
      match Unwrap(content, Fence)
      case Some(inner) => inner
      case None => content
    else content
  }

  /** Wrapping a reply in a "```json" fence and stripping it gives back
      the trimmed reply. */
  lemma JsonFenceUnwraps(inner: string)
    ensures StripFence(JsonFence + inner + Fence) == Trim(inner)
  {
    var a := JsonFence + inner + Fence;
    assert a[..|JsonFence|] == JsonFence;
    assert a[|a| - |Fence|..] == Fence;
    assert a[|JsonFence|..|a| - |Fence|] == inner;
    assert a[..|Fence|] == Fence;
  }

  /** The same for a bare "```" fence, unless the reply itself starts
      with "json" (then the first rule applies). */
  lemma FenceUnwraps(inner: string)
    requires inner == [] || inner[0] != 'j'
    ensures StripFence(Fence + inner + Fence) == Trim(inner)
  {
    var b := Fence + inner + Fence;
    assert b[..|Fence|] == Fence;
    assert b[|b| - |Fence|..] == Fence;
    assert b[|Fence|..|b| - |Fence|] == inner;
    assert !IsPrefix(JsonFence, b) by {
      if |b| >= |JsonFence| {
        assert b[3] != JsonFence[3];
      }
    }
  }

  /** Fences that overlap leave the content untouched. */
  lemma OverlappingFencesKept()
    ensures StripFence("```") == "```"
    ensures StripFence("````") == "````"
    ensures StripFence("```json```") == ""
  {
    assert IsPrefix(Fence, "```") && IsSuffix(Fence, "```");
    assert !IsPrefix(JsonFence, "```");
    assert !IsPrefix(JsonFence, "````");
    assert IsPrefix(Fence, "````") && IsSuffix(Fence, "````");
    var c := "```json```";
    assert IsPrefix(JsonFence, c) && IsSuffix(Fence, c);
    assert c[|JsonFence|..|c| - |Fence|] == "";
  }

  // ---- Brace depth ----

  /** Opening minus closing braces: the unclamped depth after `t`. */
  function Net(t: string): int {
    Count('{', t) - Count('}', t)
  }

  lemma NetStep(s: string, a: nat, i: nat)
    requires a <= i < |s|
    ensures Net(s[a..i + 1]) == Net(s[a..i]) + (if s[i] == '{' then 1 else if s[i] == '}' then -1 else 0)
  {
    assert s[a..i + 1][..|s[a..i + 1]| - 1] == s[a..i];
  }

  /** A found span, as `[start, end)` indices. */
  datatype Span = Span(start: nat, end: nat)

  /** Every prefix of the span opened at `start`, up to index `limit`,
      is still open. */
  predicate OpenThrough(s: string, start: nat, limit: nat)
    requires start <= limit <= |s|
  {
    forall e :: start < e <= limit ==> Net(s[start..e]) > 0
  }

  /** `end` is where the span opened at `start` first returns to depth 0. */
  predicate FirstClose(s: string, start: nat, end: nat) {
    start < end <= |s| && Net(s[start..end]) == 0 && OpenThrough(s, start, end - 1)
  }

  /** The span opened at `start` never returns to depth 0. */
  predicate NeverCloses(s: string, start: nat)
    requires start <= |s|
  {
    OpenThrough(s, start, |s|)
  }

  /** `f` is the index of the first '{'. */
  predicate FirstOpen(s: string, f: nat) {
    f < |s| && s[f] == '{' && forall j :: 0 <= j < f ==> s[j] != '{'
  }

  predicate NoOpen(s: string) {
    forall j :: 0 <= j < |s| ==> s[j] != '{'
  }

  /** The unclamped scanner starts a span at a '{' met at depth exactly 0. */
  predicate UnclampedStart(s: string, i: nat) {
    i < |s| && s[i] == '{' && Net(s[..i]) == 0
  }

  /** The first index at which the unclamped scanner may start a span. */
  predicate FirstUnclampedStart(s: string, i: nat) {
    UnclampedStart(s, i) && forall j :: 0 <= j < i ==> !UnclampedStart(s, j)
  }

  /** The OpenAI scanner. A '}' at depth 0 leaves the depth at 0, so the
      span starts at the first '{'; it ends where that brace is balanced. */
  method ScanClamped(s: string) returns (r: Option<Span>)
    ensures r.Some? ==> FirstOpen(s, r.value.start) && FirstClose(s, r.value.start, r.value.end)
    ensures r.None? ==> NoOpen(s) || exists f :: FirstOpen(s, f) && NeverCloses(s, f)
  {
    var depth: int := 0;
    var start: Option<nat> := None;
    var i := 0;
    while i < |s|
      invariant 0 <= i <= |s|
      invariant depth >= 0
      invariant start.None? ==> depth == 0 && NoOpen(s[..i])
      invariant start.Some? ==> FirstOpen(s, start.value) && start.value < i
      invariant start.Some? ==> depth == Net(s[start.value..i]) && OpenThrough(s, start.value, i)
    {
      if s[i] == '{' {
        if depth == 0 && start.None? {
          assert forall j :: 0 <= j < i ==> s[j] == s[..i][j];
          start := Some(i);
          assert s[i..i] == [];
        }
        NetStep(s, start.value, i);
        depth := depth + 1;
      } else if s[i] == '}' {
        if depth > 0 {
          depth := depth - 1;
        }
        if start.Some? {
          NetStep(s, start.value, i);
          if depth == 0 {
            return Some(Span(start.value, i + 1));
          }
        }
      } else if start.Some? {
        NetStep(s, start.value, i);
      }
      assert start.None? ==> NoOpen(s[..i + 1]) by {
        assert forall j :: 0 <= j < i ==> s[..i + 1][j] == s[..i][j];
      }
      i := i + 1;
    }
    assert s[..|s|] == s;
    return None;
  }

  /** The Anthropic scanner. A '}' at depth 0 drives the depth negative,
      so a span starts only at a '{' met at net depth exactly 0. */
  method ScanUnclamped(s: string) returns (r: Option<Span>)
    ensures r.Some? ==> FirstUnclampedStart(s, r.value.start) && FirstClose(s, r.value.start, r.value.end)
    ensures r.None? ==> (|| (forall i :: 0 <= i < |s| ==> !UnclampedStart(s, i))
                         || exists i :: FirstUnclampedStart(s, i) && NeverCloses(s, i))
  {
    var depth: int := 0;
    var start: Option<nat> := None;
    var i := 0;
    while i < |s|
      invariant 0 <= i <= |s|
      invariant start.None? ==> depth == Net(s[..i]) && forall j :: 0 <= j < i ==> !UnclampedStart(s, j)
      invariant start.Some? ==> FirstUnclampedStart(s, start.value) && start.value < i
      invariant start.Some? ==> depth == Net(s[start.value..i]) && OpenThrough(s, start.value, i)
    {
      NetStep(s, 0, i);
      assert s[0..i] == s[..i] && s[0..i + 1] == s[..i + 1];
      if s[i] == '{' {
        if depth == 0 && start.None? {
          start := Some(i);
          assert s[i..i] == [];
        }
        if start.Some? {
          NetStep(s, start.value, i);
        }
        depth := depth + 1;
      } else if s[i] == '}' {
        depth := depth - 1;
        if start.Some? {
          NetStep(s, start.value, i);
          if depth == 0 {
            return Some(Span(start.value, i + 1));
          }
        }
      } else if start.Some? {
        NetStep(s, start.value, i);
      }
      i := i + 1;
    }
    return None;
  }

  /** A span either scanner returns opens with '{', closes with '}' and
      holds as many of the one as of the other. */
  lemma SpanShape(s: string, start: nat, end: nat)
    requires start < |s| && s[start] == '{' && FirstClose(s, start, end)
    ensures s[end - 1] == '}'
    ensures Count('{', s[start..end]) == Count('}', s[start..end])
    ensures end >= start + 2
  {
    assert s[start..start] == [];
    NetStep(s, start, start);
    NetStep(s, start, end - 1);
  }

  // ---- How the two scanners relate ----

  /** The first '{' and the first close of a span are unique. */
  lemma FirstOpenUnique(s: string)
    ensures forall f, g :: FirstOpen(s, f) && FirstOpen(s, g) ==> f == g
  {
  }

  lemma FirstUnclampedStartUnique(s: string)
    ensures forall i, j :: FirstUnclampedStart(s, i) && FirstUnclampedStart(s, j) ==> i == j
  {
  }

  lemma FirstCloseUnique(s: string)
    ensures forall start, e1, e2 :: FirstClose(s, start, e1) && FirstClose(s, start, e2) ==> e1 == e2
    ensures forall start, e :: FirstClose(s, start, e) ==> !NeverCloses(s, start)
  {
  }

  /** With no '}' before the first '{', that '{' is met at depth 0 by the
      unclamped scanner too, so both scanners start at it. */
  lemma StartsAgree(s: string, f: nat)
    requires FirstOpen(s, f)
    requires forall j :: 0 <= j < f ==> s[j] != '}'
    ensures FirstUnclampedStart(s, f)
  {
    CountAbsent('{', s[..f]);
    CountAbsent('}', s[..f]);
  }

  /** The span the clamped scanner finds, defined from the first '{'. */
  ghost function ClampedSpan(s: string): (r: Option<Span>)
    ensures r.Some? ==> FirstOpen(s, r.value.start) && FirstClose(s, r.value.start, r.value.end)
  {
    if exists f, e :: FirstOpen(s, f) && FirstClose(s, f, e) then
      var f, e :| FirstOpen(s, f) && FirstClose(s, f, e);
      Some(Span(f, e))
    else None
  }

  /** The span the unclamped scanner finds, defined from the first '{' met
      at net depth 0. */
  ghost function UnclampedSpan(s: string): (r: Option<Span>)
    ensures r.Some? ==> FirstUnclampedStart(s, r.value.start) && FirstClose(s, r.value.start, r.value.end)
  {
    if exists i, e :: FirstUnclampedStart(s, i) && FirstClose(s, i, e) then
      var i, e :| FirstUnclampedStart(s, i) && FirstClose(s, i, e);
      Some(Span(i, e))
    else None
  }

  /** What `ScanClamped` promises determines its result. */
  lemma ClampedSpanIs(s: string, r: Option<Span>)
    requires r.Some? ==> FirstOpen(s, r.value.start) && FirstClose(s, r.value.start, r.value.end)
    requires r.None? ==> NoOpen(s) || exists f :: FirstOpen(s, f) && NeverCloses(s, f)
    ensures r == ClampedSpan(s)
  {
    FirstOpenUnique(s);
    FirstCloseUnique(s);
  }

  /** What `ScanUnclamped` promises determines its result. */
  lemma UnclampedSpanIs(s: string, r: Option<Span>)
    requires r.Some? ==> FirstUnclampedStart(s, r.value.start) && FirstClose(s, r.value.start, r.value.end)
    requires r.None? ==> (|| (forall i :: 0 <= i < |s| ==> !UnclampedStart(s, i))
                          || exists i :: FirstUnclampedStart(s, i) && NeverCloses(s, i))
    ensures r == UnclampedSpan(s)
  {
    FirstUnclampedStartUnique(s);
    FirstCloseUnique(s);
  }

  /** No '}' before the first '{'. */
  predicate NoStrayClose(s: string) {
    forall f, j :: 0 <= j < f < |s| && FirstOpen(s, f) ==> s[j] != '}'
  }

  /** The two scanners find the same span when no '}' comes before the
      first '{'. */
  lemma {:induction false} SpansAgree(s: string)
    requires NoStrayClose(s)
    ensures ClampedSpan(s) == UnclampedSpan(s)
  {
    FirstOpenUnique(s);
    FirstUnclampedStartUnique(s);
    FirstCloseUnique(s);
    match FindChar(s, '{') {
      case None =>
        assert forall j :: 0 <= j < |s| ==> s[j] in s;
      case Some(f) =>
        assert forall j :: 0 <= j < f ==> s[..f][j] == s[j];
        assert FirstOpen(s, f);
        StartsAgree(s, f);
    }
  }

  /** The scanners agree whenever no '}' comes before the first '{'. */
  method ScansAgree(s: string) returns (clamped: Option<Span>, unclamped: Option<Span>)
    requires NoStrayClose(s)
    ensures clamped == unclamped
  {
    clamped := ScanClamped(s);
    unclamped := ScanUnclamped(s);
    ClampedSpanIs(s, clamped);
    UnclampedSpanIs(s, unclamped);
    SpansAgree(s);
  }

  /** A '}' before the first '{' separates them: on "}{\"a\":1}" the
      clamped scanner finds the object and the unclamped one finds nothing. */
  method StrayCloseDiverges() returns (clamped: Option<Span>, unclamped: Option<Span>)
    ensures clamped == Some(Span(1, 8))
    ensures unclamped == None
  {
    var s := "}{\"a\":1}";
    clamped := ScanClamped(s);
    unclamped := ScanUnclamped(s);
    assert FirstOpen(s, 1);
    FirstOpenUnique(s);
    StrayCloseSpans(s);
    FirstCloseUnique(s);
  }

  lemma StrayCloseSpans(s: string)
    requires s == "}{\"a\":1}"
    ensures FirstClose(s, 1, 8)
    ensures forall i :: !UnclampedStart(s, i)
  {
    assert s[1..1] == [];
    NetStep(s, 1, 1);
    NetStep(s, 1, 2);
    NetStep(s, 1, 3);
    NetStep(s, 1, 4);
    NetStep(s, 1, 5);
    NetStep(s, 1, 6);
    NetStep(s, 1, 7);
    assert OpenThrough(s, 1, 7);
    assert s[0..0] == [];
    NetStep(s, 0, 0);
    assert s[0..1] == s[..1];
    assert forall i :: 0 <= i < |s| && i != 1 ==> s[i] != '{';
  }

  // ---- Decoding with the span as a fallback ----

  /** How decoding a cleaned reply ended: with a value, or with the
      primary error and then either no span or the span's own error. */
  datatype Recovery<T> =
    | Decoded(value: T)
    | NoSpan(primary: DecodeError)
    | SpanInvalid(primary: DecodeError, cause: DecodeError)

  predicate SpanWithin(s: string, span: Option<Span>) {
    span.Some? ==> span.value.start <= span.value.end <= |s|
  }

  /** The reply is decoded whole first; only when that fails is the span
      the scanner found decoded instead. */
  function Recover<T>(clean: string, span: Option<Span>, parse: Parser,
                      decode: JsonValue -> Result<T, DecodeError>): (r: Recovery<T>)
    requires SpanWithin(clean, span)
    ensures DecodeText(clean, parse, decode).Ok? ==> r == Decoded(DecodeText(clean, parse, decode).value)
    ensures DecodeText(clean, parse, decode).Err? && span.None? ==> r == NoSpan(DecodeText(clean, parse, decode).error)
    ensures DecodeText(clean, parse, decode).Err? && span.Some? ==>
              match DecodeText(clean[span.value.start..span.value.end], parse, decode)
              case Ok(v) => r == Decoded(v)
              case Err(e) => r == SpanInvalid(DecodeText(clean, parse, decode).error, e)
  {
    match DecodeText(clean, parse, decode)
    case Ok(v) => Decoded(v)
    case Err(primary) =>
      match span
      case None => NoSpan(primary)
      case Some(sp) =>
        match DecodeText(clean[sp.start..sp.end], parse, decode)
        case Ok(v) => Decoded(v)
        case Err(e) => SpanInvalid(primary, e)
  }

  /** Whichever scanner is used, a reply without a '}' before its first
      '{' is recovered the same way. */
  lemma RecoveryAgrees<T>(clean: string, parse: Parser, decode: JsonValue -> Result<T, DecodeError>)
    requires NoStrayClose(clean)
    ensures SpanWithin(clean, ClampedSpan(clean)) && SpanWithin(clean, UnclampedSpan(clean))
    ensures Recover(clean, ClampedSpan(clean), parse, decode) == Recover(clean, UnclampedSpan(clean), parse, decode)
  {
    SpansAgree(clean);
  }
}
