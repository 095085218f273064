/** `parse_streaming_response` (src/ai/openai.rs): a reader for the
    `data: ` lines of a server-sent-events reply. It is simpler than the
    event-stream format: every line is trimmed, only lines starting with
    `data: ` (with the space) count, each is decoded on its own as a chunk,
    and the `delta.content` strings of all chunks are concatenated. */
module Stream {
  import opened Basics
  import opened Text
  import opened Json

  const DataPrefix := "data: "
  const DoneMarker := "[DONE]"

  // ---- The chunk schema: StreamChunk { choices: [StreamChoice] },
  //      StreamChoice { delta: StreamDelta, finish_reason: Option<String> },
  //      StreamDelta { content: Option<String> } ----

  /** A `StreamDelta`: its optional `content`. */
  function DecodeDelta(v: JsonValue, field: string): (r: Result<Option<string>, DecodeError>)
    ensures r.Ok? <==> v.Object? && OptionalNullableString(Find(v.members, {"content"}))
    ensures r.Ok? ==> r.value == GivenString(Find(v.members, {"content"}))
    ensures !v.Object? ==> r.Err?
    ensures v.Object? && Find(v.members, {"content"}).Absent? ==> r == Ok(None)
    ensures v.Object? && Find(v.members, {"content"}).Present? ==>
              r == AsOptString(Find(v.members, {"content"}).value, "content")
  {
    if !v.Object? then Err(NotAnObject(field))
    else Defaulted(v.members, {"content"}, "content", None, AsOptString)
  }

  /** A `StreamChoice`, reduced to its delta's content; `finish_reason` must
      still be well typed for the choice to decode. */
  function DecodeChoice(v: JsonValue): (r: Result<Option<string>, DecodeError>)
    ensures r.Ok? <==> && v.Object? && Find(v.members, {"delta"}).Present?
                       && DecodeDelta(Find(v.members, {"delta"}).value, "delta").Ok?
                       && OptionalNullableString(Find(v.members, {"finish_reason"}))
    ensures r.Ok? ==> v.Object? && Find(v.members, {"delta"}).Present?
    ensures r.Ok? ==> DecodeDelta(Find(v.members, {"delta"}).value, "delta") == r
  {
    if !v.Object? then Err(NotAnObject("choices"))
    else
      var delta :- Required(v.members, {"delta"}, "delta", DecodeDelta);
      var _ :- Defaulted(v.members, {"finish_reason"}, "finish_reason", None, AsOptString);
      Ok(delta)
  }

  /** A `StreamChunk`: the delta contents of its choices. */
  function DecodeChunk(v: JsonValue): (r: Result<seq<Option<string>>, DecodeError>)
    ensures r.Ok? <==> v.Object? && ArrayOf(Find(v.members, {"choices"}), DecodeChoice)
    ensures r.Ok? ==> DecodedAll(Find(v.members, {"choices"}).value.items, DecodeChoice, r.value)
    ensures r.Ok? ==> v.Object? && Find(v.members, {"choices"}).Present?
                      && Find(v.members, {"choices"}).value.Array?
                      && DecodeAll(Find(v.members, {"choices"}).value.items, DecodeChoice) == r
  {
    if !v.Object? then Err(NotAnObject("StreamChunk"))
    else
      Required(v.members, {"choices"}, "choices", ChoicesField)
  }

  function ChoicesField(v: JsonValue, field: string): Result<seq<Option<string>>, DecodeError> {
    if v.Array? then DecodeAll(v.items, DecodeChoice) else Err(InvalidType(field))
  }

  /** The text the choices of one chunk add: each present content, in
      choice order. */
  function ChunkText(contents: seq<Option<string>>): string {
    if contents == [] then []
    else (match contents[0] case Some(t) => t case None => []) + ChunkText(contents[1..])
  }

  // ---- The reference definition, line by line ----

  /** The payload of a data line, after trimming the line. */
  function DataPayload(line: string): Option<string> {
    StripPrefix(Trim(line), DataPrefix)
  }

  /** The text one line adds: nothing for a non-data line, the end marker,
      or a payload that does not decode as a chunk. */
  function LineText(line: string, parse: Parser): string {
    match DataPayload(line)
    case None => []
    case Some(data) =>
      if data == DoneMarker then []
      else
        match DecodeText(data, parse, DecodeChunk)
        case Ok(contents) => ChunkText(contents)
        case Err(_) => []
  }

  /** The text of each line, in order. */
  function LineTexts(lines: seq<string>, parse: Parser): seq<string> {
    if lines == [] then []
    else LineTexts(lines[..|lines| - 1], parse) + [LineText(lines[|lines| - 1], parse)]
  }

  lemma {:induction false} LineTextsAppend(a: seq<string>, b: seq<string>, parse: Parser)
    ensures LineTexts(a + b, parse) == LineTexts(a, parse) + LineTexts(b, parse)
  {
    if b == [] {
      assert a + b == a;
    } else {
      assert (a + b)[..|a + b| - 1] == a + b[..|b| - 1];
      LineTextsAppend(a, b[..|b| - 1], parse);
    }
  }

  /** The concatenated text of a sequence of lines, in line order. */
  function StreamText(lines: seq<string>, parse: Parser): string {
    Concat(LineTexts(lines, parse))
  }

  predicate HasDataLine(lines: seq<string>) {
    exists i :: 0 <= i < |lines| && DataPayload(lines[i]).Some?
  }

  /** The content a reply streams: present when at least one data line
      was seen and the concatenated content is not empty. */
  function StreamedContent(responseText: string, parse: Parser): Option<string> {
    var lines := Lines(responseText);
    if HasDataLine(lines) && StreamText(lines, parse) != [] then Some(StreamText(lines, parse)) else None
  }

  /** `parse_streaming_response`: the reply is split into lines, which
      are read in order. */
  method ParseStreamingResponse(responseText: string, parse: Parser) returns (r: Option<string>)
    ensures r.Some? <==> HasDataLine(Lines(responseText)) && StreamText(Lines(responseText), parse) != []
    ensures r.Some? ==> r.value == StreamText(Lines(responseText), parse)
    ensures r == StreamedContent(responseText, parse)
  {
    r := ReadLines(Lines(responseText), parse);
  }

  /** The line loop: the content of every data line is appended, and
      whether any data line was seen is remembered. */
  method ReadLines(lines: seq<string>, parse: Parser) returns (r: Option<string>)
    ensures r.Some? <==> HasDataLine(lines) && StreamText(lines, parse) != []
    ensures r.Some? ==> r.value == StreamText(lines, parse)
  {
    var content := "";
    var isStreaming := false;
    var i := 0;
    while i < |lines|
      invariant 0 <= i <= |lines|
      invariant content == StreamText(lines[..i], parse)
      invariant isStreaming <==> HasDataLine(lines[..i])
    {
      var isData, text := ReadLine(lines[i], parse);
      isStreaming := isStreaming || isData;
      content := content + text;
      HasDataLineStep(lines, i);
      StreamTextSnoc(lines, i, parse);
      i := i + 1;
    }
    assert lines[..|lines|] == lines;
    if isStreaming && content != [] {
      r := Some(content);
    } else {
      r := None;
    }
  }

  /** One iteration of the line loop: whether the trimmed line is a data
      line, and the content it adds. */
  method ReadLine(rawLine: string, parse: Parser) returns (isData: bool, text: string)
    ensures isData <==> DataPayload(rawLine).Some?
    ensures text == LineText(rawLine, parse)
    ensures !isData ==> text == []
  {
    var line := Trim(rawLine);
    isData := false;
    text := [];
    match StripPrefix(line, DataPrefix) {
      case Some(data) =>
        isData := true;
        if data != DoneMarker {
          match DecodeText(data, parse, DecodeChunk) {
            case Ok(contents) =>
              text := ChunkText(contents);
            case Err(_) =>
          }
        }
      case None =>
    }
  }

  lemma HasDataLineStep(lines: seq<string>, i: nat)
    requires i < |lines|
    ensures HasDataLine(lines[..i + 1]) <==> HasDataLine(lines[..i]) || DataPayload(lines[i]).Some?
  {
    assert forall j :: 0 <= j < i ==> lines[..i + 1][j] == lines[..i][j];
    assert lines[..i + 1][i] == lines[i];
  }

  // ---- Properties ----

  lemma StreamTextSnoc(lines: seq<string>, i: nat, parse: Parser)
    requires i < |lines|
    ensures StreamText(lines[..i + 1], parse) == StreamText(lines[..i], parse) + LineText(lines[i], parse)
  {
    assert lines[..i + 1][..i] == lines[..i];
    assert LineTexts(lines[..i + 1], parse) == LineTexts(lines[..i], parse) + [LineText(lines[i], parse)];
    ConcatAppend(LineTexts(lines[..i], parse), [LineText(lines[i], parse)]);
    assert Concat([LineText(lines[i], parse)]) == LineText(lines[i], parse) + Concat([]);
  }

  /** The text of a concatenation of two line sequences: earlier lines
      contribute first. */
  lemma StreamTextAppend(a: seq<string>, b: seq<string>, parse: Parser)
    ensures StreamText(a + b, parse) == StreamText(a, parse) + StreamText(b, parse)
  {
    LineTextsAppend(a, b, parse);
    ConcatAppend(LineTexts(a, parse), LineTexts(b, parse));
  }

  /** Lines that are not data lines, or that carry the end marker, add
      nothing. */
  lemma {:induction false} IgnoredLinesAddNothing(lines: seq<string>, parse: Parser)
    requires forall i :: 0 <= i < |lines| ==> DataPayload(lines[i]).None? || DataPayload(lines[i]) == Some(DoneMarker)
    ensures StreamText(lines, parse) == []
  {
    if lines != [] {
      var n := |lines| - 1;
      assert lines[..n + 1] == lines;
      StreamTextSnoc(lines, n, parse);
      IgnoredLinesAddNothing(lines[..n], parse);
    }
  }

  /** Empty lines and the end marker add nothing. */
  lemma SilentLines(parse: Parser)
    ensures LineText("", parse) == []
    ensures LineText(DataPrefix + DoneMarker, parse) == []
  {
    assert DoneMarker[|DoneMarker| - 1] == ']';
    DataLineText(DoneMarker);
    assert DataPayload("") == None;
  }

  /** A data line whose payload decodes as a chunk adds that chunk's text,
      whatever other members (id, model, usage) the chunk carries. */
  lemma ChunkLine(line: string, d: string, parse: Parser, members: seq<Member>,
                  choices: seq<JsonValue>, contents: seq<Option<string>>)
    requires DataPayload(line) == Some(d) && d != DoneMarker
    requires parse(d) == Some(Object(members))
    requires Find(members, {"choices"}) == Present(Array(choices))
    requires DecodeAll(choices, DecodeChoice) == Ok(contents)
    ensures LineText(line, parse) == ChunkText(contents)
  {
    assert DecodeChunk(Object(members)) == Ok(contents);
  }

  /** A data line whose payload is not JSON, or not a chunk, adds nothing. */
  lemma MalformedLineAddsNothing(line: string, d: string, parse: Parser)
    requires DataPayload(line) == Some(d)
    requires DecodeText(d, parse, DecodeChunk).Err?
    ensures LineText(line, parse) == []
  {
  }

  /** A choice with an empty delta, as in the chunk that carries the
      finish reason, decodes and adds no text; one with content adds it. */
  lemma DeltaChoices(text: string, finishReason: JsonValue)
    requires finishReason.Null? || finishReason.Str?
    ensures DecodeAll([Object([Member("delta", Object([])), Member("finish_reason", finishReason)])], DecodeChoice) == Ok([None])
    ensures DecodeAll([Object([Member("delta", Object([Member("content", Str(text))])), Member("finish_reason", finishReason)])], DecodeChoice)
         == Ok([Some(text)])
    ensures ChunkText([None]) == [] && ChunkText([Some(text)]) == text
  {
    var c1 := Object([Member("delta", Object([Member("content", Str(text))])), Member("finish_reason", finishReason)]);
    var c2 := Object([Member("delta", Object([])), Member("finish_reason", finishReason)]);
    var dm := [Member("content", Str(text))];
    assert Find(dm, {"content"}) == Present(Str(text)) by { assert Find(dm[1..], {"content"}) == Absent; }
    assert DecodeDelta(Object(dm), "delta") == Ok(Some(text));
    assert Find(c1.members[1..], {"finish_reason"}) == Present(finishReason);
    assert "finish_reason" != "delta" by { assert |"finish_reason"| != |"delta"|; }
    assert Find(c1.members[1..][1..], {"delta"}) == Absent;
    assert Find(c1.members[1..], {"delta"}) == Absent;
    assert Find(c1.members, {"delta"}) == Present(Object(dm));
    assert Find(c2.members[1..], {"delta"}) == Absent;
    assert DecodeChoice(c1) == Ok(Some(text));
    assert Find(c2.members[1..], {"finish_reason"}) == Present(finishReason);
    assert DecodeChoice(c2) == Ok(None);
    DecodeAllSingle(c1, DecodeChoice);
    DecodeAllSingle(c2, DecodeChoice);
  }

  /** A data line is recognised after trimming, and its payload is the text
      after the prefix. */
  lemma DataLineText(data: string)
    requires |data| > 0 && !IsWhitespace(data[|data| - 1])
    ensures DataPayload(DataPrefix + data) == Some(data)
  {
    assert (DataPrefix + data)[0] == 'd';
    assert (DataPrefix + data)[|DataPrefix + data| - 1] == data[|data| - 1];
    TrimPreservesTrimmed(DataPrefix + data);
  }

  lemma TrimPreservesTrimmed(s: string)
    requires |s| > 0 && !IsWhitespace(s[0]) && !IsWhitespace(s[|s| - 1])
    ensures Trim(s) == s
  {
  }
}
