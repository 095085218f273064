# rust-git-cli: the reply pipeline and status aggregation, in Dafny

`rust-git-cli` asks a language model for a bilingual Conventional Commits
message, or for a changelog summary, describing a git diff. This project
models the deterministic part of that work: everything between "the HTTP
body of the provider's reply has arrived" and "a typed `CommitMessage` or
`ChangelogSummary` is returned", plus rendering of those values as text and
the pure parts of the git status and diff aggregation.

Modules, in dependency order:

- `Basics`: `Option`, a failure-compatible `Result`, and `U32`.
- `Text`: the Rust `str` methods the source relies on: `trim`,
  `strip_prefix`/`strip_suffix`, `lines`, and the UTF-8 byte length.
- `Json`: an abstract JSON value and the field rules serde-derive applies:
  required fields, defaulted fields, aliases and duplicate keys.
  Turning text into a value is a `Parser` parameter.
- `Schema`: `CommitMessage` and `ChangelogSummary`, the lenient
  `deserialize_body` and `deserialize_breaking_change` coercions, and the
  JSON the derived `Serialize` writes. Encoding and then decoding gives the
  value back.
- `Render`: `format_conventional` and `format_display`. Each is written
  push by push, as in the source, and proved equal to a declarative
  description of its output.
- `Truncation`: `truncate_diff`, the UTF-8-safe cut of the diff to 3000 bytes.
- `Client`: `create_client`, the request and reply values that stand in for
  HTTP, every way a call can fail, and the mapping from an error status to a
  sanitized message.
- `Stream`: `parse_streaming_response`, the reader for `data: ` lines of a
  server-sent-events reply.
- `Extract`: the fence stripper and the two brace scanners. The OpenAI
  scanner clamps depth at zero; the Anthropic scanner does not. Also the
  recovery step that falls back to the scanned span when the whole reply
  does not decode.
- `OpenAIClient`: the chat-completions call. It retries up to four attempts,
  doubling the token budget (held to 4000) while the reply is cut off by the
  length limit, and judges `finish_reason`. The changelog call is a single
  attempt.
- `AnthropicClient`: the messages call. It makes one attempt, reads the first
  content block and uses the unclamped scanner. This module also relates the
  two providers: they agree when no `}` precedes the first `{`, and a concrete
  reply separates them.
- `Git`: status classification by priority, `total_changes`, the diff-line
  prefix, and `get_combined_diff`.

The provider is a value `Server = (attempt, request) -> reply`, so each call
is a deterministic method. Each method is proved equal to a pure description
of the call's outcome and of the requests it sent.

Indices in the scanners are character indices. Rust uses byte offsets from
`char_indices`, but both denote the same substring. Integers are unbounded,
except the token budget, which is a `u32` with the saturating doubling
written out.

## Model

| member | source | states |
|---|---|---|
| `Json.RequiredOutcome` | src/ai/mod.rs:16-20 | A field without `#[serde(default)]`: when no member carries any of its names it is a missing-field error; when two members do, a duplicate-field error; when exactly member i does, the result is member i's value decoded. |
| `Json.DefaultedOutcome` | src/ai/mod.rs:21-26 | A `#[serde(default)]` field: no member with any of its names gives the default; two such members are a duplicate-field error; exactly one, member i, gives member i's value decoded. |
| `Json.FindUnique` | src/ai/mod.rs:17-18 | A key that appears once among an object's members, under any of the field's names, is the value found for that field. |
| `Json.FindAbsent` | src/ai/mod.rs:17-18 | A field is absent exactly when no member carries any of its names. |
| `Json.FindRepeated` | src/ai/mod.rs:17-18 | A field is reported as repeated exactly when two different members carry one of its names. |
| `Json.FindCases` | src/ai/mod.rs:16-26 | Lookup of a field by its names, member by member: none means absent, two mean repeated, exactly one at index i means that member's value. |
| `Json.DecodeAll` | src/ai/openai.rs:505-507 | A `Vec<T>` decodes when every element does, keeping length and order; a failure means some element failed. |
| `Json.AsStringList` | src/ai/mod.rs:251-252 | A `Vec<String>` is exactly an array of strings, kept element by element. |
| `Json.AsOptStringList` | src/ai/mod.rs:25-26 | `Option<Vec<String>>` accepts null or an array of strings; a bare string is rejected. |
| `Json.AsOptString` | src/ai/mod.rs:19 | `Option<String>` accepts null (as `None`) or a string, nothing else. |
| `Text.StripPrefix` | src/ai/openai.rs:37-39 | Succeeds exactly when the prefix is present, and prefix plus rest rebuilds the input. |
| `Text.StripSuffix` | src/ai/openai.rs:248 | Succeeds exactly when the suffix is present, and rest plus suffix rebuilds the input. |
| `Text.TrimStart` | src/ai/openai.rs:34 | The result is a suffix of the input; everything removed is whitespace; the result does not start with whitespace. |
| `Text.TrimEnd` | src/ai/openai.rs:34 | The result is a prefix of the input; everything removed is whitespace; the result does not end with whitespace. |
| `Text.TrimSlice` | src/ai/openai.rs:34 | `trim` returns a contiguous slice of the input; every character cut off before it and after it is whitespace. |
| `Text.LinesShape` | src/ai/openai.rs:33 | No line holds a newline; a non-empty text without a newline is one line; the number of lines is the number of newlines, plus one when the text is non-empty and does not end with a newline. |
| `Text.DropCarriageReturn` | src/ai/openai.rs:33 | A line loses at most its last character, and loses one exactly when that character is `\r`. |
| `Text.CountAppend` | src/ai/openai.rs:33 | The count of a character in a concatenation is the sum of its counts in the parts. |
| `Text.FindChar` | src/ai/openai.rs:33 | Finds the first occurrence of a character, or none exactly when it does not occur. |
| `Text.ByteLenAppend` | src/ai/mod.rs:227 | The UTF-8 length of a concatenation is the sum of the parts' lengths. |
| `Text.ByteLenPrefixMonotone` | src/ai/mod.rs:232-235 | Each extra character adds at least one byte to a prefix. |
| `Schema.DeserializeBody` | src/ai/mod.rs:31-49 | Decodes exactly a string, null or an array of strings. A string becomes a one-item body, an array keeps its strings in order, and null is no body. Every failure is the untagged enum's "no variant matched" error. |
| `Schema.DeserializeBreakingChange` | src/ai/mod.rs:51-69 | Decodes exactly a boolean, null or a string. `false` and null mean none, `true` becomes "Breaking change", and a string is kept verbatim. Every failure is "no variant matched". |
| `Schema.DecodeCommitMessage` | src/ai/mod.rs:15-29 | Decoding succeeds exactly when the value is an object whose fields are all acceptable. `commit_type` (or its alias `type`) and `description` must each appear once with a string. Each defaulted field must be absent or appear once with a value of its type. `breaking_change` must hold a boolean, null or string, or be absent when the policy allows it. On success each field is what its key held, or its default: empty for `description_en`, none for `scope`, `body` and `body_en`. A bare-string `body_en` is rejected. |
| `Schema.DecodeCategories` | src/ai/mod.rs:256-266 | Decoding succeeds exactly when the value is an object in which each of the four lists is absent or appears once with an array of strings. On success each list holds that array's strings, or is empty when absent. |
| `Schema.DecodeChangelog` | src/ai/mod.rs:247-254 | Decoding succeeds exactly when the value is an object whose two titles appear once with strings, whose two highlight lists appear once with arrays of strings, and whose `categories` appears once with an acceptable categories object. A missing field is an error. On success each field is what its key held. |
| `Schema.EncodeStrings` | src/ai/mod.rs:251 | Serializing a string list gives an array whose strings are the list. |
| `Schema.StringsOfEncoded` | src/ai/mod.rs:251 | Reading back an array of encoded strings gives the original list. |
| `Schema.CommitMessageRoundTrip` | src/ai/mod.rs:15-69 | Decoding the serialized form of any commit message gives it back, under either missing-key policy. |
| `Schema.EncodeCommitMessage` | src/ai/mod.rs:15-29 | The derived serializer writes an object of seven members in which each field, found under its own key or alias, appears once with its encoded value; `None` is written as null. |
| `Schema.DecodeCommitFields` | src/ai/mod.rs:15-29 | An object holding each field's encoding once decodes to that commit message. |
| `Schema.ChangelogRoundTrip` | src/ai/mod.rs:247-266 | Decoding the serialized form of any changelog summary gives it back. |
| `Schema.EncodeChangelog` | src/ai/mod.rs:247-254 | The serialized changelog is an object of five members, each outer field once under its own key, with its categories encoded as an object. |
| `Schema.EncodeCategories` | src/ai/mod.rs:256-266 | Serialized categories are an object of four members, each list once under its own key as an array of strings. |
| `Schema.CategoriesRoundTrip` | src/ai/mod.rs:256-266 | Decoding serialized categories gives them back. |
| `Schema.DecodeCategoryFields` | src/ai/mod.rs:256-266 | An object holding each category list once decodes to those categories. |
| `Schema.DecodeChangelogFields` | src/ai/mod.rs:247-254 | An object holding each outer field once decodes to that summary. |
| `Schema.TypeAliasAccepted` | src/ai/mod.rs:17-22 | `{"type": t, "description": d}` decodes with every optional field at its default. |
| `Schema.BothTypeKeysRejected` | src/ai/mod.rs:16-18 | Any object in which two members carry the type, as `type` and `commit_type` or one of them twice, fails as a duplicate `commit_type`, whatever else it holds. |
| `Schema.BothTypeKeysExample` | src/ai/mod.rs:17 | `{"type": t1, "commit_type": t2, "description": d}` is a duplicate-field error naming `commit_type`. |
| `Render.FormatConventional` | src/ai/mod.rs:72-123 | The pushed message is the header, then the body section, then the footer. |
| `Render.PushBody` | src/ai/mod.rs:88-111 | The loop appends the zipped entries joined by single newlines. |
| `Render.PushEntry` | src/ai/mod.rs:99-110 | One iteration appends `zh + "\n" + en` when both lines exist, `zh + "\n[Translation needed]"` when only the Chinese line exists, `en` alone when only the English line exists, and nothing past both lists. |
| `Render.JoinLinesStep` | src/ai/mod.rs:94-96 | Joining one more entry adds exactly one newline before it, and none before the first. |
| `Render.JoinLinesSnoc` | src/ai/mod.rs:94-96 | Joining a non-empty list plus one entry adds a newline and the entry. |
| `Render.BodyEntries` | src/ai/mod.rs:91-93 | There is one entry per index below the longer list's length. |
| `Render.BodyEntryShapes` | src/ai/mod.rs:99-110 | An entry is `zh + "\n" + en` when both exist, `zh + "\n[Translation needed]"` when only Chinese exists, and `en` alone when only English exists. |
| `Render.AsymmetricZipExample` | src/ai/mod.rs:91-111 | `["a","b"]` with `["x"]` renders `"a\nx\nb\n[Translation needed]"`. |
| `Render.ZipExampleText` | src/ai/mod.rs:99-110 | The pieces of the zip example concatenate to the expected text. |
| `Render.HeaderLeads` | src/ai/mod.rs:76-83 | The message starts with the type, `(scope)` only when a scope is given, `": "`, the description, a newline and the English description. |
| `Render.BreakingFooterIff` | src/ai/mod.rs:116-122 | With a breaking change the message ends in `"\n\nBREAKING CHANGE: " + text`; without one nothing follows header and body. |
| `Render.BodyNeedsBothLists` | src/ai/mod.rs:86 | When either `body` or `body_en` is missing, no body line is written. |
| `Render.EmptyListsRenderNoBody` | src/ai/mod.rs:87 | Two empty lists write no body either. |
| `Render.UnlinesAppend` | src/ai/mod.rs:269-319 | Writing two runs of lines is writing their concatenation. |
| `Render.HighlightPairs` | src/ai/mod.rs:279-281 | One highlight line per pair of the zip, that is the shorter list's length. |
| `Render.Items` | src/ai/mod.rs:288-290 | One `- item` line per category item. |
| `Render.FormatDisplay` | src/ai/mod.rs:269-319 | The pushed output is the display lines, each ended by a newline. |
| `Render.PushTitles` | src/ai/mod.rs:273-274 | The output opens with `## title`, `## title_en` and a blank line. |
| `Render.PushHighlights` | src/ai/mod.rs:277-283 | The highlights block follows the titles. |
| `Render.PushPairs` | src/ai/mod.rs:279-281 | The zip loop appends one line per pair. |
| `Render.PushLines` | src/ai/mod.rs:288-291 | The item loop appends one line per item. |
| `Render.PushSection` | src/ai/mod.rs:286-292 | A category section is written only for a non-empty list: heading, items, blank line. |
| `Render.HighlightBlock` | src/ai/mod.rs:277-283 | A non-empty highlights list writes the heading, the pair lines and a blank line. |
| `Render.UnlinesBlock` | src/ai/mod.rs:286-291 | A heading, some lines and a blank line are written as heading, lines and a closing newline. |
| `Render.DisplayLineCount` | src/ai/mod.rs:269-319 | The display has three title lines, then the highlight block (heading, one line per pair, blank line) when `highlights` is non-empty, then each non-empty category with heading, items and blank line. |
| `Render.HighlightHeadingFollowsChineseList` | src/ai/mod.rs:277-283 | The highlights heading appears whenever `highlights` is non-empty, even with no English pair; it is absent when `highlights` is empty. |
| `Render.SectionItemsInOrder` | src/ai/mod.rs:286-316 | A section starts with its heading and lists its items in order. |
| `Truncation.CharsAtByte` | src/ai/mod.rs:232 | A byte offset that is a character boundary names a character prefix of exactly that many bytes. |
| `Truncation.PrefixEndsOnBoundary` | src/ai/mod.rs:232 | Every character prefix ends on a boundary. |
| `Truncation.TruncateDiff` | src/ai/mod.rs:226-237 | The result is always a prefix of the input, and is the input unchanged when it fits. Otherwise it fits the budget, and one more character would not. |
| `Truncation.PromptDiff` | src/ai/mod.rs:222 | The diff put into the prompt is a prefix of at most 3000 bytes, and is the whole diff when that fits. |
| `Client.ToLower` | src/ai/mod.rs:166 | Lower-casing keeps the length and lowers each letter. |
| `Client.CreateClient` | src/ai/mod.rs:159-175 | Succeeds exactly for names that lower-case to "openai" or "anthropic". The client keeps key, model and budget, and falls back to the provider's public URL. Any other name is an unsupported-provider error. |
| `Client.CreateClientIgnoresCase` | src/ai/mod.rs:166 | A name and its lower-cased form select the same client. |
| `Client.MixedCaseNamesAccepted` | src/ai/mod.rs:159-175 | "OpenAI" and "Anthropic" are accepted with their default URLs; "gemini" is rejected. |
| `Client.SafeMessage` | src/ai/openai.rs:147-153 | 401, 403 and 429 have fixed messages; 500-599 is a service error naming the provider; every other status gets the generic message. |
| `Client.SafeMessagesAgreeOutside5xx` | src/ai/anthropic.rs:76-82 | The two providers' messages coincide exactly outside 500-599. |
| `Client.ReceiveBody` | src/ai/openai.rs:133-165 | A failed send, an unreadable body and an error status each end the call; only a success with a readable body proceeds, with that body. |
| `Client.ErrorBodyNeverSurfaces` | src/ai/anthropic.rs:71-89 | The failure for an error status does not depend on the reply body. |
| `Stream.DecodeDelta` | src/ai/openai.rs:23-26 | A delta decodes exactly when it is an object whose `content` is absent, or present once with null or a string; the content is that string, and none otherwise. |
| `Stream.DecodeChoice` | src/ai/openai.rs:16-21 | A stream choice decodes exactly when it is an object with a `delta` that decodes and a `finish_reason` that is absent, null or a string; its content is the delta's. |
| `Stream.DecodeChunk` | src/ai/openai.rs:11-14 | A chunk decodes exactly when it is an object whose `choices` appears once as an array of decodable choices; the result is those choices, decoded one by one in order. |
| `Stream.LineTextsAppend` | src/ai/openai.rs:33-55 | The texts of two runs of lines are the texts of their concatenation. |
| `Stream.ParseStreamingResponse` | src/ai/openai.rs:29-62 | Gives content exactly when some trimmed line starts with `data: ` and the collected text is non-empty. That content is all `delta.content` strings, in line order and then choice order. |
| `Stream.ReadLines` | src/ai/openai.rs:33-61 | The line loop collects the same text and the same data-line flag as the reference definition. |
| `Stream.ReadLine` | src/ai/openai.rs:34-53 | One line is a data line exactly when its trimmed form starts with `data: `; only then can it add text. |
| `Stream.HasDataLineStep` | src/ai/openai.rs:37-38 | Reading one more line sets the streaming flag exactly when that line is a data line. |
| `Stream.StreamTextSnoc` | src/ai/openai.rs:47-53 | Reading one more line appends that line's text. |
| `Stream.StreamTextAppend` | src/ai/openai.rs:47-53 | The text of two runs of lines is the concatenation of their texts. |
| `Stream.IgnoredLinesAddNothing` | src/ai/openai.rs:36-44 | Lines that are not data lines, and `[DONE]` markers, contribute no text. |
| `Stream.SilentLines` | src/ai/openai.rs:41-44 | An empty line and `data: [DONE]` contribute nothing. |
| `Stream.ChunkLine` | src/ai/openai.rs:47-52 | A data line holding a chunk contributes its choices' contents in order. |
| `Stream.MalformedLineAddsNothing` | src/ai/openai.rs:47 | A data line that does not decode as a chunk contributes nothing. |
| `Stream.DeltaChoices` | src/ai/openai.rs:552-562 | A choice with an empty delta contributes nothing; one with content contributes it, whatever its finish reason. |
| `Stream.DataLineText` | src/ai/openai.rs:37-39 | `data: ` followed by a payload with no trailing whitespace yields that payload. |
| `Stream.TrimPreservesTrimmed` | src/ai/openai.rs:34 | Trimming a string with no whitespace at its ends changes nothing. |
| `Extract.Unwrap` | src/ai/openai.rs:245-250 | A fence is removed only when the opening and closing fences both fit without overlapping; the inside is trimmed. |
| `Extract.StripFence` | src/ai/openai.rs:244-259 | Content without both fences is unchanged. A "```json" wrapper is tried before a bare "```" wrapper. Overlapping fences leave the content as it is. |
| `Extract.JsonFenceUnwraps` | src/ai/openai.rs:245-250 | A reply wrapped in "```json" and "```" comes back trimmed. |
| `Extract.FenceUnwraps` | src/ai/openai.rs:251-256 | A reply wrapped in bare fences comes back trimmed, unless it starts with "json". |
| `Extract.OverlappingFencesKept` | src/ai/openai.rs:245-259 | "```" and "````" are unchanged; "```json```" strips to empty. |
| `Extract.NetStep` | src/ai/openai.rs:268-286 | Each '{' adds one to the depth and each '}' subtracts one. |
| `Extract.ScanClamped` | src/ai/openai.rs:264-287 | A returned span starts at the first '{' and ends just after the first point where the clamped depth returns to zero. There is no span when there is no '{' or it never closes. |
| `Extract.ScanUnclamped` | src/ai/anthropic.rs:141-162 | A returned span starts at the first '{' met at depth exactly zero (a stray '}' drives depth negative) and ends where that span closes. There is no span when no such '{' exists or it never closes. |
| `Extract.SpanShape` | src/ai/openai.rs:270-283 | A found span is at least two characters long, ends with '}', and has equal numbers of '{' and '}'. |
| `Extract.FirstOpenUnique` | src/ai/openai.rs:271-273 | The start the clamped scan records is unique. |
| `Extract.FirstUnclampedStartUnique` | src/ai/anthropic.rs:148-150 | The start the unclamped scan records is unique. |
| `Extract.FirstCloseUnique` | src/ai/openai.rs:280-282 | A span has one end, and a span that closes is not one that never closes. |
| `Text.CountAbsent` | src/ai/openai.rs:268-286 | A character that does not occur is counted zero times. |
| `Extract.StartsAgree` | src/ai/anthropic.rs:145-151 | With no '}' before the first '{', that '{' is where the unclamped scan starts. |
| `Extract.ClampedSpan` | src/ai/openai.rs:264-287 | The span the clamped scan must find, defined from the first '{'. |
| `Extract.UnclampedSpan` | src/ai/anthropic.rs:141-162 | The span the unclamped scan must find, defined from the first '{' at depth zero. |
| `Extract.ClampedSpanIs` | src/ai/openai.rs:264-287 | Whatever meets the clamped scanner's contract is the defined span. |
| `Extract.UnclampedSpanIs` | src/ai/anthropic.rs:141-162 | Whatever meets the unclamped scanner's contract is the defined span. |
| `Extract.SpansAgree` | src/ai/anthropic.rs:153-159 | The two scans find the same span whenever no '}' comes before the first '{'. |
| `Extract.ScansAgree` | src/ai/openai.rs:276-279 | Running both scanners on such a reply gives equal results. |
| `Extract.StrayCloseDiverges` | src/ai/anthropic.rs:153-159 | On `}{"a":1}` the clamped scan finds `{"a":1}` and the unclamped scan finds nothing. |
| `Extract.StrayCloseSpans` | src/ai/anthropic.rs:145-162 | On that reply the span opened at index 1 closes at 8, and the unclamped scan never starts. |
| `Extract.Recover` | src/ai/openai.rs:261-304 | The whole reply is decoded first. Only when that fails is the span tried. Its absence, or its failure, is reported alongside the first error. |
| `Extract.RecoveryAgrees` | src/ai/anthropic.rs:136-170 | With no stray '}', recovery ends the same with either scanner. |
| `OpenAIClient.NextBudget` | src/ai/openai.rs:218 | The retried budget is double the previous one when that stays within 4000, and 4000 otherwise; an initial budget above 4000 is lowered. |
| `OpenAIClient.BudgetClosedForm` | src/ai/openai.rs:102-131 | Attempt 0 uses the configured budget; attempt k > 0 uses the configured budget times 2^k, held to 4000. |
| `OpenAIClient.DoubleStep` | src/ai/openai.rs:218 | One doubling step multiplies the running product by two. |
| `OpenAIClient.RetryBudgetsGrow` | src/ai/openai.rs:217-218 | Retried budgets never shrink and never exceed 4000. |
| `OpenAIClient.CommitMessages` | src/ai/openai.rs:106-121 | Attempt k sends the system instruction first and the prompt last; the truncation reminder is present exactly when k > 0. |
| `OpenAIClient.CommitRequest` | src/ai/openai.rs:105-136 | Attempt k posts to `/chat/completions` in JSON mode with the configured model: system instruction first, prompt last, the reminder exactly when k > 0; the configured budget at k = 0, at most 4000 after. |
| `OpenAIClient.ChangelogRequest` | src/ai/openai.rs:322-346 | The changelog request posts to `/chat/completions` in JSON mode: the changelog instruction and the prompt, the configured budget, no reminder. |
| `OpenAIClient.DecodeResponseMessage` | src/ai/openai.rs:515-518 | The message decodes exactly when it is an object whose `content` is absent, or present once with null or a string; the content is that string, and none otherwise. |
| `OpenAIClient.DecodeChoiceInfo` | src/ai/openai.rs:509-513 | A choice decodes exactly when it is an object whose `message` appears once and decodes and whose `finish_reason` is absent, null or a string; the content and the finish reason are those given. |
| `OpenAIClient.DecodeEnvelope` | src/ai/openai.rs:504-507 | The envelope decodes exactly when it is an object whose `choices` appears once as an array of decodable choices; the result is those choices in order. |
| `OpenAIClient.ReadCompletion` | src/ai/openai.rs:173-203 | A streamed reply is taken whole, with finish reason "stop". Otherwise an envelope that does not decode fails, and an empty choice list fails with no response. A first choice with null content fails with "content is null"; any other first choice is taken with its finish reason. |
| `OpenAIClient.Exchange` | src/ai/openai.rs:133-203 | A failed send is a send error, an unreadable body a read error, an error status the provider's status failure; a success with a body is read as the completion. |
| `OpenAIClient.FinishStep` | src/ai/openai.rs:211-242 | "length" retries exactly before the last attempt. On the last attempt it fails, as empty or as incomplete depending on the trimmed content. "content_filter" fails. "stop", "stop_sequence" or none proceed. Any other reason fails carrying it. |
| `OpenAIClient.Conclude` | src/ai/openai.rs:289-302 | Recovery succeeds with the decoded value; a missing span or an invalid span fails keeping the first parse error. |
| `OpenAIClient.DecodeContent` | src/ai/openai.rs:244-304 | Fence stripping, whole decoding and the clamped-scan fallback give the reference outcome. |
| `OpenAIClient.AttemptResult` | src/ai/openai.rs:133-242 | Only an attempt before the last can ask for a retry. |
| `OpenAIClient.CommitAttempt` | src/ai/openai.rs:105-306 | One attempt sends its attempt's request. It continues exactly when the attempt asks for a retry; otherwise it ends with that attempt's outcome, which is never "failed after multiple attempts". |
| `OpenAIClient.CommitRequestsAt` | src/ai/openai.rs:105-131 | The first n requests are attempts 0 to n-1, in order. |
| `OpenAIClient.SentRequestsShape` | src/ai/openai.rs:102-131 | Of the requests sent, the first carries the configured budget and no reminder; every later one carries the reminder and a budget of at most 4000. |
| `OpenAIClient.FirstStop` | src/ai/openai.rs:105 | The first attempt that does not retry comes before the fourth, and every attempt before it retried. |
| `OpenAIClient.CommitRetriesBounded` | src/ai/openai.rs:217 | No attempt at index 3 or later retries. |
| `OpenAIClient.LastCommitAttempt` | src/ai/openai.rs:103-105 | The last attempt is below four; every earlier attempt retried and it did not. |
| `OpenAIClient.LastAttemptAt` | src/ai/openai.rs:102-105 | An attempt no later than the last is the last exactly when it does not ask for a retry. |
| `OpenAIClient.GenerateCommitMessage` | src/ai/openai.rs:94-312 | The loop runs at most four attempts and sends one request each: attempts 0 to the last, in order. The call's outcome is the last attempt's. The bail after the loop is unreachable, so no call ends in "failed after multiple attempts". |
| `OpenAIClient.GenerateChangelog` | src/ai/openai.rs:314-480 | Sends one request at the configured budget; its content is decoded whatever the finish reason. |
| `OpenAIClient.RetryOnlyOnLength` | src/ai/openai.rs:211-230 | An attempt retries exactly when its reply was read and cut off by the length limit before the last attempt. |
| `OpenAIClient.StreamedReplyAnswers` | src/ai/openai.rs:174-185 | A streamed reply never retries; its content goes straight to decoding. |
| `OpenAIClient.FailedStatusEndsCall` | src/ai/openai.rs:142-160 | A failed status ends the call at once with the provider's status failure, at any attempt. |
| `OpenAIClient.FinishReasonGuardsOnlyCommits` | src/ai/openai.rs:235-237 | "content_filter" fails a commit attempt, but a changelog call decodes the content anyway. |
| `OpenAIClient.AlwaysTruncatedGivesUp` | src/ai/openai.rs:105-230 | A server that cuts every reply off at the length limit with non-blank content is asked four times, and the call fails as incomplete. |
| `AnthropicClient.DecodeBlock` | src/ai/anthropic.rs:330-333 | A block decodes exactly when it is an object whose `text` appears once with a string, and gives that string. |
| `AnthropicClient.DecodeEnvelope` | src/ai/anthropic.rs:325-328 | The envelope decodes exactly when it is an object whose `content` appears once as an array of decodable blocks; the result is their texts in order. |
| `AnthropicClient.ReadContent` | src/ai/anthropic.rs:102-110 | An envelope that does not decode fails, and an empty block list fails with no response. A decoded, non-empty block list gives the first block's text. |
| `AnthropicClient.Exchange` | src/ai/anthropic.rs:60-110 | A failed send is a send error, an unreadable body a read error, an error status the provider's status failure; a success with a body is read as the first block's text. |
| `AnthropicClient.Conclude` | src/ai/anthropic.rs:164-170 | Recovery succeeds with the decoded value; a missing or invalid span fails without the first parse error. |
| `AnthropicClient.DecodeContent` | src/ai/anthropic.rs:118-172 | Fence stripping, whole decoding and the unclamped-scan fallback give the reference outcome. |
| `AnthropicClient.Generate` | src/ai/anthropic.rs:40-175 | Sends exactly one request; the outcome is the decoded first block. |
| `AnthropicClient.GenerateCommitMessage` | src/ai/anthropic.rs:40-175 | One request at the configured budget, decoded as a commit message. |
| `AnthropicClient.GenerateChangelog` | src/ai/anthropic.rs:177-309 | One request at the configured budget, decoded as a changelog. |
| `AnthropicClient.MessagesRequest` | src/ai/anthropic.rs:48-62 | Posts to `/v1/messages` with the configured model and budget and no JSON mode: one user message, the prompt followed by the JSON-only reminder. |
| `AnthropicClient.ProvidersAgreeWithoutStrayClose` | src/ai/anthropic.rs:141-170 | With no '}' before the first '{' of the cleaned reply, both clients succeed or fail together, and with the same value. |
| `AnthropicClient.StrayCloseSplitsProviders` | src/ai/anthropic.rs:153-169 | On `}{"a":1}` the OpenAI client recovers the object while this client reports no JSON object. |
| `Git.Classify` | src/git.rs:33-41 | Modified wins, then new, then deleted, then renamed; an entry with none of these flags is unclassified. |
| `Git.GetStatus` | src/git.rs:14-50 | The loop fills the four lists in entry order by classification, with "unknown" for a missing path; clean means no entries. |
| `Git.TotalChanges` | src/git.rs:188-193 | The total is zero exactly when all four lists are empty. |
| `Git.BucketAppend` | src/git.rs:29-42 | The lists of two runs of entries concatenate. |
| `Git.EntryInOneList` | src/git.rs:33-41 | Each entry lands in the list of its class, in place, and in no other. |
| `Git.TotalChangesPartition` | src/git.rs:29-42 | The total plus the unclassified entries is the number of entries. |
| `Git.CleanListsNothing` | src/git.rs:45 | A clean status lists nothing. A status is unclean with a zero total exactly when there are entries and none is classified. |
| `Git.DirtyWithoutChanges` | src/git.rs:45 | One unflagged entry gives an unclean status with a zero total. |
| `Git.ModifiedTakesPriority` | src/git.rs:33-34 | A modified entry is listed only as modified. |
| `Git.Marker` | src/git.rs:142-147 | Additions get "+", deletions "-" and context " "; every other origin gets no prefix. |
| `Git.GetDiff` | src/git.rs:139-153 | The printed diff is each line's prefix and content, in order; undecodable content prints as empty. |
| `Git.MarkedLineDecodes` | src/git.rs:142-149 | An addition, deletion or context line's origin and content can be read back from its printed form. |
| `Git.EmptyDiffIff` | src/git.rs:139-153 | The diff is empty exactly when every line has neither prefix nor content. |
| `Git.CombinedDiff` | src/git.rs:160-175 | Empty exactly when both diffs are empty. The staged section leads, the unstaged section ends, and "\n\n" separates them only when both are present. |
| `Git.GetCombinedDiff` | src/git.rs:156-176 | The pushes build the combined diff. |
| `Git.CombinedDiffSplits` | src/git.rs:162-173 | The staged diff, the separator and the unstaged diff can each be read back from the combined text at their positions. |

## Left out

- HTTP transport, async execution, timeouts and headers (`reqwest`): a call's reply is the value a `Server` function returns for the attempt and request.
- JSON text parsing (serde_json): a `Parser` parameter. Only the field-level decoding rules are modelled. A struct read from a JSON array (serde's sequence form) is not modelled.
- The wording of error messages: a failure is identified by its constructor. The HTTP failure carries provider and status, and `Client.SafeMessage` gives its sanitized text.
- Debug printing and colouring: they do not affect control flow.
- The request temperature (0.7): a floating-point value that is only passed through.
- Prompt building (`build_prompt`, `build_changelog_prompt`): the prompt is a parameter. Only the 3000-byte `truncate_diff` step is modelled (`Truncation.PromptDiff`).
- The `i32` brace depth in both scanners: modelled as an unbounded integer, since a reply would need more than two billion braces to overflow it.
- Byte offsets in the scanners and in the fence stripper are character indices; `Truncation` models bytes exactly.
- Client.ToLower: lower-cases ASCII letters only, while `str::to_lowercase` also lowers other characters. Only two non-ASCII characters lower-case to something holding an ASCII letter. The Kelvin sign gives 'k', which neither "openai" nor "anthropic" contains. Capital I with dot above gives 'i' followed by a combining dot, which neither name contains either. So provider selection decides the same.
- A missing `breaking_change` key: whether serde-derive reads it as none or as an error depends on code outside this model (the field has a custom deserializer and no default). It is the `MissingBreakingChange` parameter of `Schema.DecodeCommitMessage`.
- Schema.DecodeCommitMessage: when an object has several faults, the error reported is the first in field-declaration order. serde-derive reports the first in key order: a repeated key at its second occurrence, a mistyped value when its key is read, a missing field only after all keys. Whether decoding succeeds, and every decoded value, are exact.
- Schema.DecodeCategories: reports the first of several faults in field-declaration order, as `Schema.DecodeCommitMessage` does.
- Schema.DecodeChangelog: reports the first of several faults in field-declaration order, as `Schema.DecodeCommitMessage` does.
- git2 repository access (`open`, `statuses`, `head`, tree and index diffs) and `get_branch_info`: status entries and diff lines are inputs, with status flags and line origins as plain values.
- `usize` overflow in `total_changes`: the total is an unbounded integer.
- The concrete streaming test of src/ai/openai.rs:525-541: its chunks are shaped like `Stream.DeltaChoices` but the exact text is not restated.
- AnthropicClient.Conclude: the no-object failure carries the call's target, although the source's message for it does not depend on it.
- src/main.rs, src/config.rs and src/cli.rs: terminal interaction, configuration files and argument declarations are outside the reply pipeline.
