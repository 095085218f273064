/** The two response schemas of src/ai/mod.rs, `CommitMessage` and
    `ChangelogSummary`, with the lenient decoding serde-derive performs for
    them (field aliases, defaults, the `body` and `breaking_change`
    coercions) and the JSON the derived `Serialize` produces. */
module Schema {
  import opened Basics
  import opened Json

  datatype CommitMessage = CommitMessage(
    commitType: string,
    scope: Option<string>,
    description: string,
    descriptionEn: string,
    body: Option<seq<string>>,
    bodyEn: Option<seq<string>>,
    breakingChange: Option<string>)

  datatype ChangelogCategories = ChangelogCategories(
    features: seq<string>,
    fixes: seq<string>,
    improvements: seq<string>,
    others: seq<string>)

  datatype ChangelogSummary = ChangelogSummary(
    title: string,
    titleEn: string,
    highlights: seq<string>,
    highlightsEn: seq<string>,
    categories: ChangelogCategories)

  /** What serde-derive does with a missing `breaking_change` key. The field
      has a custom deserializer but no default, and which of the two
      happens is decided by code that is not part of this model. */
  datatype MissingBreakingChange = MissingMeansNone | MissingIsError

  /** Keys accepted for `commit_type`: the field name and its alias. */
  const CommitTypeKeys: set<string> := {"commit_type", "type"}

  /** The required outer keys of a changelog. */
  const ChangelogKeys: set<string> := {"title", "title_en", "highlights", "highlights_en", "categories"}

  const BreakingChangeSentinel := "Breaking change"

  // ---- Which JSON objects each derived decoder accepts ----

  /** `body`: absent, or given once with a string, null or an array of strings. */
  predicate BodyAccepted(l: Lookup) {
    l.Absent? || (l.Present? && (l.value.Str? || l.value.Null? || StringArray(l.value)))
  }

  /** `breaking_change`: given once with a boolean, null or a string, or
      absent when serde treats absence as `None`. */
  predicate BreakingChangeAccepted(l: Lookup, missing: MissingBreakingChange) {
    || (l.Absent? && missing.MissingMeansNone?)
    || (l.Present? && (l.value.Bool? || l.value.Null? || l.value.Str?))
  }

  predicate CommitAccepted(ms: seq<Member>, missing: MissingBreakingChange) {
    && RequiredString(Find(ms, CommitTypeKeys))
    && OptionalNullableString(Find(ms, {"scope"}))
    && RequiredString(Find(ms, {"description"}))
    && OptionalString(Find(ms, {"description_en"}))
    && BodyAccepted(Find(ms, {"body"}))
    && OptionalNullableList(Find(ms, {"body_en"}))
    && BreakingChangeAccepted(Find(ms, {"breaking_change"}), missing)
  }

  predicate CategoriesAccepted(ms: seq<Member>) {
    && OptionalList(Find(ms, {"features"}))
    && OptionalList(Find(ms, {"fixes"}))
    && OptionalList(Find(ms, {"improvements"}))
    && OptionalList(Find(ms, {"others"}))
  }

  predicate ChangelogAccepted(ms: seq<Member>) {
    && RequiredString(Find(ms, {"title"}))
    && RequiredString(Find(ms, {"title_en"}))
    && RequiredList(Find(ms, {"highlights"}))
    && RequiredList(Find(ms, {"highlights_en"}))
    && Find(ms, {"categories"}).Present?
    && Find(ms, {"categories"}).value.Object?
    && CategoriesAccepted(Find(ms, {"categories"}).value.members)
  }

  /** `deserialize_body`: a string is a one-line body, an array of strings
      is kept in order, null is no body; anything else matches no variant. */
  function DeserializeBody(v: JsonValue): (r: Result<Option<seq<string>>, DecodeError>)
    ensures v.Str? ==> r == Ok(Some([v.s]))
    ensures v.Null? ==> r == Ok(None)
    ensures r.Ok? <==> v.Str? || v.Null? || StringArray(v)
    ensures v.Array? && r.Ok? ==>
              && r.value.Some? && |r.value.value| == |v.items|
              && forall i :: 0 <= i < |v.items| ==> v.items[i] == Str(r.value.value[i])
    ensures r.Err? ==> r.error == NoVariantMatched("body")
  {
    match v
    case Str(s) => Ok(Some([s]))
    case Array(items) =>
      if AllStrings(items) then Ok(Some(Strings(items))) else Err(NoVariantMatched("body"))
    case Null => Ok(None)
    case _ => Err(NoVariantMatched("body"))
  }

  /** `deserialize_breaking_change`: `false` and null mean no breaking
      change, `true` becomes the fixed sentinel text, a string is kept
      verbatim; numbers, arrays and objects match no variant. */
  function DeserializeBreakingChange(v: JsonValue): (r: Result<Option<string>, DecodeError>)
    ensures v == Bool(false) || v == Null ==> r == Ok(None)
    ensures v == Bool(true) ==> r == Ok(Some(BreakingChangeSentinel))
    ensures v.Str? ==> r == Ok(Some(v.s))
    ensures r.Ok? <==> v.Bool? || v.Null? || v.Str?
    ensures r.Err? ==> r.error == NoVariantMatched("breaking_change")
  {
    match v
    case Bool(b) => if b then Ok(Some(BreakingChangeSentinel)) else Ok(None)
    case Null => Ok(None)
    case Str(s) => Ok(Some(s))
    case _ => Err(NoVariantMatched("breaking_change"))
  }

  /** Adapters giving the two coercions the field-decoder shape. */
  function BodyField(v: JsonValue, field: string): Result<Option<seq<string>>, DecodeError> {
    DeserializeBody(v)
  }

  function BreakingChangeField(v: JsonValue, field: string): Result<Option<string>, DecodeError> {
    DeserializeBreakingChange(v)
  }

  /** The `breaking_change` field: present values go through the custom
      deserializer; absence follows `missing`. */
  function BreakingChangeOf(members: seq<Member>, missing: MissingBreakingChange): Result<Option<string>, DecodeError> {
    if missing.MissingMeansNone? then
      Defaulted(members, {"breaking_change"}, "breaking_change", None, BreakingChangeField)
    else
      Required(members, {"breaking_change"}, "breaking_change", BreakingChangeField)
  }

  /** Derived `Deserialize for CommitMessage` over a JSON object. */
  function DecodeCommitMessage(v: JsonValue, missing: MissingBreakingChange): (r: Result<CommitMessage, DecodeError>)
    ensures r.Ok? <==> v.Object? && CommitAccepted(v.members, missing)
    ensures !v.Object? ==> r.Err?
    ensures v.Object? && !Find(v.members, CommitTypeKeys).Present? ==> r.Err?
    ensures v.Object? && !Find(v.members, {"description"}).Present? ==> r.Err?
    ensures v.Object? && (exists s :: Find(v.members, {"body_en"}) == Present(Str(s))) ==> r.Err?
    ensures r.Ok? ==>
              && v.Object?
              && Find(v.members, CommitTypeKeys) == Present(Str(r.value.commitType))
              && Find(v.members, {"description"}) == Present(Str(r.value.description))
    ensures r.Ok? ==> match Find(v.members, {"scope"})
                      case Absent => r.value.scope.None?
                      case Present(x) => AsOptString(x, "scope") == Ok(r.value.scope)
                      case Repeated => false
    ensures r.Ok? ==> match Find(v.members, {"description_en"})
                      case Absent => r.value.descriptionEn == ""
                      case Present(x) => x == Str(r.value.descriptionEn)
                      case Repeated => false
    ensures r.Ok? ==> match Find(v.members, {"body"})
                      case Absent => r.value.body.None?
                      case Present(x) => DeserializeBody(x) == Ok(r.value.body)
                      case Repeated => false
    ensures r.Ok? ==> match Find(v.members, {"body_en"})
                      case Absent => r.value.bodyEn.None?
                      case Present(x) => AsOptStringList(x, "body_en") == Ok(r.value.bodyEn)
                      case Repeated => false
    ensures r.Ok? ==> match Find(v.members, {"breaking_change"})
                      case Absent => missing.MissingMeansNone? && r.value.breakingChange.None?
                      case Present(x) => DeserializeBreakingChange(x) == Ok(r.value.breakingChange)
                      case Repeated => false
  {
    if !v.Object? then Err(NotAnObject("CommitMessage"))
    else
      var ms := v.members;
      var commitType :- Required(ms, CommitTypeKeys, "commit_type", AsString);
      var scope :- Defaulted(ms, {"scope"}, "scope", None, AsOptString);
      var description :- Required(ms, {"description"}, "description", AsString);
      var descriptionEn :- Defaulted(ms, {"description_en"}, "description_en", "", AsString);
      var body :- Defaulted(ms, {"body"}, "body", None, BodyField);
      var bodyEn :- Defaulted(ms, {"body_en"}, "body_en", None, AsOptStringList);
      var breaking :- BreakingChangeOf(ms, missing);
      Ok(CommitMessage(commitType, scope, description, descriptionEn, body, bodyEn, breaking))
  }

  /** `ChangelogCategories`: an object whose four lists each default to empty. */
  function DecodeCategories(v: JsonValue, field: string): (r: Result<ChangelogCategories, DecodeError>)
    ensures r.Ok? <==> v.Object? && CategoriesAccepted(v.members)
    ensures !v.Object? ==> r.Err?
    ensures r.Ok? ==> match Find(v.members, {"features"})
                      case Absent => r.value.features == []
                      case Present(x) => AsStringList(x, "features") == Ok(r.value.features)
                      case Repeated => false
    ensures r.Ok? ==> match Find(v.members, {"fixes"})
                      case Absent => r.value.fixes == []
                      case Present(x) => AsStringList(x, "fixes") == Ok(r.value.fixes)
                      case Repeated => false
    ensures r.Ok? ==> match Find(v.members, {"improvements"})
                      case Absent => r.value.improvements == []
                      case Present(x) => AsStringList(x, "improvements") == Ok(r.value.improvements)
                      case Repeated => false
    ensures r.Ok? ==> match Find(v.members, {"others"})
                      case Absent => r.value.others == []
                      case Present(x) => AsStringList(x, "others") == Ok(r.value.others)
                      case Repeated => false
  {
    if !v.Object? then Err(NotAnObject(field))
    else
      var ms := v.members;
      var features :- Defaulted(ms, {"features"}, "features", [], AsStringList);
      var fixes :- Defaulted(ms, {"fixes"}, "fixes", [], AsStringList);
      var improvements :- Defaulted(ms, {"improvements"}, "improvements", [], AsStringList);
      var others :- Defaulted(ms, {"others"}, "others", [], AsStringList);
      Ok(ChangelogCategories(features, fixes, improvements, others))
  }

  /** `serde_json::from_str::<CommitMessage>` after the JSON syntax step,
      as one value that both clients pass around. */
  function CommitDecoder(missing: MissingBreakingChange): JsonValue -> Result<CommitMessage, DecodeError> {
    v => DecodeCommitMessage(v, missing)
  }

  /** Derived `Deserialize for ChangelogSummary`: all five outer fields are
      required. */
  function DecodeChangelog(v: JsonValue): (r: Result<ChangelogSummary, DecodeError>)
    ensures r.Ok? <==> v.Object? && ChangelogAccepted(v.members)
    ensures !v.Object? ==> r.Err?
    ensures v.Object? && (exists name :: name in ChangelogKeys && Find(v.members, {name}).Absent?) ==> r.Err?
    ensures r.Ok? ==>
      && v.Object?
      && Find(v.members, {"title"}) == Present(Str(r.value.title))
      && Find(v.members, {"title_en"}) == Present(Str(r.value.titleEn))
      && Find(v.members, {"highlights"}).Present?
      && AsStringList(Find(v.members, {"highlights"}).value, "highlights") == Ok(r.value.highlights)
      && Find(v.members, {"highlights_en"}).Present?
      && AsStringList(Find(v.members, {"highlights_en"}).value, "highlights_en") == Ok(r.value.highlightsEn)
      && Find(v.members, {"categories"}).Present?
      && DecodeCategories(Find(v.members, {"categories"}).value, "categories") == Ok(r.value.categories)
  {
    if !v.Object? then Err(NotAnObject("ChangelogSummary"))
    else
      var ms := v.members;
      var title :- Required(ms, {"title"}, "title", AsString);
      var titleEn :- Required(ms, {"title_en"}, "title_en", AsString);
      var highlights :- Required(ms, {"highlights"}, "highlights", AsStringList);
      var highlightsEn :- Required(ms, {"highlights_en"}, "highlights_en", AsStringList);
      var categories :- Required(ms, {"categories"}, "categories", DecodeCategories);
      Ok(ChangelogSummary(title, titleEn, highlights, highlightsEn, categories))
  }

  // ---- The derived `Serialize` implementations ----

  function EncodeStrings(l: seq<string>): (v: JsonValue)
    ensures v.Array? && AllStrings(v.items) && Strings(v.items) == l
  {
    var items := seq(|l|, i requires 0 <= i < |l| => Str(l[i]));
    StringsOfEncoded(l, items);
    Array(items)
  }

  lemma {:induction false} StringsOfEncoded(l: seq<string>, items: seq<JsonValue>)
    requires |items| == |l| && forall i :: 0 <= i < |l| ==> items[i] == Str(l[i])
    ensures AllStrings(items) && Strings(items) == l
  {
    if l != [] {
      StringsOfEncoded(l[1..], items[1..]);
    }
  }

  function EncodeOptString(o: Option<string>): JsonValue {
    match o
    case None => Null
    case Some(s) => Str(s)
  }

  function EncodeOptStrings(o: Option<seq<string>>): JsonValue {
    match o
    case None => Null
    case Some(l) => EncodeStrings(l)
  }

  /** Serialized field names are the Rust field names. */
  function EncodeCommitMessage(m: CommitMessage): (v: JsonValue)
    ensures v.Object? && |v.members| == 7
    ensures Find(v.members, CommitTypeKeys) == Present(Str(m.commitType))
    ensures Find(v.members, {"scope"}) == Present(EncodeOptString(m.scope))
    ensures Find(v.members, {"description"}) == Present(Str(m.description))
    ensures Find(v.members, {"description_en"}) == Present(Str(m.descriptionEn))
    ensures Find(v.members, {"body"}) == Present(EncodeOptStrings(m.body))
    ensures Find(v.members, {"body_en"}) == Present(EncodeOptStrings(m.bodyEn))
    ensures Find(v.members, {"breaking_change"}) == Present(EncodeOptString(m.breakingChange))
  {
    var ms := [
      Member("commit_type", Str(m.commitType)),
      Member("scope", EncodeOptString(m.scope)),
      Member("description", Str(m.description)),
      Member("description_en", Str(m.descriptionEn)),
      Member("body", EncodeOptStrings(m.body)),
      Member("body_en", EncodeOptStrings(m.bodyEn)),
      Member("breaking_change", EncodeOptString(m.breakingChange))];
    FindUnique(ms, CommitTypeKeys, 0);
    FindUnique(ms, {"scope"}, 1);
    FindUnique(ms, {"description"}, 2);
    FindUnique(ms, {"description_en"}, 3);
    FindUnique(ms, {"body"}, 4);
    FindUnique(ms, {"body_en"}, 5);
    FindUnique(ms, {"breaking_change"}, 6);
    Object(ms)
  }

  function EncodeCategories(c: ChangelogCategories): (v: JsonValue)
    ensures v.Object? && |v.members| == 4
    ensures Find(v.members, {"features"}) == Present(EncodeStrings(c.features))
    ensures Find(v.members, {"fixes"}) == Present(EncodeStrings(c.fixes))
    ensures Find(v.members, {"improvements"}) == Present(EncodeStrings(c.improvements))
    ensures Find(v.members, {"others"}) == Present(EncodeStrings(c.others))
  {
    var cs := [
      Member("features", EncodeStrings(c.features)),
      Member("fixes", EncodeStrings(c.fixes)),
      Member("improvements", EncodeStrings(c.improvements)),
      Member("others", EncodeStrings(c.others))];
    FindUnique(cs, {"features"}, 0);
    FindUnique(cs, {"fixes"}, 1);
    FindUnique(cs, {"improvements"}, 2);
    FindUnique(cs, {"others"}, 3);
    Object(cs)
  }

  function EncodeChangelog(s: ChangelogSummary): (v: JsonValue)
    ensures v.Object? && |v.members| == 5
    ensures Find(v.members, {"title"}) == Present(Str(s.title))
    ensures Find(v.members, {"title_en"}) == Present(Str(s.titleEn))
    ensures Find(v.members, {"highlights"}) == Present(EncodeStrings(s.highlights))
    ensures Find(v.members, {"highlights_en"}) == Present(EncodeStrings(s.highlightsEn))
    ensures Find(v.members, {"categories"}) == Present(EncodeCategories(s.categories))
  {
    var ms := [
      Member("title", Str(s.title)),
      Member("title_en", Str(s.titleEn)),
      Member("highlights", EncodeStrings(s.highlights)),
      Member("highlights_en", EncodeStrings(s.highlightsEn)),
      Member("categories", EncodeCategories(s.categories))];
    FindUnique(ms, {"title"}, 0);
    FindUnique(ms, {"title_en"}, 1);
    FindUnique(ms, {"highlights"}, 2);
    FindUnique(ms, {"highlights_en"}, 3);
    FindUnique(ms, {"categories"}, 4);
    Object(ms)
  }

  /** Decoding what the derived serializer wrote gives back the message,
      whatever serde does with a missing `breaking_change`. */
  lemma CommitMessageRoundTrip(m: CommitMessage, missing: MissingBreakingChange)
    ensures DecodeCommitMessage(EncodeCommitMessage(m), missing) == Ok(m)
  {
    DecodeCommitFields(EncodeCommitMessage(m).members, m, missing);
  }

  lemma DecodeCommitFields(ms: seq<Member>, m: CommitMessage, missing: MissingBreakingChange)
    requires Find(ms, CommitTypeKeys) == Present(Str(m.commitType))
    requires Find(ms, {"scope"}) == Present(EncodeOptString(m.scope))
    requires Find(ms, {"description"}) == Present(Str(m.description))
    requires Find(ms, {"description_en"}) == Present(Str(m.descriptionEn))
    requires Find(ms, {"body"}) == Present(EncodeOptStrings(m.body))
    requires Find(ms, {"body_en"}) == Present(EncodeOptStrings(m.bodyEn))
    requires Find(ms, {"breaking_change"}) == Present(EncodeOptString(m.breakingChange))
    ensures DecodeCommitMessage(Object(ms), missing) == Ok(m)
  {
    assert AsOptString(EncodeOptString(m.scope), "scope") == Ok(m.scope);
    assert DeserializeBody(EncodeOptStrings(m.body)) == Ok(m.body);
    assert AsOptStringList(EncodeOptStrings(m.bodyEn), "body_en") == Ok(m.bodyEn);
    assert DeserializeBreakingChange(EncodeOptString(m.breakingChange)) == Ok(m.breakingChange);
  }

  lemma ChangelogRoundTrip(s: ChangelogSummary)
    ensures DecodeChangelog(EncodeChangelog(s)) == Ok(s)
  {
    CategoriesRoundTrip(s.categories);
    DecodeChangelogFields(EncodeChangelog(s).members, s);
  }

  lemma CategoriesRoundTrip(c: ChangelogCategories)
    ensures DecodeCategories(EncodeCategories(c), "categories") == Ok(c)
  {
    DecodeCategoryFields(EncodeCategories(c).members, c);
  }

  lemma DecodeCategoryFields(cs: seq<Member>, c: ChangelogCategories)
    requires Find(cs, {"features"}) == Present(EncodeStrings(c.features))
    requires Find(cs, {"fixes"}) == Present(EncodeStrings(c.fixes))
    requires Find(cs, {"improvements"}) == Present(EncodeStrings(c.improvements))
    requires Find(cs, {"others"}) == Present(EncodeStrings(c.others))
    ensures DecodeCategories(Object(cs), "categories") == Ok(c)
  {
  }

  lemma DecodeChangelogFields(ms: seq<Member>, s: ChangelogSummary)
    requires Find(ms, {"title"}) == Present(Str(s.title))
    requires Find(ms, {"title_en"}) == Present(Str(s.titleEn))
    requires Find(ms, {"highlights"}) == Present(EncodeStrings(s.highlights))
    requires Find(ms, {"highlights_en"}) == Present(EncodeStrings(s.highlightsEn))
    requires Find(ms, {"categories"}) == Present(EncodeCategories(s.categories))
    requires DecodeCategories(EncodeCategories(s.categories), "categories") == Ok(s.categories)
    ensures DecodeChangelog(Object(ms)) == Ok(s)
  {
  }

  /** The `type` alias: a provider answer using the short key decodes. */
  lemma TypeAliasAccepted(t: string, d: string)
    ensures DecodeCommitMessage(Object([Member("type", Str(t)), Member("description", Str(d))]), MissingMeansNone)
         == Ok(CommitMessage(t, None, d, "", None, None, None))
  {
    var ms := [Member("type", Str(t)), Member("description", Str(d))];
    FindUnique(ms, CommitTypeKeys, 0);
    FindUnique(ms, {"description"}, 1);
    FindAbsent(ms, {"scope"});
    FindAbsent(ms, {"description_en"});
    FindAbsent(ms, {"body"});
    FindAbsent(ms, {"body_en"});
    FindAbsent(ms, {"breaking_change"});
  }

  /** Two members naming the type, as `type` and `commit_type` or either
      one twice, are a duplicate `commit_type`, whatever else the object
      holds: that field is read first. */
  lemma BothTypeKeysRejected(ms: seq<Member>, missing: MissingBreakingChange)
    requires TwoAt(ms, CommitTypeKeys)
    ensures DecodeCommitMessage(Object(ms), missing) == Err(DuplicateField("commit_type"))
  {
    FindCases(ms, CommitTypeKeys);
  }

  /** `{"type": t1, "commit_type": t2, "description": d}` is rejected. */
  lemma BothTypeKeysExample(t1: string, t2: string, d: string, missing: MissingBreakingChange)
    ensures DecodeCommitMessage(Object([Member("type", Str(t1)), Member("commit_type", Str(t2)),
                                        Member("description", Str(d))]), missing)
            == Err(DuplicateField("commit_type"))
  {
    var ms := [Member("type", Str(t1)), Member("commit_type", Str(t2)), Member("description", Str(d))];
    assert ms[0].key in CommitTypeKeys && ms[1].key in CommitTypeKeys;
    BothTypeKeysRejected(ms, missing);
  }
}
