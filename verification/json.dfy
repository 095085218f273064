/** An abstract JSON value and the field-level decoding rules that
    serde-derive applies when it fills a Rust struct from a JSON object.
    Turning JSON text into a value (serde_json's parser) is not modelled:
    every operation that needs it receives a `Parser` as a parameter. */
module Json {
  import opened Basics

  datatype JsonValue =
    | Null
    | Bool(b: bool)
    | Number(literal: string)
    | Str(s: string)
    | Array(items: seq<JsonValue>)
    /** Members in text order; duplicate keys are kept, as serde sees them. */
    | Object(members: seq<Member>)

  datatype Member = Member(key: string, value: JsonValue)

  /** serde_json's text parser: `None` for text that is not one JSON value. */
  type Parser = string -> Option<JsonValue>

  /** Why a value could not be decoded into a Rust type. */
  datatype DecodeError =
    | Syntax                        // the text is not JSON at all
    | NotAnObject(field: string)    // a struct was expected
    | MissingField(field: string)
    | DuplicateField(field: string)
    | InvalidType(field: string)
    | NoVariantMatched(field: string) // an untagged enum matched no variant

  /** The outcome of looking up one struct field among an object's members. */
  datatype Lookup = Absent | Present(value: JsonValue) | Repeated

  /** The members whose key is one of `names` (the field name and its
      aliases). serde-derive rejects a field that is given twice. */
  function Find(members: seq<Member>, names: set<string>): Lookup {
    if members == [] then Absent
    else
      var rest := Find(members[1..], names);
      if members[0].key in names then
        if rest.Absent? then Present(members[0].value) else Repeated
      else rest
  }

  /** A field is absent exactly when no member carries one of its keys. */
  lemma {:induction false} FindAbsent(members: seq<Member>, names: set<string>)
    ensures Find(members, names).Absent? <==> forall i :: 0 <= i < |members| ==> members[i].key !in names
  {
    if members != [] {
      FindAbsent(members[1..], names);
      assert forall i :: 0 < i < |members| ==> members[i] == members[1..][i - 1];
    }
  }

  /** A key given exactly once is found with its value. */
  lemma {:induction false} FindUnique(members: seq<Member>, names: set<string>, i: nat)
    requires i < |members| && members[i].key in names
    requires forall j :: 0 <= j < |members| && j != i ==> members[j].key !in names
    ensures Find(members, names) == Present(members[i].value)
  {
    if i == 0 {
      assert forall j :: 0 <= j < |members[1..]| ==> members[1..][j] == members[j + 1];
      FindAbsent(members[1..], names);
    } else {
      FindUnique(members[1..], names, i - 1);
    }
  }

  /** Rust `String`. */
  function AsString(v: JsonValue, field: string): (r: Result<string, DecodeError>)
    ensures r.Ok? <==> v.Str?
    ensures r.Ok? ==> r.value == v.s
  {
    if v.Str? then Ok(v.s) else Err(InvalidType(field))
  }

  /** Rust `Option<String>`: null is `None`. */
  function AsOptString(v: JsonValue, field: string): (r: Result<Option<string>, DecodeError>)
    ensures r.Ok? <==> v.Str? || v.Null?
    ensures v.Null? ==> r == Ok(None)
    ensures v.Str? ==> r == Ok(Some(v.s))
  {
    match v
    case Null => Ok(None)
    case Str(s) => Ok(Some(s))
    case _ => Err(InvalidType(field))
  }

  predicate AllStrings(items: seq<JsonValue>) {
    forall i :: 0 <= i < |items| ==> items[i].Str?
  }

  function Strings(items: seq<JsonValue>): (r: seq<string>)
    requires AllStrings(items)
    ensures |r| == |items|
    ensures forall i :: 0 <= i < |items| ==> items[i] == Str(r[i])
  {
    if items == [] then [] else [items[0].s] + Strings(items[1..])
  }

  /** Rust `Vec<String>`: an array whose every element is a string. */
  function AsStringList(v: JsonValue, field: string): (r: Result<seq<string>, DecodeError>)
    ensures r.Ok? <==> v.Array? && AllStrings(v.items)
    ensures r.Ok? ==> |r.value| == |v.items| && forall i :: 0 <= i < |v.items| ==> v.items[i] == Str(r.value[i])
  {
    if v.Array? && AllStrings(v.items) then Ok(Strings(v.items)) else Err(InvalidType(field))
  }

  /** Rust `Option<Vec<String>>`: null is `None`. */
  function AsOptStringList(v: JsonValue, field: string): (r: Result<Option<seq<string>>, DecodeError>)
    ensures r.Ok? <==> v.Null? || (v.Array? && AllStrings(v.items))
    ensures v.Null? ==> r == Ok(None)
    ensures r.Ok? && r.value.Some? ==> AsStringList(v, field) == Ok(r.value.value)
  {
    if v.Null? then Ok(None)
    else
      var l :- AsStringList(v, field);
      Ok(Some(l))
  }

  /** Rust `Vec<T>`: every element decoded, in order; one bad element
      fails the whole sequence. */
  function DecodeAll<T>(items: seq<JsonValue>, decode: JsonValue -> Result<T, DecodeError>): (r: Result<seq<T>, DecodeError>)
    ensures r.Ok? ==> |r.value| == |items|
    ensures r.Ok? ==> forall i :: 0 <= i < |items| ==> decode(items[i]) == Ok(r.value[i])
    ensures r.Err? ==> exists i :: 0 <= i < |items| && decode(items[i]).Err?
  {
    if items == [] then Ok([])
    else
      var first :- decode(items[0]);
      var rest :- DecodeAll(items[1..], decode);
      assert forall i :: 1 <= i < |items| ==> items[i] == items[1..][i - 1];
      Ok([first] + rest)
  }

  lemma DecodeAllSingle<T>(item: JsonValue, decode: JsonValue -> Result<T, DecodeError>)
    requires decode(item).Ok?
    ensures DecodeAll([item], decode) == Ok([decode(item).value])
  {
    assert [item][0] == item && [item][1..] == [];
    assert DecodeAll([item][1..], decode) == Ok([]);
    var r := DecodeAll([item], decode);
    assert r.Ok?;
    assert r.value == [r.value[0]];
  }

  /** A field is repeated exactly when two members carry one of its keys. */
  lemma {:induction false} FindRepeated(members: seq<Member>, names: set<string>)
    ensures Find(members, names).Repeated? <==>
              exists i, j :: 0 <= i < j < |members| && members[i].key in names && members[j].key in names
  {
    if members != [] {
      var rest := members[1..];
      FindRepeated(rest, names);
      FindAbsent(rest, names);
      if exists i, j :: 0 <= i < j < |members| && members[i].key in names && members[j].key in names {
        var i, j :| 0 <= i < j < |members| && members[i].key in names && members[j].key in names;
        assert rest[j - 1] == members[j];
        if i > 0 {
          assert rest[i - 1] == members[i];
        }
      }
      if Find(members, names).Repeated? {
        if members[0].key in names {
          var k :| 0 <= k < |rest| && rest[k].key in names;
          assert members[k + 1] == rest[k];
        } else {
          var i, j :| 0 <= i < j < |rest| && rest[i].key in names && rest[j].key in names;
          assert members[i + 1] == rest[i] && members[j + 1] == rest[j];
        }
      }
    }
  }

  /** No member carries a key in `names`. */
  predicate NoneAt(members: seq<Member>, names: set<string>) {
    forall i :: 0 <= i < |members| ==> members[i].key !in names
  }

  /** Two members carry a key in `names`. */
  predicate TwoAt(members: seq<Member>, names: set<string>) {
    exists i, j :: 0 <= i < j < |members| && members[i].key in names && members[j].key in names
  }

  /** The member at `i` is the only one carrying a key in `names`. */
  predicate OnlyAt(members: seq<Member>, names: set<string>, i: nat) {
    && i < |members| && members[i].key in names
    && forall j :: 0 <= j < |members| && j != i ==> members[j].key !in names
  }

  /** The three outcomes of a lookup, stated on the member list. */
  lemma FindCases(members: seq<Member>, names: set<string>)
    ensures NoneAt(members, names) ==> Find(members, names).Absent?
    ensures TwoAt(members, names) ==> Find(members, names).Repeated?
    ensures forall i: nat :: OnlyAt(members, names, i) ==> Find(members, names) == Present(members[i].value)
  {
    FindAbsent(members, names);
    FindRepeated(members, names);
    forall i: nat | OnlyAt(members, names, i)
      ensures Find(members, names) == Present(members[i].value)
    {
      FindUnique(members, names, i);
    }
  }

  /** A field without `#[serde(default)]`: absence is an error. */
  function Required<T>(members: seq<Member>, names: set<string>, field: string,
                       decode: (JsonValue, string) -> Result<T, DecodeError>): (r: Result<T, DecodeError>)
    ensures Find(members, names).Absent? ==> r == Err(MissingField(field))
    ensures Find(members, names).Repeated? ==> r == Err(DuplicateField(field))
    ensures Find(members, names).Present? ==> r == decode(Find(members, names).value, field)
  {
    match Find(members, names)
    case Absent => Err(MissingField(field))
    case Repeated => Err(DuplicateField(field))
    case Present(v) => decode(v, field)
  }

  /** A field with a default: absence yields `default`. */
  function Defaulted<T>(members: seq<Member>, names: set<string>, field: string, default: T,
                        decode: (JsonValue, string) -> Result<T, DecodeError>): (r: Result<T, DecodeError>)
    ensures Find(members, names).Absent? ==> r == Ok(default)
    ensures Find(members, names).Repeated? ==> r == Err(DuplicateField(field))
    ensures Find(members, names).Present? ==> r == decode(Find(members, names).value, field)
  {
    match Find(members, names)
    case Absent => Ok(default)
    case Repeated => Err(DuplicateField(field))
    case Present(v) => decode(v, field)
  }

  /** A required field, read off the member list: no member with one of
      its keys is a missing field, two are a duplicate, and exactly one
      is decoded. */
  lemma RequiredOutcome<T>(members: seq<Member>, names: set<string>, field: string,
                           decode: (JsonValue, string) -> Result<T, DecodeError>)
    ensures NoneAt(members, names) ==> Required(members, names, field, decode) == Err(MissingField(field))
    ensures TwoAt(members, names) ==> Required(members, names, field, decode) == Err(DuplicateField(field))
    ensures forall i: nat :: OnlyAt(members, names, i) ==>
              Required(members, names, field, decode) == decode(members[i].value, field)
  {
    FindCases(members, names);
  }

  /** A defaulted field, read off the member list: no member with one of
      its keys gives the default, two are a duplicate, and exactly one is
      decoded. */
  lemma DefaultedOutcome<T>(members: seq<Member>, names: set<string>, field: string, default: T,
                            decode: (JsonValue, string) -> Result<T, DecodeError>)
    ensures NoneAt(members, names) ==> Defaulted(members, names, field, default, decode) == Ok(default)
    ensures TwoAt(members, names) ==> Defaulted(members, names, field, default, decode) == Err(DuplicateField(field))
    ensures forall i: nat :: OnlyAt(members, names, i) ==>
              Defaulted(members, names, field, default, decode) == decode(members[i].value, field)
  {
    FindCases(members, names);
  }

  // ---- What a field of each Rust type accepts, stated on its lookup ----

  predicate StringArray(v: JsonValue) {
    v.Array? && AllStrings(v.items)
  }

  /** A field without a default: given once, with a string. */
  predicate RequiredString(l: Lookup) {
    l.Present? && l.value.Str?
  }

  /** A field without a default: given once, with an array of strings. */
  predicate RequiredList(l: Lookup) {
    l.Present? && StringArray(l.value)
  }

  /** A defaulted `String`: absent, or given once with a string. */
  predicate OptionalString(l: Lookup) {
    l.Absent? || RequiredString(l)
  }

  /** A defaulted `Vec<String>`: absent, or given once with an array of strings. */
  predicate OptionalList(l: Lookup) {
    l.Absent? || RequiredList(l)
  }

  /** A defaulted `Option<String>`: absent, or given once with a string or null. */
  predicate OptionalNullableString(l: Lookup) {
    l.Absent? || (l.Present? && (l.value.Str? || l.value.Null?))
  }

  /** The string an `Option<String>` field holds: `None` when it is absent or null. */
  function GivenString(l: Lookup): Option<string> {
    if l.Present? && l.value.Str? then Some(l.value.s) else None
  }

  /** A defaulted `Option<Vec<String>>`: absent, or given once with null or
      an array of strings. */
  predicate OptionalNullableList(l: Lookup) {
    l.Absent? || (l.Present? && (l.value.Null? || StringArray(l.value)))
  }

  /** A required `Vec<T>` field: given once, with an array whose every
      element decodes. */
  predicate ArrayOf<T>(l: Lookup, decode: JsonValue -> Result<T, DecodeError>) {
    && l.Present? && l.value.Array?
    && forall i :: 0 <= i < |l.value.items| ==> decode(l.value.items[i]).Ok?
  }

  /** `out` holds the decoded elements of `items`, in order. */
  ghost predicate DecodedAll<T>(items: seq<JsonValue>, decode: JsonValue -> Result<T, DecodeError>, out: seq<T>) {
    |out| == |items| && forall i :: 0 <= i < |items| ==> decode(items[i]) == Ok(out[i])
  }

  /** `serde_json::from_str::<T>`: parse the text, then decode the value. */
  function DecodeText<T>(text: string, parse: Parser, decode: JsonValue -> Result<T, DecodeError>): (r: Result<T, DecodeError>)
    ensures parse(text).None? ==> r == Err(Syntax)
    ensures parse(text).Some? ==> r == decode(parse(text).value)
  {
    match parse(text)
    case None => Err(Syntax)
    case Some(v) => decode(v)
  }
}
