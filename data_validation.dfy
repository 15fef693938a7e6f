/** Record validation: the JSON schema every handler-built record is checked
    against, and the chain of field checks of `validate_data`. */
module DataValidation {
  import opened Wrappers
  import opened PyJson
  import opened Codebase

  // ---- The schema's type names, as jsonschema reads them -------------------

  predicate IsString(j: Json) { j.JStr? }

  predicate IsArray(j: Json) { j.JArr? }

  predicate IsObject(j: Json) { j.JObj? }

  /** "number": an int or a float; a bool is not a number to jsonschema. */
  predicate IsNumber(j: Json) { j.JInt? || j.JReal? }

  /** "integer": an int, or a float with no fractional part. */
  predicate IsInteger(j: Json) {
    j.JInt? || (j.JReal? && j.r == j.r.Floor as real)
  }

  /** A property that, when present in `fs`, must satisfy `ty`. */
  predicate PropertyOk(fs: Fields, k: string, ty: Json -> bool) {
    match Lookup(fs, k)
    case None => true
    case Some(v) => ty(v)
  }

  /** The `analysis` sub-schema: an object whose listed keys, when present,
      have the listed types; other keys are allowed. */
  predicate AnalysisSchema(j: Json) {
    && j.JObj?
    && PropertyOk(j.fields, "classes", IsArray)
    && PropertyOk(j.fields, "functions", IsArray)
    && PropertyOk(j.fields, "imports", IsArray)
    && PropertyOk(j.fields, "lint_results", IsObject)
    && PropertyOk(j.fields, "docstrings", IsObject)
    && PropertyOk(j.fields, "comments", IsArray)
    && PropertyOk(j.fields, "html", IsString)
    && PropertyOk(j.fields, "tags", IsArray)
    && PropertyOk(j.fields, "attributes", IsObject)
    && PropertyOk(j.fields, "entities", IsArray)
    && PropertyOk(j.fields, "complexity", IsNumber)
    && PropertyOk(j.fields, "data", IsObject)
    && PropertyOk(j.fields, "jsx_analysis", IsObject)
    && PropertyOk(j.fields, "vue_analysis", IsObject)
  }

  /** The `metadata` sub-schema: an object with an integer `size`; `loc`
      integer and `md5_hash` string when present. */
  predicate MetadataSchema(j: Json) {
    && j.JObj?
    && HasKey(j.fields, "size")
    && PropertyOk(j.fields, "loc", IsInteger)
    && PropertyOk(j.fields, "size", IsInteger)
    && PropertyOk(j.fields, "md5_hash", IsString)
  }

  predicate IsStringOrNull(j: Json) { j.JStr? || j.JNull? }

  /** The whole schema, for a record (always a dict when handlers call it). */
  predicate SchemaValid(d: Record) {
    && HasKey(d, "file_path") && HasKey(d, "language") && HasKey(d, "content")
    && HasKey(d, "analysis") && HasKey(d, "metadata")
    && PropertyOk(d, "file_path", IsString)
    && PropertyOk(d, "language", IsString)
    && PropertyOk(d, "content", IsStringOrNull)
    && PropertyOk(d, "analysis", AnalysisSchema)
    && PropertyOk(d, "metadata", MetadataSchema)
  }

  /** `validate_json`: true when the schema holds, false when it does not,
      except that the error branch logs `data['file_path']`, so a record
      without that key makes it raise KeyError out of the handler. */
  function ValidateJson(d: Record): (r: Outcome<bool>)
    ensures r == Ok(true) <==> SchemaValid(d)
    ensures r == Ok(false) <==> !SchemaValid(d) && HasKey(d, "file_path")
    ensures r == Raised <==> !HasKey(d, "file_path")
  {
    if SchemaValid(d) then Ok(true)
    else if HasKey(d, "file_path") then Ok(false)
    else Raised
  }

  // ---- The field checks of validate_data --------------------------------

  /** `validate_file_path(data.get("file_path"))`: false for a missing key, None
      and every falsy value. */
  function ValidateFilePath(x: Option<Json>): (r: bool)
    ensures x == None ==> !r
    ensures x == Some(JNull) ==> !r
    ensures forall s :: x == Some(JStr(s)) ==> (r <==> s != "")
  {
    x.Some? && Truthy(x.value)
  }

  const SupportedLanguages: seq<string> := [
    "python", "javascript", "html", "css", "json", "markdown", "text", "yaml", "xml",
    "image", "document", "unknown", "typescript", "jsx", "vue"
  ]

  /** `validate_language`: membership in the fifteen supported names. */
  function ValidateLanguage(x: Option<Json>): (r: bool)
    ensures r <==> exists k :: 0 <= k < |SupportedLanguages| && x == Some(JStr(SupportedLanguages[k]))
  {
    x.Some? && x.value.JStr? && x.value.s in SupportedLanguages
  }

  /** `validate_content`: None (or a missing key) passes, other falsy values
      (the empty string) fail, truthy values pass. */
  function ValidateContent(x: Option<Json>): (r: bool)
    ensures x == None || x == Some(JNull) ==> r
    ensures x == Some(JStr("")) ==> !r
    ensures forall s :: s != "" && x == Some(JStr(s)) ==> r
  {
    match x
    case None => true
    case Some(JNull) => true
    case Some(v) => Truthy(v)
  }

  /** `validate_analysis`: both of its branches return true. */
  function ValidateAnalysis(x: Option<Json>): (r: bool)
    ensures r
  {
    if x.None? || !Truthy(x.value) then true else true
  }

  /** `validate_metadata`: false for missing or falsy metadata and for a
      missing `size`, otherwise whether `size >= 0`; raises where Python's
      `in` or `<` does (a number as metadata, a string `size`, ...). */
  function ValidateMetadata(x: Option<Json>): (r: Outcome<bool>)
    ensures x == None ==> r == Ok(false)
    ensures x.Some? && x.value.JObj? && !HasKey(x.value.fields, "size") ==> r == Ok(false)
    ensures forall n: int :: x.Some? && x.value.JObj? && Lookup(x.value.fields, "size") == Some(JInt(n))
              ==> r == Ok(n >= 0)
    ensures r == Ok(true) ==> x.Some? && x.value.JObj?
  {
    if x.None? || !Truthy(x.value) then Ok(false)
    else
      match Contains(x.value, "size")
      case Raised => Raised
      case Ok(false) => Ok(false)
      case Ok(true) =>
        match Subscript(x.value, "size")
        case Raised => Raised
        case Ok(v) =>
          match Num(v)
          case None => Raised
          case Some(n) => Ok(n >= 0.0)
  }

  /** `validate_data`: the six checks in order, stopping at the first that
      fails (or raises). */
  function ValidateData(d: Record): (r: Outcome<bool>)
    ensures r == Ok(true) <==>
      && ValidateFilePath(Lookup(d, "file_path"))
      && ValidateLanguage(Lookup(d, "language"))
      && ValidateContent(Lookup(d, "content"))
      && ValidateAnalysis(Lookup(d, "analysis"))
      && ValidateMetadata(Lookup(d, "metadata")) == Ok(true)
      && ValidateJson(d) == Ok(true)
    ensures !ValidateFilePath(Lookup(d, "file_path")) ==> r == Ok(false)
    ensures r == Raised <==>
      && ValidateFilePath(Lookup(d, "file_path"))
      && ValidateLanguage(Lookup(d, "language"))
      && ValidateContent(Lookup(d, "content"))
      && ValidateAnalysis(Lookup(d, "analysis"))
      && ValidateMetadata(Lookup(d, "metadata")) == Raised
  {
    if !ValidateFilePath(Lookup(d, "file_path")) then Ok(false)
    else if !ValidateLanguage(Lookup(d, "language")) then Ok(false)
    else if !ValidateContent(Lookup(d, "content")) then Ok(false)
    else if !ValidateAnalysis(Lookup(d, "analysis")) then Ok(false)
    else
      match ValidateMetadata(Lookup(d, "metadata"))
      case Raised => Raised
      case Ok(false) => Ok(false)
      case Ok(true) => ValidateJson(d)
  }

  /** The final schema check in validate_data never raises: the first check
      already made sure `file_path` is there. */
  lemma ValidateDataJsonStepSafe(d: Record)
    requires ValidateFilePath(Lookup(d, "file_path"))
    ensures ValidateJson(d) != Raised
  {
  }

  /** On a record that meets the schema, validate_data does not raise and
      agrees with the field checks: the size check reduces to `size >= 0`. */
  lemma {:induction false} ValidateDataOnSchemaValid(d: Record)
    requires SchemaValid(d)
    ensures ValidateData(d) != Raised
    ensures ValidateMetadata(Lookup(d, "metadata")) == Ok(Num(Subscript(Lookup(d, "metadata").value, "size").value).value >= 0.0)
  {
    var m := Lookup(d, "metadata").value;
    assert MetadataSchema(m);
    var size := Lookup(m.fields, "size").value;
    assert IsInteger(size);
    assert Truthy(m);
  }

  /** A record whose linter output is null or a list (what pylint, eslint,
      stylelint and tslint print) never meets the schema, which asks for an
      object. */
  lemma LintListFailsSchema(d: Record, a: Fields, lint: Json)
    requires Lookup(d, "analysis") == Some(JObj(a))
    requires Lookup(a, "lint_results") == Some(lint)
    requires lint.JNull? || lint.JArr?
    ensures ValidateJson(d) == Ok(false) || ValidateJson(d) == Raised
  {
    assert !AnalysisSchema(JObj(a));
  }

  /** The record of the validation tests that lacks `analysis` and `metadata`
      (test_data_validation.py, lines 17-22) fails both the schema and
      validate_data. One concrete example; the general fact is the `Ok(true)`
      iff of `ValidateData`. */
  lemma IncompleteRecordFails()
    ensures
      var bad: Record := [("file_path", JStr("example.py")), ("language", JStr("python")),
                          ("content", JStr("print('Hello, World!')"))];
      ValidateJson(bad) == Ok(false) && ValidateData(bad) == Ok(false)
  {
    var bad: Record := [("file_path", JStr("example.py")), ("language", JStr("python")),
                        ("content", JStr("print('Hello, World!')"))];
    assert Lookup(bad, "file_path") == Some(JStr("example.py"));
    assert Lookup(bad, "language") == Some(JStr("python"));
    assert Lookup(bad, "metadata") == None;
    assert "python" == SupportedLanguages[0];
  }
}
