/**
 * The test-case models of the three systems, the conversion of already
 * decoded dataset records into test cases, and `validate_dataset`.
 * Reading the file and decoding JSON happen before this point: a dataset
 * arrives here as a `Document` whose optional `test_cases` entry is a list
 * of records.
 */
module Loader {
  import opened Wrappers

  /** The three pydantic test-case models; every variant has `input` and `actualOutput`. */
  datatype TestCase =
    | RagTestCase(input: string, actualOutput: string, expectedOutput: string, context: seq<string>)
    | AgentTestCase(input: string, actualOutput: string, expectedOutput: string)
    | ChatbotTestCase(input: string, actualOutput: string)

  /** Which of `load_rag_dataset`, `load_agent_dataset`, `load_chatbot_dataset` runs. */
  datatype DatasetKind = RagDataset | AgentDataset | ChatbotDataset

  /** A decoded JSON value, told apart only as far as the test-case fields need. */
  datatype JsonValue = JsonString(text: string) | JsonStringList(items: seq<string>) | JsonOther

  /** One element of the `test_cases` list: a JSON object. */
  type Record = map<string, JsonValue>

  /** A decoded dataset file; `testCases` is `None` when the key is absent. */
  datatype Document = Document(testCases: Option<seq<Record>>)

  /** The pydantic validation error raised for the record at `index`. */
  datatype LoadError = InvalidRecord(index: nat)

  /** The two `ValueError`s of `validate_dataset`. */
  datatype DatasetError = EmptyDataset | MissingRequiredFields(index: nat)

  function KindOf(c: TestCase): (kind: DatasetKind)
  {
    match c
    case RagTestCase(_, _, _, _) => RagDataset
    case AgentTestCase(_, _, _) => AgentDataset
    case ChatbotTestCase(_, _) => ChatbotDataset
  }

  /** The value under `key` when it is present and a string. */
  function StringField(rec: Record, key: string): (v: Option<string>)
  {
    if key in rec && rec[key].JsonString? then Some(rec[key].text) else None
  }

  /** The value under `key` when it is present and a list of strings. */
  function StringListField(rec: Record, key: string): (v: Option<seq<string>>)
  {
    if key in rec && rec[key].JsonStringList? then Some(rec[key].items) else None
  }

  /**
   * `RAGTestCase(**case)` and its siblings: every field the model declares
   * must be present with its declared type; keys it does not declare are
   * ignored. `None` stands for the validation error.
   */
  function FromRecord(kind: DatasetKind, rec: Record): (r: Option<TestCase>)
    ensures r.None? <==>
              || StringField(rec, "input").None?
              || StringField(rec, "actual_output").None?
              || (kind != ChatbotDataset && StringField(rec, "expected_output").None?)
              || (kind == RagDataset && StringListField(rec, "context").None?)
    ensures r.Some? ==> KindOf(r.value) == kind
    ensures r.Some? ==> StringField(rec, "input") == Some(r.value.input)
    ensures r.Some? ==> StringField(rec, "actual_output") == Some(r.value.actualOutput)
    ensures r.Some? && kind != ChatbotDataset ==>
              StringField(rec, "expected_output") == Some(r.value.expectedOutput)
    ensures r.Some? && kind == RagDataset ==> StringListField(rec, "context") == Some(r.value.context)
  {
    var input := StringField(rec, "input");
    var output := StringField(rec, "actual_output");
    var expected := StringField(rec, "expected_output");
    var context := StringListField(rec, "context");
    match kind
    case RagDataset =>
      if input.Some? && output.Some? && expected.Some? && context.Some?
      then Some(RagTestCase(input.value, output.value, expected.value, context.value))
      else None
    case AgentDataset =>
      if input.Some? && output.Some? && expected.Some?
      then Some(AgentTestCase(input.value, output.value, expected.value))
      else None
    case ChatbotDataset =>
      if input.Some? && output.Some?
      then Some(ChatbotTestCase(input.value, output.value))
      else None
  }

  /** The record a dataset file holds for `c`, with the JSON field names. */
  function ToRecord(c: TestCase): (rec: Record)
  {
    match c
    case RagTestCase(i, o, e, ctx) =>
      map["input" := JsonString(i), "actual_output" := JsonString(o),
          "expected_output" := JsonString(e), "context" := JsonStringList(ctx)]
    case AgentTestCase(i, o, e) =>
      map["input" := JsonString(i), "actual_output" := JsonString(o),
          "expected_output" := JsonString(e)]
    case ChatbotTestCase(i, o) =>
      map["input" := JsonString(i), "actual_output" := JsonString(o)]
  }

  /** Every test case survives being written as a record and read back by its own loader. */
  lemma RecordRoundTrip(c: TestCase)
    ensures FromRecord(KindOf(c), ToRecord(c)) == Some(c)
  {
    assert "input" != "actual_output" && "input" != "expected_output" && "input" != "context";
    assert "actual_output" != "expected_output" && "actual_output" != "context";
    assert "expected_output" != "context";
  }

  /**
   * `[XTestCase(**case) for case in test_cases]`: converts in order and
   * stops at the first record that does not validate.
   */
  function ConvertRecords(kind: DatasetKind, recs: seq<Record>): (r: Result<seq<TestCase>, LoadError>)
    ensures r.Success? <==> forall i | 0 <= i < |recs| :: FromRecord(kind, recs[i]).Some?
    ensures r.Success? ==> |r.value| == |recs|
    ensures r.Success? ==> forall i | 0 <= i < |recs| :: FromRecord(kind, recs[i]) == Some(r.value[i])
    ensures r.Failure? ==> r.error.index < |recs| && FromRecord(kind, recs[r.error.index]).None?
    ensures r.Failure? ==> forall j | 0 <= j < r.error.index :: FromRecord(kind, recs[j]).Some?
    decreases |recs|
  {
    if |recs| == 0 then Success([])
    else
      match FromRecord(kind, recs[0])
      case None => Failure(InvalidRecord(0))
      case Some(c) =>
        match ConvertRecords(kind, recs[1..])
        case Failure(InvalidRecord(k)) => Failure(InvalidRecord(k + 1))
        case Success(cs) => Success([c] + cs)
  }

  /** `load_rag_dataset` / `load_agent_dataset` / `load_chatbot_dataset` after `load_json`. */
  function LoadDataset(kind: DatasetKind, doc: Document): (r: Result<seq<TestCase>, LoadError>)
    ensures doc.testCases.None? ==> r == Success([])
    ensures doc.testCases.Some? ==> r == ConvertRecords(kind, doc.testCases.value)
    ensures r.Success? ==> forall i | 0 <= i < |r.value| :: KindOf(r.value[i]) == kind
  {
    match doc.testCases
    case None => Success([])
    case Some(recs) => ConvertRecords(kind, recs)
  }

  /** A dataset written from cases of one kind loads back as exactly those cases, in order. */
  lemma {:induction false} LoadRoundTrip(kind: DatasetKind, cases: seq<TestCase>)
    requires forall i | 0 <= i < |cases| :: KindOf(cases[i]) == kind
    ensures LoadDataset(kind, Document(Some(seq(|cases|, i requires 0 <= i < |cases| => ToRecord(cases[i])))))
         == Success(cases)
  {
    var recs := seq(|cases|, i requires 0 <= i < |cases| => ToRecord(cases[i]));
    forall i | 0 <= i < |cases|
      ensures FromRecord(kind, recs[i]) == Some(cases[i])
    {
      RecordRoundTrip(cases[i]);
    }
    var r := ConvertRecords(kind, recs);
    assert r.value == cases;
  }

  /** The fields `validate_dataset` insists on: a non-empty input and actual output. */
  predicate HasRequiredFields(c: TestCase)
  {
    |c.input| > 0 && |c.actualOutput| > 0
  }

  /** `validate_dataset`: `Success(true)`, or the `ValueError` for the first bad case. */
  method ValidateDataset(cases: seq<TestCase>) returns (r: Result<bool, DatasetError>)
    ensures r == Failure(EmptyDataset) <==> |cases| == 0
    ensures r.Success? ==> r.value
    ensures r.Success? <==> |cases| > 0 && forall i | 0 <= i < |cases| :: HasRequiredFields(cases[i])
    ensures r.Failure? && r.error.MissingRequiredFields? ==>
              r.error.index < |cases| && !HasRequiredFields(cases[r.error.index])
    ensures r.Failure? && r.error.MissingRequiredFields? ==>
              forall j | 0 <= j < r.error.index :: HasRequiredFields(cases[j])
  {
    if |cases| == 0 {
      return Failure(EmptyDataset);
    }
    var i := 0;
    while i < |cases|
      invariant 0 <= i <= |cases|
      invariant forall j | 0 <= j < i :: HasRequiredFields(cases[j])
    {
      if !HasRequiredFields(cases[i]) {
        return Failure(MissingRequiredFields(i));
      }
      i := i + 1;
    }
    return Success(true);
  }
}
