/** `RequestUtils`: the request-parameter parsers of the Querqy query
    builder. */
module RequestUtils {
  import opened Wrappers
  import opened JavaLang
  import opened Exceptions
  import opened Collections

  const SIMILARITY_SCORING_OFF := "off"
  const SIMILARITY_SCORING_ON := "on"
  const SIMILARITY_SCORING_DFC := "dfc"
  const FIELD_BOOST_MODEL_PRMS := "prms"
  const FIELD_BOOST_MODEL_FIXED := "fixed"

  /** OpenSearch's `AbstractQueryBuilder.DEFAULT_BOOST`, `1f`. */
  const DEFAULT_BOOST: Float32 := FLOAT_ONE

  /** `Float.parseFloat`, which is outside this model: it either yields a
      float or throws (a `NumberFormatException`). */
  type FloatParser = string -> Result<Float32, JavaException>

  type QueryFields = map<string, Float32>

  /** The position of the weight separator in an entry, or -1. */
  function WeightPos(fieldname: string): int {
    IndexOf(fieldname, '^')
  }

  /** The field an entry names: the text before the first `^`, or all of it. */
  function FieldName(fieldname: string): string {
    var weightPos := WeightPos(fieldname);
    if weightPos > 0 then fieldname[..weightPos] else fieldname
  }

  /** The weight an entry gives its field: the parse of the text after the
      first `^`, or the default boost when there is no `^`. */
  function EntryWeight(fieldname: string, parseFloat: FloatParser): Result<Float32, JavaException> {
    var weightPos := WeightPos(fieldname);
    if weightPos > 0 then parseFloat(fieldname[weightPos + 1..]) else Success(DEFAULT_BOOST)
  }

  /** The exception for an entry that starts with the weight separator. */
  function CaretFirst(fieldname: string): JavaException {
    IllegalArgument("field cannot start with ^: " + fieldname)
  }

  /** The exception for an entry naming a field seen before. */
  function DuplicateField(fieldname: string): JavaException {
    IllegalArgument("Duplicate field: " + fieldname)
  }

  /** One iteration of the loop of `paramToQueryFieldsAndBoosting`: the map
      after `fieldname`, or the exception it raises. */
  function AddEntry(qf: QueryFields, fieldname: string, parseFloat: FloatParser): Result<QueryFields, JavaException> {
    var weightPos := WeightPos(fieldname);
    if weightPos == 0 then
      Failure(CaretFirst(fieldname))
    else if weightPos > -1 then
      var weight :- parseFloat(fieldname[weightPos + 1..]);
      if fieldname[..weightPos] in qf then Failure(DuplicateField(fieldname))
      else Success(qf[fieldname[..weightPos] := weight])
    else if fieldname in qf then
      Failure(DuplicateField(fieldname))
    else
      Success(qf[fieldname := DEFAULT_BOOST])
  }

  /** The loop of `paramToQueryFieldsAndBoosting` over `entries`. */
  function AddEntries(entries: seq<string>, parseFloat: FloatParser): Result<QueryFields, JavaException> {
    if entries == [] then Success(map[])
    else
      var qf :- AddEntries(entries[..|entries| - 1], parseFloat);
      AddEntry(qf, entries[|entries| - 1], parseFloat)
  }

  /** `paramToQueryFieldsAndBoosting`, with `None` for a `null` parameter. */
  function QueryFieldsAndBoosting(param: Option<seq<string>>, parseFloat: FloatParser): Result<QueryFields, JavaException> {
    match param
    case None => Success(map[])
    case Some(entries) => AddEntries(entries, parseFloat)
  }

  /** `paramToQueryFieldsAndBoosting`. */
  method ParamToQueryFieldsAndBoosting(param: Option<seq<string>>, parseFloat: FloatParser)
    returns (result: Result<QueryFields, JavaException>)
    ensures result == QueryFieldsAndBoosting(param, parseFloat)
  {
    if param.None? {
      return Success(map[]);
    }
    var entries := param.value;
    var qf: QueryFields := map[];
    for i := 0 to |entries|
      invariant AddEntries(entries[..i], parseFloat) == Success(qf)
    {
      PrefixExtend(entries, i);
      AddEntriesSnoc(entries[..i], entries[i], parseFloat);
      var step := PutField(qf, entries[i], parseFloat);
      if step.Failure? {
        FailureIsFinal(entries, i + 1, parseFloat);
        return step;
      }
      qf := step.value;
    }
    assert entries[..|entries|] == entries;
    return Success(qf);
  }

  /** The body of the loop of `paramToQueryFieldsAndBoosting` for one
      entry: the field is put into `qf` before the duplicate check, so the
      exception is the only outcome of a repeated field. */
  method PutField(qf: QueryFields, fieldname: string, parseFloat: FloatParser)
    returns (result: Result<QueryFields, JavaException>)
    ensures result == AddEntry(qf, fieldname, parseFloat)
  {
    var weightPos := IndexOf(fieldname, '^');
    if weightPos == 0 {
      result := Failure(CaretFirst(fieldname));
    } else if weightPos > -1 {
      var weight := parseFloat(fieldname[weightPos + 1..]);
      if weight.Failure? {
        result := Failure(weight.error);
      } else {
        var name := fieldname[..weightPos];
        var previous := name in qf;
        var next := qf[name := weight.value];
        result := if previous then Failure(DuplicateField(fieldname)) else Success(next);
      }
    } else {
      var previous := fieldname in qf;
      var next := qf[fieldname := DEFAULT_BOOST];
      result := if previous then Failure(DuplicateField(fieldname)) else Success(next);
    }
  }

  /** The fields the entries name, in order. */
  function NameList(entries: seq<string>): seq<string> {
    if entries == [] then [] else NameList(entries[..|entries| - 1]) + [FieldName(entries[|entries| - 1])]
  }

  /** The weights the entries give, in order (0 for an entry whose weight
      does not parse). */
  function WeightList(entries: seq<string>, parseFloat: FloatParser): seq<Float32> {
    if entries == [] then []
    else
      var w := EntryWeight(entries[|entries| - 1], parseFloat);
      WeightList(entries[..|entries| - 1], parseFloat) + [if w.Success? then w.value else FLOAT_ZERO]
  }

  lemma {:induction false} NameListShape(entries: seq<string>)
    ensures |NameList(entries)| == |entries|
    ensures forall i :: 0 <= i < |entries| ==> NameList(entries)[i] == FieldName(entries[i])
  {
    if entries != [] {
      var init := entries[..|entries| - 1];
      NameListShape(init);
      assert forall i :: 0 <= i < |init| ==> init[i] == entries[i];
    }
  }

  predicate ValidEntry(fieldname: string, parseFloat: FloatParser) {
    WeightPos(fieldname) != 0 && EntryWeight(fieldname, parseFloat).Success?
  }

  /** The entries `paramToQueryFieldsAndBoosting` accepts: none starts
      with `^`, every weight parses, and no two entries name the same field
      (whether or not they carry a weight). */
  predicate ValidEntries(entries: seq<string>, parseFloat: FloatParser) {
    && (forall i :: 0 <= i < |entries| ==> ValidEntry(entries[i], parseFloat))
    && Distinct(NameList(entries))
  }

  /** One entry is accepted exactly when it is valid and names a new field,
      which then gets the entry's weight. */
  lemma AddEntryCharacterised(qf: QueryFields, fieldname: string, parseFloat: FloatParser)
    ensures AddEntry(qf, fieldname, parseFloat).Success?
      <==> ValidEntry(fieldname, parseFloat) && FieldName(fieldname) !in qf
    ensures AddEntry(qf, fieldname, parseFloat).Success? ==>
      && EntryWeight(fieldname, parseFloat).Success?
      && AddEntry(qf, fieldname, parseFloat).value
           == qf[FieldName(fieldname) := EntryWeight(fieldname, parseFloat).value]
  {
  }

  lemma AddEntriesSnoc(init: seq<string>, last: string, parseFloat: FloatParser)
    ensures AddEntries(init + [last], parseFloat)
      == if AddEntries(init, parseFloat).Failure? then AddEntries(init, parseFloat)
         else AddEntry(AddEntries(init, parseFloat).value, last, parseFloat)
  {
    SnocInit(init, last);
  }

  lemma ListsSnoc(init: seq<string>, last: string, parseFloat: FloatParser)
    ensures NameList(init + [last]) == NameList(init) + [FieldName(last)]
    ensures WeightList(init + [last], parseFloat)
      == WeightList(init, parseFloat)
         + [if EntryWeight(last, parseFloat).Success? then EntryWeight(last, parseFloat).value else FLOAT_ZERO]
  {
    SnocInit(init, last);
  }

  lemma ValidEntriesSnoc(init: seq<string>, last: string, parseFloat: FloatParser)
    ensures ValidEntries(init + [last], parseFloat)
      <==> ValidEntries(init, parseFloat) && ValidEntry(last, parseFloat) && FieldName(last) !in NameList(init)
  {
    var entries := init + [last];
    ListsSnoc(init, last, parseFloat);
    DistinctSnoc(NameList(init), FieldName(last));
    assert forall i :: 0 <= i < |init| ==> entries[i] == init[i];
    assert entries[|init|] == last;
  }

  /** The parser succeeds exactly on valid entries, and then yields one key
      per entry, mapped to the entry's weight. */
  lemma {:induction false} AddEntriesCharacterised(entries: seq<string>, parseFloat: FloatParser)
    ensures AddEntries(entries, parseFloat).Success? <==> ValidEntries(entries, parseFloat)
    ensures AddEntries(entries, parseFloat).Success? ==>
      Represents(NameList(entries), WeightList(entries, parseFloat), AddEntries(entries, parseFloat).value)
  {
    if entries == [] {
      RepresentsEmpty<string, Float32>();
    } else {
      var init, last := entries[..|entries| - 1], entries[|entries| - 1];
      assert entries == init + [last];
      AddEntriesCharacterised(init, parseFloat);
      AddEntriesSnoc(init, last, parseFloat);
      ValidEntriesSnoc(init, last, parseFloat);
      ListsSnoc(init, last, parseFloat);
      if AddEntries(init, parseFloat).Success? {
        var qf := AddEntries(init, parseFloat).value;
        AddEntryCharacterised(qf, last, parseFloat);
        if AddEntry(qf, last, parseFloat).Success? {
          RepresentsSnoc(NameList(init), WeightList(init, parseFloat), qf,
                         FieldName(last), EntryWeight(last, parseFloat).value);
        }
      }
    }
  }

  /** The same, stated per entry: a successful parse maps the field of
      each entry to that entry's weight, and has as many keys as there are
      entries. */
  lemma ParsedFields(entries: seq<string>, parseFloat: FloatParser)
    requires AddEntries(entries, parseFloat).Success?
    ensures |AddEntries(entries, parseFloat).value| == |entries|
    ensures forall i :: 0 <= i < |entries| ==>
      && FieldName(entries[i]) in AddEntries(entries, parseFloat).value
      && EntryWeight(entries[i], parseFloat)
           == Success(AddEntries(entries, parseFloat).value[FieldName(entries[i])])
  {
    AddEntriesCharacterised(entries, parseFloat);
    var qf := AddEntries(entries, parseFloat).value;
    var names, weights := NameList(entries), WeightList(entries, parseFloat);
    NameListShape(entries);
    WeightListShape(entries, parseFloat);
    forall i | 0 <= i < |entries|
      ensures FieldName(entries[i]) in qf
      ensures EntryWeight(entries[i], parseFloat) == Success(qf[FieldName(entries[i])])
    {
      assert names[i] == FieldName(entries[i]);
      assert names[i] in qf && qf[names[i]] == weights[i];
    }
  }

  /** A successful parse has no keys other than the entries' fields. */
  lemma ParsedFieldsOnly(entries: seq<string>, parseFloat: FloatParser, k: string)
    requires AddEntries(entries, parseFloat).Success?
    requires k in AddEntries(entries, parseFloat).value
    ensures exists i :: 0 <= i < |entries| && FieldName(entries[i]) == k
  {
    AddEntriesCharacterised(entries, parseFloat);
    NameListShape(entries);
    KeyNamed(entries, NameList(entries), WeightList(entries, parseFloat), AddEntries(entries, parseFloat).value, k);
  }

  lemma KeyNamed(entries: seq<string>, names: seq<string>, weights: seq<Float32>, qf: QueryFields, k: string)
    requires Represents(names, weights, qf)
    requires |names| == |entries|
    requires forall i :: 0 <= i < |entries| ==> names[i] == FieldName(entries[i])
    requires k in qf
    ensures exists i :: 0 <= i < |entries| && FieldName(entries[i]) == k
  {
    var i :| 0 <= i < |names| && names[i] == k;
    assert FieldName(entries[i]) == k;
  }

  lemma {:induction false} WeightListShape(entries: seq<string>, parseFloat: FloatParser)
    requires forall i :: 0 <= i < |entries| ==> ValidEntry(entries[i], parseFloat)
    ensures |WeightList(entries, parseFloat)| == |entries|
    ensures forall i :: 0 <= i < |entries| ==>
      EntryWeight(entries[i], parseFloat) == Success(WeightList(entries, parseFloat)[i])
  {
    if entries != [] {
      var init, last := entries[..|entries| - 1], entries[|entries| - 1];
      assert forall i :: 0 <= i < |init| ==> init[i] == entries[i];
      WeightListShape(init, parseFloat);
      assert ValidEntry(last, parseFloat);
      var ws := WeightList(init, parseFloat);
      assert WeightList(entries, parseFloat) == ws + [EntryWeight(last, parseFloat).value];
      forall i | 0 <= i < |entries|
        ensures EntryWeight(entries[i], parseFloat) == Success(WeightList(entries, parseFloat)[i])
      {
        if i < |init| {
          assert EntryWeight(init[i], parseFloat) == Success(ws[i]);
        }
      }
    }
  }

  /** Once a prefix of the entries fails, the whole list fails with the
      same exception. */
  lemma {:induction false} FailureIsFinal(entries: seq<string>, k: nat, parseFloat: FloatParser)
    requires k <= |entries|
    requires AddEntries(entries[..k], parseFloat).Failure?
    ensures AddEntries(entries, parseFloat) == AddEntries(entries[..k], parseFloat)
  {
    if k < |entries| {
      var init, last := entries[..|entries| - 1], entries[|entries| - 1];
      assert entries == init + [last];
      assert init[..k] == entries[..k];
      FailureIsFinal(init, k, parseFloat);
      AddEntriesSnoc(init, last, parseFloat);
    } else {
      assert entries[..k] == entries;
    }
  }

  /** A null parameter and an empty list both give an empty map. */
  lemma NullOrEmptyParamGivesNoFields(parseFloat: FloatParser)
    ensures QueryFieldsAndBoosting(None, parseFloat) == Success(map[])
    ensures QueryFieldsAndBoosting(Some([]), parseFloat) == Success(map[])
  {
  }

  /** An entry that starts with `^` is rejected. */
  lemma WeightAtBeginningRejected(parseFloat: FloatParser)
    ensures AddEntries(["f1", "^32"], parseFloat)
      == Failure(IllegalArgument("field cannot start with ^: ^32"))
  {
    var qf := AddedOne("f1", parseFloat);
    IndexOfAt("^32", '^', 0);
    AddEntriesSnoc(["f1"], "^32", parseFloat);
    assert ["f1"] + ["^32"] == ["f1", "^32"];
    assert AddEntries(["f1", "^32"], parseFloat) == AddEntry(qf, "^32", parseFloat);
    assert WeightPos("^32") == 0;
    assert "field cannot start with ^: " + "^32" == "field cannot start with ^: ^32";
  }

  /** A `^` with nothing after it asks the float parser for the empty
      string, which `Float.parseFloat` rejects. */
  lemma CaretAtEndRejected(parseFloat: FloatParser)
    requires parseFloat("").Failure?
    ensures AddEntries(["f1", "f2^"], parseFloat) == Failure(parseFloat("").error)
  {
    var qf := AddedOne("f1", parseFloat);
    IndexOfAt("f2^", '^', 2);
    assert "f2^"[3..] == "";
    AddEntriesSnoc(["f1"], "f2^", parseFloat);
    assert ["f1"] + ["f2^"] == ["f1", "f2^"];
  }

  /** A single entry without a weight gives its field the default boost. */
  lemma AddedOne(fieldname: string, parseFloat: FloatParser) returns (qf: QueryFields)
    requires forall i :: 0 <= i < |fieldname| ==> fieldname[i] != '^'
    ensures qf == map[fieldname := DEFAULT_BOOST]
    ensures AddEntries([fieldname], parseFloat) == Success(qf)
  {
    IndexOfAbsent(fieldname, '^');
    AddEntriesSnoc([], fieldname, parseFloat);
    assert [] + [fieldname] == [fieldname];
    qf := map[fieldname := DEFAULT_BOOST];
  }

  /** A field repeated without weights is rejected. */
  lemma DuplicateWithoutWeightRejected(parseFloat: FloatParser)
    ensures AddEntries(["f0", "f1", "f1"], parseFloat)
      == Failure(IllegalArgument("Duplicate field: f1"))
  {
    var qf := AddedOne("f0", parseFloat);
    IndexOfAbsent("f1", '^');
    AddEntriesSnoc(["f0"], "f1", parseFloat);
    assert ["f0"] + ["f1"] == ["f0", "f1"];
    assert AddEntries(["f0", "f1"], parseFloat) == Success(qf["f1" := DEFAULT_BOOST]);
    AddEntriesSnoc(["f0", "f1"], "f1", parseFloat);
    assert ["f0", "f1"] + ["f1"] == ["f0", "f1", "f1"];
    assert "Duplicate field: " + "f1" == "Duplicate field: f1";
  }

  /** A field repeated with a weight on the second occurrence is rejected. */
  lemma DuplicateWithWeightRejected(parseFloat: FloatParser)
    requires parseFloat("0.3").Success?
    ensures AddEntries(["f0", "f1", "f1^0.3"], parseFloat)
      == Failure(IllegalArgument("Duplicate field: f1^0.3"))
  {
    var qf := AddedOne("f0", parseFloat);
    IndexOfAbsent("f1", '^');
    AddEntriesSnoc(["f0"], "f1", parseFloat);
    assert ["f0"] + ["f1"] == ["f0", "f1"];
    var qf1 := qf["f1" := DEFAULT_BOOST];
    assert AddEntries(["f0", "f1"], parseFloat) == Success(qf1);
    IndexOfAt("f1^0.3", '^', 2);
    assert "f1^0.3"[..2] == "f1" && "f1^0.3"[3..] == "0.3";
    assert "f1" in qf1;
    AddEntriesSnoc(["f0", "f1"], "f1^0.3", parseFloat);
    assert ["f0", "f1"] + ["f1^0.3"] == ["f0", "f1", "f1^0.3"];
    assert "Duplicate field: " + "f1^0.3" == "Duplicate field: f1^0.3";
  }

  /** Fields with and without weights. */
  lemma FieldsAndWeightsExample(parseFloat: FloatParser, w1: Float32, w3: Float32)
    requires parseFloat("0.4") == Success(w1) && parseFloat("20") == Success(w3)
    ensures AddEntries(["f0", "f1^0.4", "f2", "f3^20"], parseFloat)
      == Success(map["f0" := DEFAULT_BOOST, "f1" := w1, "f2" := DEFAULT_BOOST, "f3" := w3])
  {
    var qf0 := AddedOne("f0", parseFloat);
    IndexOfAt("f1^0.4", '^', 2);
    assert FieldName("f1^0.4") == "f1" && EntryWeight("f1^0.4", parseFloat) == Success(w1) by {
      assert "f1^0.4"[..2] == "f1" && "f1^0.4"[3..] == "0.4";
    }
    var qf1 := AcceptedStep(["f0"], qf0, "f1^0.4", parseFloat);
    assert ["f0"] + ["f1^0.4"] == ["f0", "f1^0.4"];
    IndexOfAbsent("f2", '^');
    var qf2 := AcceptedStep(["f0", "f1^0.4"], qf1, "f2", parseFloat);
    assert ["f0", "f1^0.4"] + ["f2"] == ["f0", "f1^0.4", "f2"];
    IndexOfAt("f3^20", '^', 2);
    assert FieldName("f3^20") == "f3" && EntryWeight("f3^20", parseFloat) == Success(w3) by {
      assert "f3^20"[..2] == "f3" && "f3^20"[3..] == "20";
    }
    var qf3 := AcceptedStep(["f0", "f1^0.4", "f2"], qf2, "f3^20", parseFloat);
    assert ["f0", "f1^0.4", "f2"] + ["f3^20"] == ["f0", "f1^0.4", "f2", "f3^20"];
  }

  /** One accepted entry after a successful prefix. */
  lemma AcceptedStep(init: seq<string>, qf: QueryFields, fieldname: string, parseFloat: FloatParser)
    returns (next: QueryFields)
    requires AddEntries(init, parseFloat) == Success(qf)
    requires ValidEntry(fieldname, parseFloat) && FieldName(fieldname) !in qf
    ensures next == qf[FieldName(fieldname) := EntryWeight(fieldname, parseFloat).value]
    ensures AddEntries(init + [fieldname], parseFloat) == Success(next)
  {
    AddEntriesSnoc(init, fieldname, parseFloat);
    AddEntryCharacterised(qf, fieldname, parseFloat);
    next := qf[FieldName(fieldname) := EntryWeight(fieldname, parseFloat).value];
  }

  /** Querqy's `QuerySimilarityScoring`. */
  datatype QuerySimilarityScoring = DFC | SIMILARITY_SCORE_OFF | SIMILARITY_SCORE_ON {
    /** The constant's `name()`. */
    function Name(): string {
      match this
      case DFC => "DFC"
      case SIMILARITY_SCORE_OFF => "SIMILARITY_SCORE_OFF"
      case SIMILARITY_SCORE_ON => "SIMILARITY_SCORE_ON"
    }
  }

  /** `QuerySimilarityScoring.valueOf`: the constant with exactly that name. */
  function QuerySimilarityScoringValueOf(name: string): (r: Result<QuerySimilarityScoring, JavaException>)
    ensures r.Success? <==> exists t: QuerySimilarityScoring :: t.Name() == name
    ensures r.Success? ==> r.value.Name() == name
    ensures r.Failure? ==> r.error == IllegalArgument("No enum constant querqy.lucene.QuerySimilarityScoring." + name)
  {
    if name == DFC.Name() then Success(DFC)
    else if name == SIMILARITY_SCORE_OFF.Name() then Success(SIMILARITY_SCORE_OFF)
    else if name == SIMILARITY_SCORE_ON.Name() then Success(SIMILARITY_SCORE_ON)
    else Failure(IllegalArgument("No enum constant querqy.lucene.QuerySimilarityScoring." + name))
  }

  /** `paramToQuerySimilarityScoring`; `fieldName` is the parameter's
      preferred name, used in the error message. */
  function ParamToQuerySimilarityScoring(paramValue: Option<string>, fieldName: string)
    : (r: Result<Option<QuerySimilarityScoring>, JavaException>)
    ensures paramValue.None? ==> r == Success(None)
    ensures paramValue == Some(SIMILARITY_SCORING_DFC) ==> r == Success(Some(DFC))
    ensures paramValue == Some(SIMILARITY_SCORING_OFF) ==> r == Success(Some(SIMILARITY_SCORE_OFF))
    ensures paramValue == Some(SIMILARITY_SCORING_ON) ==> r == Success(Some(SIMILARITY_SCORE_ON))
    ensures paramValue.Some? && paramValue.value !in {SIMILARITY_SCORING_DFC, SIMILARITY_SCORING_OFF, SIMILARITY_SCORING_ON} ==>
      r == Failure(IllegalArgument("Invalid value for " + fieldName + ": " + paramValue.value))
  {
    match paramValue
    case None => Success(None)
    case Some(v) =>
      if v == SIMILARITY_SCORING_DFC then Success(Some(DFC))
      else if v == SIMILARITY_SCORING_OFF then Success(Some(SIMILARITY_SCORE_OFF))
      else if v == SIMILARITY_SCORING_ON then Success(Some(SIMILARITY_SCORE_ON))
      else Failure(IllegalArgument("Invalid value for " + fieldName + ": " + v))
  }

  /** `querySimilarityScoringToString`. */
  function QuerySimilarityScoringToString(scoring: Option<QuerySimilarityScoring>): Option<string> {
    match scoring
    case None => None
    case Some(DFC) => Some(SIMILARITY_SCORING_DFC)
    case Some(SIMILARITY_SCORE_ON) => Some(SIMILARITY_SCORING_ON)
    case Some(SIMILARITY_SCORE_OFF) => Some(SIMILARITY_SCORING_OFF)
  }

  /** Writing a scoring and parsing it back gives the same scoring. */
  lemma SimilarityScoringRoundTrip(scoring: Option<QuerySimilarityScoring>, fieldName: string)
    ensures ParamToQuerySimilarityScoring(QuerySimilarityScoringToString(scoring), fieldName) == Success(scoring)
  {
  }

  /** Parsing accepts exactly "dfc", "off" and "on" (and null), and writing
      the result gives back the parameter. */
  lemma SimilarityScoringParseInverse(paramValue: Option<string>, fieldName: string)
    ensures ParamToQuerySimilarityScoring(paramValue, fieldName).Success?
      <==> paramValue.None? || paramValue.value in {SIMILARITY_SCORING_DFC, SIMILARITY_SCORING_OFF, SIMILARITY_SCORING_ON}
    ensures ParamToQuerySimilarityScoring(paramValue, fieldName).Success? ==>
      QuerySimilarityScoringToString(ParamToQuerySimilarityScoring(paramValue, fieldName).value) == paramValue
  {
  }

  /** Querqy's `SearchFieldsAndBoosting.FieldBoostModel`. */
  datatype FieldBoostModel = FIXED | PRMS | NONE

  /** `paramToFieldBoostModel`. */
  function ParamToFieldBoostModel(paramValue: Option<string>): Result<Option<FieldBoostModel>, JavaException> {
    match paramValue
    case None => Success(None)
    case Some(v) =>
      if v == FIELD_BOOST_MODEL_PRMS then Success(Some(PRMS))
      else if v == FIELD_BOOST_MODEL_FIXED then Success(Some(FIXED))
      else Failure(IllegalArgument("Invalid field boost model " + v))
  }

  /** `fieldBoostModelToString`, which cannot write NONE. */
  function FieldBoostModelToString(model: Option<FieldBoostModel>): Result<Option<string>, JavaException> {
    match model
    case None => Success(None)
    case Some(FIXED) => Success(Some(FIELD_BOOST_MODEL_FIXED))
    case Some(PRMS) => Success(Some(FIELD_BOOST_MODEL_PRMS))
    case Some(NONE) => Failure(JavaException(IllegalStateException, "fieldBoostModel set to unknown value: NONE"))
  }

  /** Every model but NONE is written and parsed back unchanged; NONE cannot
      be written. */
  lemma FieldBoostModelRoundTrip(model: Option<FieldBoostModel>)
    ensures FieldBoostModelToString(model).Success? <==> model != Some(NONE)
    ensures FieldBoostModelToString(model).Success? ==>
      ParamToFieldBoostModel(FieldBoostModelToString(model).value) == Success(model)
  {
  }

  /** Parsing accepts exactly "prms" and "fixed" (and null), and writing the
      result gives back the parameter. */
  lemma FieldBoostModelParseInverse(paramValue: Option<string>)
    ensures ParamToFieldBoostModel(paramValue).Success?
      <==> paramValue.None? || paramValue.value in {FIELD_BOOST_MODEL_PRMS, FIELD_BOOST_MODEL_FIXED}
    ensures ParamToFieldBoostModel(paramValue).Success? ==>
      FieldBoostModelToString(ParamToFieldBoostModel(paramValue).value) == Success(paramValue)
  {
  }
}
