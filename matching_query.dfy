/** `MatchingQuery`, the user query of a Querqy query: the query string,
    an optional similarity scoring and an optional weight. */
module MatchingQueries {
  import opened Wrappers
  import opened JavaLang
  import opened Exceptions
  import opened Values
  import opened Streams
  import opened RequestUtils

  /** The fields of a matching query as a value; `equals` compares exactly
      these three. */
  datatype MatchingState = MatchingState(
    queryString: Option<string>,
    similarityScoring: Option<QuerySimilarityScoring>,
    weight: Option<Float32>)

  /** The check and normalisation of `setQueryString`. */
  function CheckedQueryString(queryString: Option<string>): (r: Result<string, JavaException>)
    ensures queryString.None? ==> r == Failure(IllegalArgument("query must not be null"))
    ensures queryString.Some? && IsBlank(queryString.value) ==> r == Failure(IllegalArgument("query must not be empty"))
    ensures queryString.Some? && !IsBlank(queryString.value) ==> r == Success(Trim(queryString.value))
    ensures r.Success? ==> r.value != [] && Trim(r.value) == r.value
  {
    if queryString.None? then Failure(IllegalArgument("query must not be null"))
    else
      var trimmed := Trim(queryString.value);
      if trimmed == [] then Failure(IllegalArgument("query must not be empty"))
      else
        TrimIdempotent(queryString.value);
        Success(trimmed)
  }

  /** `writeTo`: the query string, the scoring's name if any, the weight if
      any. A missing query string cannot be written. */
  function Write(s: MatchingState): Result<Stream, JavaException> {
    if s.queryString.None? then Failure(JavaException(NullPointerException, ""))
    else
      var scoringName := if s.similarityScoring.Some? then Some(s.similarityScoring.value.Name()) else None;
      Success(WriteString(s.queryString.value) + WriteOptionalString(scoringName) + WriteOptionalFloat(s.weight))
  }

  /** `new MatchingQuery(in)`: read in the same order; the scoring through
      `QuerySimilarityScoring.valueOf`. */
  function Read(st: Stream): Result<(MatchingState, Stream), JavaException> {
    var (queryString, st1) :- Expect(ReadString(st));
    var (scoringName, st2) :- Expect(ReadOptionalString(st1));
    var scoring :- if scoringName.None? then Success(None)
                   else var t :- QuerySimilarityScoringValueOf(scoringName.value); Success(Some(t));
    var (weight, st3) :- Expect(ReadOptionalFloat(st2));
    Success((MatchingState(Some(queryString), scoring, weight), st3))
  }

  /** A matching query with a query string is read back equal to itself,
      leaving what follows; one without cannot be written. */
  lemma StreamRoundTrip(s: MatchingState, rest: Stream)
    ensures s.queryString.None? <==> Write(s).Failure?
    ensures s.queryString.Some? ==> Read(Write(s).value + rest) == Success((s, rest))
  {
    if s.queryString.Some? {
      var scoringName := if s.similarityScoring.Some? then Some(s.similarityScoring.value.Name()) else None;
      var w1, w2, w3 := WriteString(s.queryString.value), WriteOptionalString(scoringName), WriteOptionalFloat(s.weight);
      assert Write(s).value + rest == w1 + (w2 + (w3 + rest));
      StringRoundTrip(s.queryString.value, w2 + (w3 + rest));
      OptionalStringRoundTrip(scoringName, w3 + rest);
      OptionalFloatRoundTrip(s.weight, rest);
    }
  }

  /** `toXContent`: `query` (null when unset), then `similarity_scoring` and
      `weight` when set. */
  function ToXContent(s: MatchingState): (fields: seq<(string, Value)>)
    ensures |fields| == 1 + (if s.similarityScoring.Some? then 1 else 0) + (if s.weight.Some? then 1 else 0)
    ensures fields[0] == ("query", if s.queryString.Some? then Str(s.queryString.value) else Null)
    ensures s.weight.Some? ==> fields[|fields| - 1] == ("weight", Float(s.weight.value))
    // A set scoring is written second, as "dfc", "on" or "off".
    ensures s.similarityScoring.Some? ==>
      fields[1] == ("similarity_scoring", Str(match s.similarityScoring.value
                                              case DFC => "dfc"
                                              case SIMILARITY_SCORE_ON => "on"
                                              case SIMILARITY_SCORE_OFF => "off"))
    ensures forall i :: 0 <= i < |fields| && fields[i].0 == "similarity_scoring" ==>
      && s.similarityScoring.Some? && fields[i].1.Str?
      && ParamToQuerySimilarityScoring(Some(fields[i].1.s), "similarity_scoring") == Success(s.similarityScoring)
  {
    var scoring := QuerySimilarityScoringToString(s.similarityScoring);
    SimilarityScoringRoundTrip(s.similarityScoring, "similarity_scoring");
    [("query", if s.queryString.Some? then Str(s.queryString.value) else Null)]
    + (if scoring.Some? then [("similarity_scoring", Str(scoring.value))] else [])
    + (if s.weight.Some? then [("weight", Float(s.weight.value))] else [])
  }

  class MatchingQuery {
    var queryString: Option<string>
    var similarityScoring: Option<QuerySimilarityScoring>
    var weight: Option<Float32>

    function State(): MatchingState
      reads this
    {
      MatchingState(queryString, similarityScoring, weight)
    }

    /** `new MatchingQuery()`: nothing set. */
    constructor ()
      ensures State() == MatchingState(None, None, None)
    {
      queryString, similarityScoring, weight := None, None, None;
    }

    /** `new MatchingQuery(queryString)`: the string is stored as given,
        neither checked nor trimmed. */
    constructor WithQuery(queryString: Option<string>)
      ensures State() == MatchingState(queryString, None, None)
    {
      this.queryString, similarityScoring, weight := queryString, None, None;
    }

    /** `new MatchingQuery(queryString, similarityScoring)`, which throws for
        an unknown scoring name. */
    static method WithScoring(queryString: Option<string>, similarityScoring: Option<string>)
      returns (r: Result<MatchingQuery, JavaException>)
      ensures match ParamToQuerySimilarityScoring(similarityScoring, "similarity_scoring")
        case Failure(e) => r == Failure(e)
        case Success(scoring) => r.Success? && fresh(r.value) && r.value.State() == MatchingState(queryString, scoring, None)
    {
      var q := new MatchingQuery.WithQuery(queryString);
      var outcome := q.SetSimilarityScoring(similarityScoring);
      if outcome.Fail? {
        return Failure(outcome.error);
      }
      return Success(q);
    }

    /** `new MatchingQuery(in)`. */
    static method ReadFrom(st: Stream) returns (r: Result<MatchingQuery, JavaException>, rest: Stream)
      ensures Read(st).Failure? ==> r == Failure(Read(st).error)
      ensures Read(st).Success? ==>
        r.Success? && fresh(r.value) && r.value.State() == Read(st).value.0 && rest == Read(st).value.1
    {
      var read := Read(st);
      if read.Failure? {
        return Failure(read.error), st;
      }
      var q := new MatchingQuery();
      q.queryString, q.similarityScoring, q.weight := read.value.0.queryString, read.value.0.similarityScoring, read.value.0.weight;
      return Success(q), read.value.1;
    }

    /** `setQueryString`: a null or blank string throws and changes nothing;
        otherwise the trimmed string is stored. */
    method SetQueryString(queryString: Option<string>) returns (outcome: Outcome<JavaException>)
      modifies this
      ensures CheckedQueryString(queryString).Failure? ==>
        outcome == Fail(CheckedQueryString(queryString).error) && State() == old(State())
      ensures CheckedQueryString(queryString).Success? ==>
        outcome == Pass && State() == old(State()).(queryString := Some(CheckedQueryString(queryString).value))
    {
      var checked := CheckedQueryString(queryString);
      if checked.Failure? {
        return Fail(checked.error);
      }
      this.queryString := Some(checked.value);
      return Pass;
    }

    method SetWeight(weight: Float32)
      modifies this
      ensures State() == old(State()).(weight := Some(weight))
    {
      this.weight := Some(weight);
    }

    /** `setSimilarityScoring(String)`: the parameter is parsed; an unknown
        value throws and changes nothing. */
    method SetSimilarityScoring(similarityScoring: Option<string>) returns (outcome: Outcome<JavaException>)
      modifies this
      ensures match ParamToQuerySimilarityScoring(similarityScoring, "similarity_scoring")
        case Failure(e) => outcome == Fail(e) && State() == old(State())
        case Success(scoring) => outcome == Pass && State() == old(State()).(similarityScoring := scoring)
    {
      var scoring := ParamToQuerySimilarityScoring(similarityScoring, "similarity_scoring");
      if scoring.Failure? {
        return Fail(scoring.error);
      }
      this.similarityScoring := scoring.value;
      return Pass;
    }
  }

  /** Setting the query string to what is stored stores it unchanged. */
  lemma SetQueryStringIdempotent(queryString: Option<string>)
    requires CheckedQueryString(queryString).Success?
    ensures CheckedQueryString(Some(CheckedQueryString(queryString).value)) == CheckedQueryString(queryString)
  {
    var q := CheckedQueryString(queryString).value;
    assert !IsBlank(q);
  }
}
