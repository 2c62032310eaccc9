/**
 * `meanHandler` for GET /random/mean: decode the query, validate it, fetch
 * the random sets, and answer with one calculation result per set plus one
 * for all sets appended together.
 */
module Handler {
  import opened Types
  import opened Calculations
  import opened Fanout

  const StatusOK := 200
  const StatusBadRequest := 400
  const StatusInternalServerError := 500

  const MaxLength := 10000
  const MaxRequests := 100

  const BadRequestMessage := "Bad request"
  const RetrievalErrorPrefix := "Error while retrieving data from random.org API. "

  /** The decoded query parameters `requests` and `length`. */
  datatype CalculateMeanQuery = CalculateMeanQuery(requests: int, length: int)

  /** The four range checks, in the order the handler makes them. */
  datatype ValidationError = LengthNotPositive | LengthTooLarge | RequestsNotPositive | RequestsTooLarge
  {
    function Message(): string
    {
      match this
      case LengthNotPositive => "Length must be greater than 0"
      case LengthTooLarge => "Length must be less than or equal 10000"
      case RequestsNotPositive => "Requests must be greater than 0"
      case RequestsTooLarge => "Requests must be less than or equal 100"
    }
  }

  /**
   * One entry of the JSON answer. `variance` is the square of the reported
   * standard deviation; `None` stands for the NaN of an empty data set.
   */
  datatype CalculationResult = CalculationResult(variance: Option<real>, data: seq<int>)

  /**
   * A plain-text error with its status, the 200 answer with its results, or
   * an answer aborted while its JSON was being encoded: the encoder rejects
   * NaN, and the handler panics after the 200 status line was written.
   */
  datatype Response =
    | HttpError(status: int, message: string)
    | HttpOk(results: seq<CalculationResult>)
    | EncodingAborted

  /** JSON encoding succeeds exactly when no entry carries NaN. */
  predicate Encodable(results: seq<CalculationResult>)
  {
    forall i :: 0 <= i < |results| ==> results[i].variance.Some?
  }

  /**
   * The range checks, first failure wins: a length problem is reported before
   * any requests problem, and a too-small value before a too-large one.
   */
  function Validate(q: CalculateMeanQuery): (r: Option<ValidationError>)
    ensures r.None? <==> 0 < q.length <= MaxLength && 0 < q.requests <= MaxRequests
    ensures r == Some(LengthNotPositive) <==> q.length <= 0
    ensures r == Some(LengthTooLarge) <==> q.length > MaxLength
    ensures r == Some(RequestsNotPositive) <==> 0 < q.length <= MaxLength && q.requests <= 0
    ensures r == Some(RequestsTooLarge) <==> 0 < q.length <= MaxLength && q.requests > MaxRequests
  {
    if q.length <= 0 then Some(LengthNotPositive)
    else if q.length > MaxLength then Some(LengthTooLarge)
    else if q.requests <= 0 then Some(RequestsNotPositive)
    else if q.requests > MaxRequests then Some(RequestsTooLarge)
    else None
  }

  /** An invalid length is reported whatever the number of requests. */
  lemma LengthCheckedFirst(length: int, requests1: int, requests2: int)
    requires length <= 0 || length > MaxLength
    ensures Validate(CalculateMeanQuery(requests1, length)) == Validate(CalculateMeanQuery(requests2, length))
    ensures Validate(CalculateMeanQuery(requests1, length)).Some?
  {
  }

  /** `requests=0&length=0` reports the length; `requests=0&length=5` the requests. */
  lemma ValidationExamples()
    ensures Validate(CalculateMeanQuery(0, 0)).value.Message() == "Length must be greater than 0"
    ensures Validate(CalculateMeanQuery(0, 5)).value.Message() == "Requests must be greater than 0"
    ensures Validate(CalculateMeanQuery(5, 0)).value.Message() == "Length must be greater than 0"
  {
  }

  /** All sets appended one after another, in slot order. */
  function Concat(sets: seq<seq<int>>): seq<int>
  {
    if |sets| == 0 then [] else Concat(sets[..|sets| - 1]) + sets[|sets| - 1]
  }

  /** The length of each set. */
  function Lengths(sets: seq<seq<int>>): (r: seq<int>)
    ensures |r| == |sets| && forall i :: 0 <= i < |sets| ==> r[i] == |sets[i]|
  {
    seq(|sets|, i requires 0 <= i < |sets| => |sets[i]|)
  }

  /** Appending the sets of two consecutive ranges of slots. */
  lemma {:induction false} ConcatSplit(sets: seq<seq<int>>, k: nat)
    requires k <= |sets|
    ensures Concat(sets) == Concat(sets[..k]) + Concat(sets[k..])
    decreases |sets|
  {
    if k < |sets| {
      var init := sets[..|sets| - 1];
      ConcatSplit(init, k);
      assert init[..k] == sets[..k];
      assert sets[k..] == init[k..] + [sets[|sets| - 1]];
      assert sets[k..][..|sets[k..]| - 1] == init[k..];
    } else {
      assert sets[..k] == sets;
      assert sets[k..] == [];
    }
  }

  /** The aggregate holds every value of every set: its length is the sum of the set lengths. */
  lemma {:induction false} ConcatLength(sets: seq<seq<int>>)
    ensures |Concat(sets)| == SumOf(Lengths(sets))
    decreases |sets|
  {
    if |sets| > 0 {
      var init := sets[..|sets| - 1];
      ConcatLength(init);
      assert Lengths(sets)[..|sets| - 1] == Lengths(init);
    }
  }

  /** Slot i's values sit in the aggregate right after those of slots 0..i-1. */
  lemma ConcatSlot(sets: seq<seq<int>>, i: nat, j: nat)
    requires i < |sets| && j < |sets[i]|
    ensures |Concat(sets[..i])| + j < |Concat(sets)|
    ensures Concat(sets)[|Concat(sets[..i])| + j] == sets[i][j]
  {
    ConcatSplit(sets, i);
    assert sets[i..] == [sets[i]] + sets[i + 1..];
    ConcatSplit(sets[i..], 1);
    assert sets[i..][..1] == [sets[i]];
    assert [sets[i]][..0] == [];
    assert Concat([sets[i]]) == sets[i];
  }

  /** With `requests` sets of `length` values each, the aggregate has requests * length values. */
  lemma ConcatUniformLength(sets: seq<seq<int>>, length: nat)
    requires forall i :: 0 <= i < |sets| ==> |sets[i]| == length
    ensures |Concat(sets)| == |sets| * length
  {
    ConcatLength(sets);
    SumOfConstant(Lengths(sets), length);
  }

  /** The aggregate is empty exactly when every set is. */
  lemma ConcatEmpty(sets: seq<seq<int>>)
    ensures Concat(sets) == [] <==> forall i :: 0 <= i < |sets| ==> sets[i] == []
  {
    if exists i :: 0 <= i < |sets| && sets[i] != [] {
      var i :| 0 <= i < |sets| && sets[i] != [];
      ConcatSlot(sets, i, 0);
    } else {
      ConcatLength(sets);
      SumOfConstant(Lengths(sets), 0);
    }
  }

  /** The calculation result for one data set. */
  function Summary(data: seq<int>): CalculationResult
  {
    CalculationResult(if |data| == 0 then None else Some(Variance(data)), data)
  }

  /**
   * The result assembly: entry i describes set i, and one extra last entry
   * describes all sets appended in slot order.
   */
  method BuildResults(randomNumbersSets: seq<seq<int>>) returns (results: seq<CalculationResult>)
    ensures |results| == |randomNumbersSets| + 1
    ensures forall i :: 0 <= i < |randomNumbersSets| ==> results[i] == Summary(randomNumbersSets[i])
    ensures results[|randomNumbersSets|] == Summary(Concat(randomNumbersSets))
  {
    var n := |randomNumbersSets|;
    var appendedSets: seq<int> := [];
    var result := new CalculationResult[n + 1];
    for i := 0 to n
      invariant appendedSets == Concat(randomNumbersSets[..i])
      invariant forall k :: 0 <= k < i ==> result[k] == Summary(randomNumbersSets[k])
    {
      var s := randomNumbersSets[i];
      var variance := CalculateVariance(s);
      result[i] := CalculationResult(variance, s);
      assert randomNumbersSets[..i + 1][..i] == randomNumbersSets[..i];
      appendedSets := appendedSets + s;
    }
    assert randomNumbersSets[..n] == randomNumbersSets;
    var variance := CalculateVariance(appendedSets);
    result[n] := CalculationResult(variance, appendedSets);
    results := result[..];
  }

  /** The outcomes of the first n upstream calls. */
  function Requested(fetch: nat -> FetchOutcome, n: nat): (r: seq<FetchOutcome>)
    ensures |r| == n && forall i :: 0 <= i < n ==> r[i] == fetch(i)
  {
    seq(n, i requires 0 <= i < n => fetch(i))
  }

  /**
   * `meanHandler`. `query` is `None` when the query string could not be
   * decoded; `fetch(i)` is what the i-th upstream call returns. `retrieved`
   * records whether the upstream calls were made at all.
   */
  method MeanHandler(query: Option<CalculateMeanQuery>, fetch: nat -> FetchOutcome)
    returns (response: Response, ghost retrieved: bool)
    ensures query.None? ==> response == HttpError(StatusBadRequest, BadRequestMessage)
    ensures query.Some? && Validate(query.value).Some? ==>
      response == HttpError(StatusBadRequest, Validate(query.value).value.Message())
    ensures retrieved <==> query.Some? && Validate(query.value).None?
    ensures retrieved ==>
      (response.HttpError? <==> exists i :: 0 <= i < query.value.requests && fetch(i).FetchFailed?)
    ensures response.EncodingAborted? <==>
      retrieved &&
      (forall i :: 0 <= i < query.value.requests ==> fetch(i).Fetched?) &&
      exists i :: 0 <= i < query.value.requests && fetch(i).data == []
    ensures retrieved && response.HttpError? ==>
      response.status == StatusInternalServerError &&
      exists i :: 0 <= i < query.value.requests && fetch(i).FetchFailed? &&
        response.message == RetrievalErrorPrefix + fetch(i).message
    ensures response.HttpOk? ==>
      retrieved &&
      var n := query.value.requests;
      |response.results| == n + 1 &&
      (forall i :: 0 <= i < n ==> response.results[i] == Summary(fetch(i).data)) &&
      response.results[n] == Summary(Concat(Collected(Requested(fetch, n)).value))
  {
    retrieved := false;
    if query.None? {
      return HttpError(StatusBadRequest, BadRequestMessage), retrieved;
    }
    var params := query.value;
    var invalid := Validate(params);
    if invalid.Some? {
      return HttpError(StatusBadRequest, invalid.value.Message()), retrieved;
    }
    retrieved := true;
    var outcomes := Requested(fetch, params.requests);
    var randomNumbersSets := RetrieveRandomNumbersSets(outcomes);
    if randomNumbersSets.Failure? {
      response := HttpError(StatusInternalServerError, RetrievalErrorPrefix + randomNumbersSets.error);
      return;
    }
    var results := BuildResults(randomNumbersSets.value);
    ConcatEmpty(randomNumbersSets.value);
    if Encodable(results) {
      response := HttpOk(results);
    } else {
      response := EncodingAborted;
    }
  }
}
