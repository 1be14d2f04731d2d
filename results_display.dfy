/**
 * The results panel: fetching the run's dataset items once, recognising the
 * items that describe a failure, summarising them, and naming the download.
 */
module ResultsDisplay {
  import opened Wrappers
  import opened JsValue

  /** `item && typeof item === "object" && (item.error || item.errorDescription || item.errorMessage)`. */
  predicate IsErrorItem(item: Value)
    ensures IsErrorItem(item) <==>
              && item.Obj?
              && (|| Truthy(GetProp(item, "error"))
                  || Truthy(GetProp(item, "errorDescription"))
                  || Truthy(GetProp(item, "errorMessage")))
  {
    Truthy(item) && IsObjectType(item)
    && Truthy(Or(Or(GetProp(item, "error"), GetProp(item, "errorDescription")), GetProp(item, "errorMessage")))
  }

  /** `results.some(isErrorItem)`. */
  function AnyErrorItem(items: seq<Value>): (b: bool)
    ensures b <==> exists i :: 0 <= i < |items| && IsErrorItem(items[i])
  {
    if |items| == 0 then false
    else
      assert forall i :: 0 < i < |items| ==> items[i] == items[1..][i - 1];
      IsErrorItem(items[0]) || AnyErrorItem(items[1..])
  }

  /** `hasErrors`: only an array of results can have errors. */
  function HasErrors(results: Value): (b: bool)
    ensures !Truthy(results) || !results.Arr? ==> !b
    ensures results.Arr? ==> (b <==> exists i :: 0 <= i < |results.items| && IsErrorItem(results.items[i]))
  {
    Truthy(results) && results.Arr? && AnyErrorItem(results.items)
  }

  /** `results.filter(isErrorItem)`. */
  function ErrorItems(items: seq<Value>): (r: seq<Value>)
    ensures |r| <= |items|
    ensures forall i :: 0 <= i < |r| ==> IsErrorItem(r[i])
  {
    if |items| == 0 then []
    else if IsErrorItem(items[0]) then [items[0]] + ErrorItems(items[1..])
    else ErrorItems(items[1..])
  }

  /** The filter distributes over concatenation, so it keeps the error items in their original order. */
  lemma {:induction false} ErrorItemsConcat(a: seq<Value>, b: seq<Value>)
    ensures ErrorItems(a + b) == ErrorItems(a) + ErrorItems(b)
    decreases |a|
  {
    if |a| > 0 {
      assert (a + b)[1..] == a[1..] + b;
      ErrorItemsConcat(a[1..], b);
    } else {
      assert a + b == b;
    }
  }

  /** The filter keeps an error item and drops any other item. */
  lemma ErrorItemsSingle(item: Value)
    ensures ErrorItems([item]) == if IsErrorItem(item) then [item] else []
  {
    assert [item][1..] == [];
  }

  /** Every error item of the input is kept. */
  lemma {:induction false} ErrorItemKept(items: seq<Value>, i: nat)
    requires i < |items| && IsErrorItem(items[i])
    ensures items[i] in ErrorItems(items)
    decreases |items|
  {
    if i > 0 {
      ErrorItemKept(items[1..], i - 1);
    }
  }

  /** There is something to filter out exactly when some item is an error item. */
  lemma {:induction false} SomeIffFiltered(items: seq<Value>)
    ensures AnyErrorItem(items) <==> |ErrorItems(items)| > 0
    decreases |items|
  {
    if |items| > 0 {
      SomeIffFiltered(items[1..]);
    }
  }

  /** One entry of the error summary. */
  datatype ErrorDetail = ErrorDetail(url: Value, error: Value, description: Value)

  /** The summary of one error item, with its fixed fallbacks. */
  function DetailOf(item: Value): (d: ErrorDetail)
    ensures Truthy(d.url) && Truthy(d.error) && Truthy(d.description)
    ensures Truthy(GetProp(item, "url")) ==> d.url == GetProp(item, "url")
    ensures !Truthy(GetProp(item, "url")) ==> d.url == Str("Unknown URL")
    ensures Truthy(GetProp(item, "error")) ==> d.error == GetProp(item, "error")
    ensures !Truthy(GetProp(item, "error")) ==> d.error == Str("Unknown error")
    ensures Truthy(GetProp(item, "errorDescription")) ==> d.description == GetProp(item, "errorDescription")
    ensures !Truthy(GetProp(item, "errorDescription")) && Truthy(GetProp(item, "errorMessage"))
            ==> d.description == GetProp(item, "errorMessage")
    ensures !Truthy(GetProp(item, "errorDescription")) && !Truthy(GetProp(item, "errorMessage"))
            ==> d.description == Str("No description available")
  {
    ErrorDetail(
      Or(GetProp(item, "url"), Str("Unknown URL")),
      Or(GetProp(item, "error"), Str("Unknown error")),
      Or(Or(GetProp(item, "errorDescription"), GetProp(item, "errorMessage")), Str("No description available")))
  }

  /** `getErrorDetails`: the summaries of the error items, one each, in order. */
  function ErrorDetails(results: Value): (r: seq<ErrorDetail>)
    ensures !Truthy(results) || !results.Arr? ==> r == []
    ensures results.Arr? ==> |r| == |ErrorItems(results.items)|
    ensures results.Arr? ==> forall i :: 0 <= i < |r| ==> r[i] == DetailOf(ErrorItems(results.items)[i])
  {
    if !Truthy(results) || !results.Arr? then []
    else
      var errors := ErrorItems(results.items);
      seq(|errors|, i requires 0 <= i < |errors| => DetailOf(errors[i]))
  }

  /** The warning is shown exactly when there is at least one summary to show. */
  lemma HasErrorsIffDetails(results: Value)
    ensures HasErrors(results) <==> |ErrorDetails(results)| > 0
  {
    if results.Arr? {
      SomeIffFiltered(results.items);
    }
  }

  /** The panel's `results`, `isLoading` and `error` state. */
  datatype ViewState = ViewState(results: Value, isLoading: bool, error: Value)

  /** `useState(null)`, `useState(true)`, `useState(null)`. */
  const InitialView := ViewState(Null, true, Null)

  /**
   * The effect: with a truthy `runId`, `fetchResults` stores `response.data` of
   * the settled `getRunResults` call, or the message it failed with (a missing
   * response fails on the property read), and ends loading either way.
   */
  function FetchStep(s: ViewState, runId: Value, outcome: Result<Value, string>): (t: ViewState)
    ensures !Truthy(runId) ==> t == s
    ensures Truthy(runId) ==> !t.isLoading
    ensures Truthy(runId) && outcome.Failure? ==> t.error == Str(outcome.error) && t.results == s.results
    ensures Truthy(runId) && outcome.Success? && IsNullish(outcome.value) ==>
              t.error == Str(TypeErrorMessage) && t.results == s.results
    ensures Truthy(runId) && outcome.Success? && !IsNullish(outcome.value) ==>
              t.results == GetProp(outcome.value, "data") && t.error == s.error
  {
    if !Truthy(runId) then s
    else
      match outcome
      case Failure(message) => s.(error := Str(message), isLoading := false)
      case Success(response) =>
        match Deref(response, "data")
        case Failure(message) => s.(error := Str(message), isLoading := false)
        case Success(data) => s.(results := data, isLoading := false)
  }

  /**
   * A fetch ends loading and sets exactly one of `results` and `error`, leaving
   * the other as it was: `results` exactly when the call resolved with a
   * response, `error` otherwise.
   */
  lemma FetchSetsOne(s: ViewState, runId: Value, outcome: Result<Value, string>)
    requires Truthy(runId)
    ensures !FetchStep(s, runId, outcome).isLoading
    ensures outcome.Success? && !IsNullish(outcome.value) ==>
              && FetchStep(s, runId, outcome).results == GetProp(outcome.value, "data")
              && FetchStep(s, runId, outcome).error == s.error
    ensures !(outcome.Success? && !IsNullish(outcome.value)) ==>
              && FetchStep(s, runId, outcome).results == s.results
              && FetchStep(s, runId, outcome).error == Str(if outcome.Failure? then outcome.error else TypeErrorMessage)
  {
  }

  /** Without a run id nothing is fetched and the spinner stays. */
  lemma NoRunKeepsLoading(runId: Value, outcome: Result<Value, string>)
    requires !Truthy(runId)
    ensures FetchStep(InitialView, runId, outcome).isLoading
  {
  }

  /** The panel's state, as the effect updates it. */
  class ResultsView {
    var results: Value
    var isLoading: bool
    var error: Value

    function State(): ViewState
      reads this
    {
      ViewState(results, isLoading, error)
    }

    constructor ()
      ensures State() == InitialView
    {
      results := Null;
      isLoading := true;
      error := Null;
    }

    /** The effect body: `fetchResults()` when `runId` is truthy. */
    method FetchResults(runId: Value, outcome: Result<Value, string>)
      modifies this
      ensures State() == FetchStep(old(State()), runId, outcome)
    {
      if Truthy(runId) {
        isLoading := true;
        var data := if outcome.Success? then Deref(outcome.value, "data") else Failure(outcome.error);
        if data.Success? {
          results := data.value;
        } else {
          error := Str(data.error);
        }
        isLoading := false;
      }
    }
  }

  /** The download file name: the selected actor's name followed by `-results.json`. */
  function DownloadName(selectedActor: Value): (r: Result<string, string>)
    ensures r.Failure? <==> IsNullish(selectedActor)
    ensures GetProp(selectedActor, "name").Str? ==> r == Success(GetProp(selectedActor, "name").s + "-results.json")
  {
    match Deref(selectedActor, "name")
    case Failure(m) => Failure(m)
    case Success(name) => Success(ToString(name) + "-results.json")
  }
}
