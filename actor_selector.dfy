/**
 * The actor picker: it loads the user's actors once per key, selects one by id
 * and labels the count.
 */
module ActorSelector {
  import opened Wrappers
  import opened JsValue

  const FetchActorsFailed := "Failed to fetch actors"

  /**
   * The picker's `actors`, `isLoading`, `error` and `selectedActorId` state,
   * plus the actors handed to `onActorSelect` so far.
   */
  datatype SelectorState = SelectorState(actors: Value, isLoading: bool, error: string,
                                         selectedActorId: Value, selected: seq<Value>)

  const InitialSelector := SelectorState(Arr([]), true, "", Str(""), [])

  /**
   * `response.success` and, when it is truthy, `response.data.data.items || []`;
   * each property read throws on a missing level.
   */
  function ActorsOf(response: Value): (r: Result<Option<Value>, string>)
    ensures IsNullish(response) ==> r.Failure?
    ensures !IsNullish(response) && !Truthy(GetProp(response, "success")) ==> r == Success(None)
    ensures r.Success? && r.value.Some? ==> Truthy(r.value.value)
    ensures !IsNullish(response) && Truthy(GetProp(response, "success"))
            ==> (r.Success? <==> !IsNullish(GetProp(response, "data")) && !IsNullish(GetProp(GetProp(response, "data"), "data")))
    ensures !IsNullish(response) && Truthy(GetProp(response, "success")) &&
            !IsNullish(GetProp(response, "data")) && !IsNullish(GetProp(GetProp(response, "data"), "data"))
            ==> r == Success(Some(Or(GetProp(GetProp(GetProp(response, "data"), "data"), "items"), Arr([]))))
  {
    match Deref(response, "success")
    case Failure(m) => Failure(m)
    case Success(success) =>
      if !Truthy(success) then Success(None)
      else
        match Deref(response, "data")
        case Failure(m) => Failure(m)
        case Success(outer) =>
          match Deref(outer, "data")
          case Failure(m) => Failure(m)
          case Success(inner) =>
            match Deref(inner, "items")
            case Failure(m) => Failure(m)
            case Success(items) => Success(Some(Or(items, Arr([]))))
  }

  /** `fetchActors` with the settled `getActors` call: the list, or an error message, and loading over. */
  function FetchStep(s: SelectorState, outcome: Result<Value, string>): (t: SelectorState)
    ensures !t.isLoading
    ensures t.selectedActorId == s.selectedActorId && t.selected == s.selected
    ensures outcome.Success? && ActorsOf(outcome.value).Success? && ActorsOf(outcome.value).value.Some?
            ==> t.actors == ActorsOf(outcome.value).value.value && t.error == ""
    ensures outcome.Success? && ActorsOf(outcome.value) == Success(None)
            ==> t.actors == s.actors && t.error == FetchActorsFailed
    ensures outcome.Success? && ActorsOf(outcome.value).Failure?
            ==> t.actors == s.actors && t.error == ActorsOf(outcome.value).error
    ensures outcome.Failure?
            ==> t.actors == s.actors && t.error == (if outcome.error != "" then outcome.error else FetchActorsFailed)
  {
    var started := s.(isLoading := true, error := "");
    var caught := if outcome.Success? then ActorsOf(outcome.value) else Failure(outcome.error);
    match caught
    case Success(Some(list)) => started.(actors := list, isLoading := false)
    case Success(None) => started.(error := FetchActorsFailed, isLoading := false)
    case Failure(message) => started.(error := if message != "" then message else FetchActorsFailed, isLoading := false)
  }

  /**
   * A fetch either installs a list and leaves no error, or keeps the old list
   * and shows a non-empty error; a refused envelope always shows the fixed
   * message.
   */
  lemma FetchOutcomes(s: SelectorState, outcome: Result<Value, string>)
    ensures var t := FetchStep(s, outcome);
            || (t.error == "" && Truthy(t.actors))
            || (t.error != "" && t.actors == s.actors)
    ensures outcome.Success? && !IsNullish(outcome.value) && !Truthy(GetProp(outcome.value, "success"))
            ==> FetchStep(s, outcome).error == FetchActorsFailed && FetchStep(s, outcome).actors == s.actors
    ensures outcome.Failure? && outcome.error != "" ==> FetchStep(s, outcome).error == outcome.error
    ensures outcome.Success? && !IsNullish(outcome.value) && Truthy(GetProp(outcome.value, "success")) &&
            !IsNullish(GetProp(outcome.value, "data")) && !IsNullish(GetProp(GetProp(outcome.value, "data"), "data"))
            ==> FetchStep(s, outcome).error == "" &&
                FetchStep(s, outcome).actors == Or(GetProp(GetProp(GetProp(outcome.value, "data"), "data"), "items"), Arr([]))
  {
  }

  /** An envelope without `items` leaves an empty list rather than failing. */
  lemma MissingItemsGiveEmptyList(s: SelectorState)
    ensures FetchStep(s, Success(Obj([Entry("success", Bool(true)), Entry("data", Obj([Entry("data", Obj([]))]))])))
            == s.(actors := Arr([]), isLoading := false, error := "")
  {
    var response := Obj([Entry("success", Bool(true)), Entry("data", Obj([Entry("data", Obj([]))]))]);
    assert "success" != "data";
    assert GetProp(response, "data") == Obj([Entry("data", Obj([]))]) by {
      assert response.entries[1..] == [Entry("data", Obj([Entry("data", Obj([]))]))];
      assert Lookup(response.entries, "data") == Lookup(response.entries[1..], "data");
    }
  }

  /**
   * `actors.find(actor => actor.id === actorId)`: the index of the first actor
   * with that id, none, or the TypeError of reading `id` of a missing actor met
   * before any match.
   */
  function FindById(actors: seq<Value>, id: Value): (r: Result<Option<nat>, string>)
    ensures r.Success? && r.value.Some? ==>
              && r.value.value < |actors|
              && GetProp(actors[r.value.value], "id") == id
              && !IsNullish(actors[r.value.value])
              && forall j :: 0 <= j < r.value.value ==> !IsNullish(actors[j]) && GetProp(actors[j], "id") != id
    ensures r == Success(None) <==> forall j :: 0 <= j < |actors| ==> !IsNullish(actors[j]) && GetProp(actors[j], "id") != id
  {
    if |actors| == 0 then Success(None)
    else if IsNullish(actors[0]) then Failure(TypeErrorMessage)
    else if GetProp(actors[0], "id") == id then Success(Some(0))
    else
      var rest := FindById(actors[1..], id);
      assert forall j :: 0 < j < |actors| ==> actors[j] == actors[1..][j - 1];
      match rest
      case Failure(m) => Failure(m)
      case Success(None) => Success(None)
      case Success(Some(i)) => Success(Some(i + 1))
  }

  /**
   * `handleActorSelect(id)`: the id is always recorded; the first actor with
   * that id is handed on when there is one and it is truthy.
   */
  function SelectStep(s: SelectorState, id: Value): (t: SelectorState)
    ensures t.selectedActorId == id
    ensures t.actors == s.actors && t.isLoading == s.isLoading && t.error == s.error
    ensures |s.selected| <= |t.selected| <= |s.selected| + 1 && t.selected[..|s.selected|] == s.selected
  {
    var recorded := s.(selectedActorId := id);
    if !s.actors.Arr? then recorded
    else
      match FindById(s.actors.items, id)
      case Success(Some(i)) =>
        if Truthy(s.actors.items[i]) then recorded.(selected := s.selected + [s.actors.items[i]]) else recorded
      case _ => recorded
  }

  /**
   * An actor is handed on exactly when one with that id is found and the found
   * actor is truthy, and it is the first one; otherwise nothing is handed on.
   */
  lemma SelectHandsOnFirstMatch(s: SelectorState, id: Value)
    requires s.actors.Arr?
    ensures var f := FindById(s.actors.items, id);
            |SelectStep(s, id).selected| == |s.selected| + 1 <==>
              f.Success? && f.value.Some? && Truthy(s.actors.items[f.value.value])
    ensures var f := FindById(s.actors.items, id);
            !(f.Success? && f.value.Some? && Truthy(s.actors.items[f.value.value])) ==>
              SelectStep(s, id).selected == s.selected
    ensures var f := FindById(s.actors.items, id);
            f.Success? && f.value.Some? && Truthy(s.actors.items[f.value.value]) ==>
              SelectStep(s, id).selected == s.selected + [s.actors.items[f.value.value]]
  {
  }

  /**
   * A falsy actor that `find` matches is not handed on: in the list `[0]`,
   * looking up an undefined id finds `0`, whose `id` reads as undefined.
   */
  lemma FalsyMatchNotHandedOn(s: SelectorState)
    requires s.actors == Arr([Num(0)])
    ensures FindById(s.actors.items, Undefined) == Success(Some(0))
    ensures SelectStep(s, Undefined).selected == s.selected
  {
    assert GetProp(Num(0), "id") == Undefined;
  }

  /** The picker's state, as the effect and the selection handler update it. */
  class Selector {
    var actors: Value
    var isLoading: bool
    var error: string
    var selectedActorId: Value
    var selected: seq<Value>

    function State(): SelectorState
      reads this
    {
      SelectorState(actors, isLoading, error, selectedActorId, selected)
    }

    constructor ()
      ensures State() == InitialSelector
    {
      actors := Arr([]);
      isLoading := true;
      error := "";
      selectedActorId := Str("");
      selected := [];
    }

    /** `fetchActors`. */
    method FetchActors(outcome: Result<Value, string>)
      modifies this
      ensures State() == FetchStep(old(State()), outcome)
    {
      isLoading := true;
      error := "";
      var caught := if outcome.Success? then ActorsOf(outcome.value) else Failure(outcome.error);
      if caught.Success? {
        if caught.value.Some? {
          actors := caught.value.value;
        } else {
          error := FetchActorsFailed;
        }
      } else {
        error := if caught.error != "" then caught.error else FetchActorsFailed;
      }
      isLoading := false;
    }

    /** `handleActorSelect`. */
    method HandleActorSelect(id: Value)
      modifies this
      ensures State() == SelectStep(old(State()), id)
    {
      selectedActorId := id;
      if actors.Arr? {
        var found := FindById(actors.items, id);
        if found.Success? && found.value.Some? && Truthy(actors.items[found.value.value]) {
          selected := selected + [actors.items[found.value.value]];
        }
      }
    }
  }

  /** The noun of "Found n actor(s) in your account". */
  function CountNoun(count: nat): (noun: string)
    ensures noun == "actor" <==> count == 1
    ensures noun == "actors" <==> count != 1
  {
    "actor" + (if count != 1 then "s" else "")
  }
}
