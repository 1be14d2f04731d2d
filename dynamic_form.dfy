/**
 * The form built from an actor's input schema: the field list derived from
 * `schema.properties` and `schema.required`, and the name-to-value map the
 * fields fill in and the submit button hands on.
 */
module DynamicForm {
  import opened Wrappers
  import opened JsString
  import opened JsValue

  /** The TypeError `Object.entries` throws on null and undefined (engine-specific text). */
  const ToObjectError := "Cannot convert undefined or null to object"

  /** The TypeError of calling `includes` on a value that has no such method (engine-specific text). */
  const NotAFunctionError := "includes is not a function"

  /** The `[key, value]` pairs of `Object.entries(v)`: own properties, or the indices of an array or a string. */
  function EntriesOf(v: Value): (r: Result<seq<Entry>, string>)
    ensures r.Failure? <==> IsNullish(v)
    ensures v.Obj? ==> r == Success(v.entries)
  {
    match v
    case Undefined => Failure(ToObjectError)
    case Null => Failure(ToObjectError)
    case Obj(entries) => Success(entries)
    case Arr(items) => Success(seq(|items|, i requires 0 <= i < |items| => Entry(DecimalString(i), items[i])))
    case Str(s) => Success(seq(|s|, i requires 0 <= i < |s| => Entry(DecimalString(i), Str([s[i]]))))
    case _ => Success([])
  }

  /** The values `schema.required?.includes(key)` can be evaluated on without throwing. */
  predicate RequiredUsable(required: Value) {
    IsNullish(required) || required.Arr? || required.Str?
  }

  /** `schema.required?.includes(key)`: undefined without a list, otherwise whether the list names the key. */
  function RequiredFlag(required: Value, key: string): (r: Result<Value, string>)
    ensures r.Success? <==> RequiredUsable(required)
    ensures IsNullish(required) ==> r == Success(Undefined)
    ensures required.Arr? ==> r == Success(Bool(Str(key) in required.items))
    ensures required.Str? ==> r == Success(Bool(IndexOfFrom(required.s, key, 0).Some?))
  {
    if IsNullish(required) then Success(Undefined)
    else if required.Arr? then Success(Bool(Str(key) in required.items))
    else if required.Str? then Success(Bool(IndexOfFrom(required.s, key, 0).Some?))
    else Failure(NotAFunctionError)
  }

  /** `{name: key, ...field, required}`: one entry of `fields`. */
  function FieldOf(key: string, spec: Value, required: Value): seq<Entry> {
    Put(SpreadValue([Entry("name", Str(key))], spec), "required", required)
  }

  /** The `map` over the schema's entries, evaluated left to right. */
  function FieldsOf(entries: seq<Entry>, required: Value): (r: Result<seq<Value>, string>)
    ensures r.Success? <==> |entries| == 0 || RequiredUsable(required)
    ensures r.Success? ==> |r.value| == |entries|
  {
    if |entries| == 0 then Success([])
    else
      match RequiredFlag(required, entries[0].key)
      case Failure(m) => Failure(m)
      case Success(flag) =>
        match FieldsOf(entries[1..], required)
        case Failure(m) => Failure(m)
        case Success(rest) => Success([Obj(FieldOf(entries[0].key, entries[0].val, flag))] + rest)
  }

  /** `fields`: one field per property of `schema.properties`; reading a property of a missing schema throws. */
  function Fields(schema: Value): (r: Result<seq<Value>, string>)
    ensures IsNullish(schema) ==> r.Failure?
    ensures !IsNullish(schema) && GetProp(schema, "properties").Obj? && RequiredUsable(GetProp(schema, "required")) ==>
              r.Success? && |r.value| == |GetProp(schema, "properties").entries|
  {
    if IsNullish(schema) then Failure(TypeErrorMessage)
    else
      match EntriesOf(GetProp(schema, "properties"))
      case Failure(m) => Failure(m)
      case Success(entries) => FieldsOf(entries, GetProp(schema, "required"))
  }

  /** The i-th field is built from the i-th entry of the schema, so fields follow `Object.entries` order. */
  lemma {:induction false} FieldsAt(entries: seq<Entry>, required: Value, i: nat)
    requires i < |entries| && RequiredUsable(required)
    ensures FieldsOf(entries, required).Success?
    ensures FieldsOf(entries, required).value[i]
            == Obj(FieldOf(entries[i].key, entries[i].val, RequiredFlag(required, entries[i].key).value))
  {
    var flag := RequiredFlag(required, entries[0].key);
    assert flag.Success?;
    if i > 0 {
      FieldsAt(entries[1..], required, i - 1);
      assert entries[1..][i - 1] == entries[i];
      var rest := FieldsOf(entries[1..], required).value;
      assert FieldsOf(entries, required).value == [Obj(FieldOf(entries[0].key, entries[0].val, flag.value))] + rest;
    }
  }

  /**
   * A field has the key as its `name` unless its spec brings a `name` of its own,
   * has the `required` flag computed from the schema whatever the spec says, and
   * has every other property of its spec unchanged.
   */
  lemma {:induction false} FieldProperties(key: string, spec: Value, required: Value)
    requires RequiredUsable(required)
    requires spec.Obj? ==> NoDuplicateKeys(spec.entries)
    ensures var f := FieldOf(key, spec, RequiredFlag(required, key).value);
            && Lookup(f, "required") == RequiredFlag(required, key).value
            && Lookup(f, "name") == (if spec.Obj? && HasKey(spec.entries, "name") then Lookup(spec.entries, "name")
                                    else Str(key))
            && (forall k :: k != "name" && k != "required" ==> Lookup(f, k) == GetProp(spec, k))
  {
    var base := [Entry("name", Str(key))];
    var spread := SpreadValue(base, spec);
    if spec.Obj? {
      forall k ensures Lookup(spread, k) == if HasKey(spec.entries, k) then Lookup(spec.entries, k) else Lookup(base, k) {
        SpreadLookup(base, spec.entries, k);
      }
    }
    assert Lookup(base, "name") == Str(key);
    assert forall k :: k != "name" ==> Lookup(base, k) == Undefined;
  }

  /** A schema whose `required` list names the key marks the field required, and one without a list leaves it undefined. */
  lemma RequiredFromSchema(key: string, spec: Value, required: Value)
    requires required.Arr? || IsNullish(required)
    requires spec.Obj? ==> NoDuplicateKeys(spec.entries)
    ensures var f := FieldOf(key, spec, RequiredFlag(required, key).value);
            && (required.Arr? ==> Lookup(f, "required") == Bool(Str(key) in required.items))
            && (IsNullish(required) ==> Lookup(f, "required") == Undefined)
  {
    FieldProperties(key, spec, required);
  }

  /** `formData` after the given `[name, value]` changes, each applied as `{...prev, [name]: value}`. */
  function ApplyChanges(data: seq<Entry>, changes: seq<Entry>): (r: seq<Entry>)
    ensures NoDuplicateKeys(data) ==> NoDuplicateKeys(r)
    ensures |data| <= |r| <= |data| + |changes|
    decreases |changes|
  {
    if |changes| == 0 then data
    else
      var last := changes[|changes| - 1];
      Put(ApplyChanges(data, changes[..|changes| - 1]), last.key, last.val)
  }

  /** A name just put is present, and putting a name keeps the presence of every other name. */
  lemma PutHasKey(data: seq<Entry>, k: string, v: Value, other: string)
    ensures HasKey(Put(data, k, v), k)
    ensures other != k ==> HasKey(Put(data, k, v), other) == HasKey(data, other)
  {
    if !HasKey(data, k) {
      assert Keys(Put(data, k, v))[|data|] == k;
    }
  }

  /** A name no change touched keeps whatever it had before the changes. */
  lemma {:induction false} UntouchedKept(data: seq<Entry>, changes: seq<Entry>, k: string)
    requires forall i :: 0 <= i < |changes| ==> changes[i].key != k
    ensures Lookup(ApplyChanges(data, changes), k) == Lookup(data, k)
    ensures HasKey(ApplyChanges(data, changes), k) == HasKey(data, k)
    decreases |changes|
  {
    if |changes| > 0 {
      var init := changes[..|changes| - 1];
      var last := changes[|changes| - 1];
      forall j | 0 <= j < |init| ensures init[j].key != k {
        assert init[j] == changes[j];
      }
      UntouchedKept(data, init, k);
      PutHasKey(ApplyChanges(data, init), last.key, last.val, k);
    }
  }

  /** A name takes the value of the last change made to it. */
  lemma {:induction false} LastChangeWins(data: seq<Entry>, changes: seq<Entry>, i: nat)
    requires i < |changes|
    requires forall j :: i < j < |changes| ==> changes[j].key != changes[i].key
    ensures Lookup(ApplyChanges(data, changes), changes[i].key) == changes[i].val
    ensures HasKey(ApplyChanges(data, changes), changes[i].key)
    decreases |changes|
  {
    var k := changes[i].key;
    var init := changes[..|changes| - 1];
    var last := changes[|changes| - 1];
    PutHasKey(ApplyChanges(data, init), last.key, last.val, k);
    if i < |changes| - 1 {
      assert init[i] == changes[i];
      forall j | i < j < |init| ensures init[j].key != k {
        assert init[j] == changes[j];
      }
      LastChangeWins(data, init, i);
    }
  }

  /**
   * The form starts from `{}` and defaults are never put into it, so a field the
   * user never changes is missing from what is submitted, default or not.
   */
  lemma DefaultsNotSubmitted(changes: seq<Entry>, k: string)
    requires forall i :: 0 <= i < |changes| ==> changes[i].key != k
    ensures GetProp(Obj(ApplyChanges([], changes)), k) == Undefined
    ensures !HasKey(ApplyChanges([], changes), k)
  {
    UntouchedKept([], changes, k);
  }

  /** The `formData` state of the form. */
  class FormState {
    var formData: seq<Entry>

    /** `useState({})`. */
    constructor ()
      ensures formData == []
    {
      formData := [];
    }

    /** `handleFieldChange(name, value)`: that one name takes the value, every other name is unchanged. */
    method HandleFieldChange(name: string, value: Value)
      modifies this
      ensures formData == Put(old(formData), name, value)
      ensures Lookup(formData, name) == value
      ensures forall k :: k != name ==> Lookup(formData, k) == Lookup(old(formData), k)
    {
      formData := Put(formData, name, value);
    }

    /** `handleSubmit`: the current `formData`, as it is; no required field is checked. */
    method HandleSubmit() returns (payload: Value)
      ensures payload == Obj(formData)
    {
      payload := Obj(formData);
    }
  }
}
