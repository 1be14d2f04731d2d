/**
 * JavaScript values as the gateway and the client handle them: JSON data plus
 * `undefined`. Numbers are integers. Objects are sequences of own properties in
 * insertion order. JavaScript lists integer-like keys (such as "0" or "17")
 * first, in ascending order, and the other keys after them in insertion order;
 * the model does not move integer-like keys, so its order is the order of
 * `Object.entries`, spreading and `JSON.stringify` for objects without them.
 */
module JsValue {
  import opened Wrappers
  import opened JsString

  datatype Value =
    | Undefined
    | Null
    | Bool(b: bool)
    | Num(n: int)
    | Str(s: string)
    | Arr(items: seq<Value>)
    | Obj(entries: seq<Entry>)

  datatype Entry = Entry(key: string, val: Value)

  /** The text of the TypeError thrown when a property of `null` or `undefined` is read (engine-specific). */
  const TypeErrorMessage := "Cannot read properties of undefined"

  /** JavaScript truthiness: `undefined`, `null`, `false`, `0` and `""` are the falsy values here. */
  predicate Truthy(v: Value) {
    match v
    case Undefined => false
    case Null => false
    case Bool(b) => b
    case Num(n) => n != 0
    case Str(s) => s != ""
    case Arr(_) => true
    case Obj(_) => true
  }

  predicate IsNullish(v: Value) {
    v.Undefined? || v.Null?
  }

  /** `typeof v === "object"`: null, arrays and plain objects. */
  predicate IsObjectType(v: Value) {
    v.Null? || v.Arr? || v.Obj?
  }

  /** `a || b`: the first operand when it is truthy, the second otherwise. */
  function Or(a: Value, b: Value): Value {
    if Truthy(a) then a else b
  }

  function Keys(entries: seq<Entry>): (ks: seq<string>)
    ensures |ks| == |entries|
    ensures forall i :: 0 <= i < |entries| ==> ks[i] == entries[i].key
  {
    if |entries| == 0 then [] else [entries[0].key] + Keys(entries[1..])
  }

  predicate HasKey(entries: seq<Entry>, k: string) {
    k in Keys(entries)
  }

  /** Objects parsed from JSON or written as literals never repeat a key. */
  predicate NoDuplicateKeys(entries: seq<Entry>) {
    forall i, j :: 0 <= i < j < |entries| ==> entries[i].key != entries[j].key
  }

  /** The value of own property `k`, or `undefined` when there is none. */
  function Lookup(entries: seq<Entry>, k: string): (v: Value)
    ensures !HasKey(entries, k) ==> v == Undefined
  {
    if |entries| == 0 then Undefined
    else if entries[0].key == k then entries[0].val
    else Lookup(entries[1..], k)
  }

  /** `v.k` on a value that is not null or undefined; only plain objects carry own properties here. */
  function GetProp(v: Value, k: string): Value {
    if v.Obj? then Lookup(v.entries, k) else Undefined
  }

  /** `v?.k`: optional chaining yields `undefined` on null and undefined instead of throwing. */
  function OptGet(v: Value, k: string): Value {
    if IsNullish(v) then Undefined else GetProp(v, k)
  }

  /** `v.k`: reading a property of null or undefined throws a TypeError. */
  function Deref(v: Value, k: string): Result<Value, string> {
    if IsNullish(v) then Failure(TypeErrorMessage) else Success(GetProp(v, k))
  }

  /**
   * `o[k] = v`: an existing property keeps its position and takes the new value,
   * a new one is appended; every other property is left as it was.
   */
  function Put(entries: seq<Entry>, k: string, v: Value): (r: seq<Entry>)
    ensures Lookup(r, k) == v
    ensures forall k' :: k' != k ==> Lookup(r, k') == Lookup(entries, k')
    ensures Keys(r) == if HasKey(entries, k) then Keys(entries) else Keys(entries) + [k]
    ensures NoDuplicateKeys(entries) ==> NoDuplicateKeys(r)
  {
    if |entries| == 0 then [Entry(k, v)]
    else if entries[0].key == k then
      assert Keys([Entry(k, v)] + entries[1..]) == Keys(entries) by {
        assert ([Entry(k, v)] + entries[1..])[1..] == entries[1..];
      }
      [Entry(k, v)] + entries[1..]
    else
      var rest := Put(entries[1..], k, v);
      assert ([entries[0]] + rest)[1..] == rest;
      assert HasKey(entries, k) == HasKey(entries[1..], k);
      [entries[0]] + rest
  }

  /** `{...target, ...source}` over own properties: the source's properties are put one by one, in order. */
  function Spread(target: seq<Entry>, source: seq<Entry>): seq<Entry>
    decreases |source|
  {
    if |source| == 0 then target
    else Spread(Put(target, source[0].key, source[0].val), source[1..])
  }

  /** Spreading a value: only plain objects contribute properties here. */
  function SpreadValue(target: seq<Entry>, source: Value): seq<Entry> {
    if source.Obj? then Spread(target, source.entries) else target
  }

  /** After a spread, a key reads as in the source when the source has it, and as in the target otherwise. */
  lemma {:induction false} SpreadLookup(target: seq<Entry>, source: seq<Entry>, k: string)
    requires NoDuplicateKeys(source)
    ensures Lookup(Spread(target, source), k) == if HasKey(source, k) then Lookup(source, k) else Lookup(target, k)
    decreases |source|
  {
    if |source| > 0 {
      var t' := Put(target, source[0].key, source[0].val);
      assert NoDuplicateKeys(source[1..]);
      SpreadLookup(t', source[1..], k);
      assert HasKey(source, k) <==> k == source[0].key || HasKey(source[1..], k);
      if k == source[0].key {
        assert !HasKey(source[1..], k) by {
          forall i | 0 <= i < |source[1..]| ensures Keys(source[1..])[i] != k {
            assert source[1..][i] == source[i + 1];
          }
        }
      }
    }
  }

  /** Spreading keeps every key of the target and of the source, in order: target keys first. */
  lemma {:induction false} SpreadKeepsTargetKeys(target: seq<Entry>, source: seq<Entry>)
    ensures |Keys(Spread(target, source))| >= |Keys(target)|
    ensures Keys(Spread(target, source))[..|target|] == Keys(target)
    decreases |source|
  {
    if |source| > 0 {
      var t' := Put(target, source[0].key, source[0].val);
      SpreadKeepsTargetKeys(t', source[1..]);
      assert Keys(t')[..|target|] == Keys(target);
    }
  }

  /** `String(v)`, also used by template literals; integers print in decimal. */
  function ToString(v: Value): string {
    match v
    case Undefined => "undefined"
    case Null => "null"
    case Bool(b) => if b then "true" else "false"
    case Num(n) => IntString(n)
    case Str(s) => s
    case Arr(items) =>
      Join(seq(|items|, i requires 0 <= i < |items| => if IsNullish(items[i]) then "" else ToString(items[i])), ",")
    case Obj(_) => "[object Object]"
  }

  /** How `Array.prototype.join` prints one element: null and undefined print as the empty string. */
  function ElementString(v: Value): string {
    if IsNullish(v) then "" else ToString(v)
  }

  /** `items.join(sep)`. */
  function JoinValues(items: seq<Value>, sep: string): string {
    Join(seq(|items|, i requires 0 <= i < |items| => ElementString(items[i])), sep)
  }
}
