/** JSON values as Python's `json` module sees them: objects keep insertion order. */
module Json {
  import opened Wrappers

  datatype Value =
    | Null
    | Bool(flag: bool)
    | Int(number: int)
    | Real(amount: real)
    | Str(text: string)
    | Arr(items: seq<Value>)
    | Obj(fields: Object)

  datatype Field = Field(key: string, value: Value)

  type Object = seq<Field>

  /** `d.get(key)`, where a missing key and an explicit null look the same to the caller. */
  function Lookup(o: Object, key: string): Option<Value> {
    if o == [] then None
    else if o[0].key == key then Some(o[0].value)
    else Lookup(o[1..], key)
  }

  function Get(o: Object, key: string): Value {
    Lookup(o, key).GetOr(Null)
  }

  /** Python truth of a JSON value, as `a or b` uses it. */
  predicate Truthy(v: Value) {
    match v
    case Null => false
    case Bool(b) => b
    case Int(n) => n != 0
    case Real(x) => x != 0.0
    case Str(s) => s != []
    case Arr(items) => items != []
    case Obj(fields) => fields != []
  }

  lemma {:induction false} FalsyValues(v: Value)
    ensures !Truthy(v) <==> v in {Null, Bool(false), Int(0), Real(0.0), Str(""), Arr([]), Obj([])}
  {
  }

  lemma {:induction false} LookupAppend(a: Object, b: Object, key: string)
    ensures Lookup(a + b, key) == if Lookup(a, key).Some? then Lookup(a, key) else Lookup(b, key)
  {
    if a == [] {
      assert a + b == b;
    } else {
      assert (a + b)[1..] == a[1..] + b;
      LookupAppend(a[1..], b, key);
    }
  }
}
