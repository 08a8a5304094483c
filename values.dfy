/** The JSON-like values carried in node data, execution contexts and webhook bodies. */
module Values {
  import opened Wrappers

  /** `Undefined` stands for a JavaScript `undefined` that an object literal still holds under its key. */
  datatype Value =
    | Undefined
    | Null
    | Bool(b: bool)
    | Num(n: int)
    | Str(s: string)
    | Arr(items: seq<Value>)
    | Obj(fields: map<string, Value>)

  /** The execution context: string keys to arbitrary values, copied from node to node. */
  type Context = map<string, Value>

  /** `v.key` in JavaScript: reading a property of `null` or `undefined` throws a TypeError,
      any other non-object value has no such property. */
  function Member(v: Value, key: string): (r: Call<Value>)
    ensures r.Raised? <==> (v.Null? || v.Undefined?)
    ensures v.Obj? && key in v.fields ==> r == Returned(v.fields[key])
    ensures !(v.Obj? && key in v.fields) && r.Returned? ==> r.value == Undefined
  {
    match v
    case Undefined => Raised("TypeError")
    case Null => Raised("TypeError")
    case Obj(fields) => Returned(if key in fields then fields[key] else Undefined)
    case _ => Returned(Undefined)
  }

  /** `v?.key`: optional chaining, which yields `undefined` instead of throwing. */
  function OptionalMember(v: Value, key: string): (r: Value)
    ensures v.Obj? && key in v.fields ==> r == v.fields[key]
    ensures !(v.Obj? && key in v.fields) ==> r == Undefined
  {
    if v.Obj? && key in v.fields then v.fields[key] else Undefined
  }

  /** `{...ctx, [key]: v}`: only `key` is (over)written. */
  ghost predicate OnlyKeySet(before: Context, after: Context, key: string, v: Value) {
    && after.Keys == before.Keys + {key}
    && after[key] == v
    && forall k :: k in before && k != key ==> after[k] == before[k]
  }
}
