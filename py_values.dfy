/** Python values as the bots see them: decoded JSON, truthiness, `dict.get`,
    `int()` on a float, and `==` against an integer literal. */
module PyValues {

  datatype Option<+T> = None | Some(value: T)

  /** A value produced by `json.loads` (or a Flask form dict). JSON numbers are
      modelled as integers. */
  datatype Json =
    | JNull
    | JBool(b: bool)
    | JNum(n: int)
    | JStr(s: string)
    | JList(items: seq<Json>)
    | JObj(fields: map<string, Json>)

  /** Python truthiness: `None`, `False`, `0`, `""`, `[]` and `{}` are false. */
  predicate Truthy(j: Json) {
    match j
    case JNull => false
    case JBool(b) => b
    case JNum(n) => n != 0
    case JStr(s) => s != ""
    case JList(items) => items != []
    case JObj(fields) => fields != map[]
  }

  /** `d.get(key, default)` */
  function Get(fields: map<string, Json>, key: string, default: Json): Json {
    if key in fields then fields[key] else default
  }

  /** Python `j == k` for an integer literal `k`; `False == 0` and `True == 1` hold in Python. */
  predicate PyEqInt(j: Json, k: int) {
    match j
    case JNum(n) => n == k
    case JBool(b) => (if b then 1 else 0) == k
    case _ => false
  }

  /** The value of the first key of `keys` that is present in `fields`, else `default`:
      the declarative form of a chain of nested `d.get(k1, d.get(k2, ...))` calls. */
  function FirstPresent(fields: map<string, Json>, keys: seq<string>, default: Json): (r: Json)
    ensures r == default || exists i :: 0 <= i < |keys| && keys[i] in fields && r == fields[keys[i]]
    ensures (forall i :: 0 <= i < |keys| ==> keys[i] !in fields) ==> r == default
    ensures forall i :: 0 <= i < |keys| && keys[i] in fields && (forall j :: 0 <= j < i ==> keys[j] !in fields)
              ==> r == fields[keys[i]]
    decreases |keys|
  {
    if keys == [] then default
    else if keys[0] in fields then fields[keys[0]]
    else
      var rest := FirstPresent(fields, keys[1..], default);
      assert forall i :: 1 <= i < |keys| ==> keys[i] == keys[1..][i - 1];
      rest
  }

  /** The ordered table of candidate keys agrees with the nested `get` chain the
      webhook handler writes out for three keys. */
  lemma {:induction false} FirstPresentIsNestedGet(fields: map<string, Json>, a: string, b: string, c: string, default: Json)
    ensures FirstPresent(fields, [a, b, c], default) == Get(fields, a, Get(fields, b, Get(fields, c, default)))
  {
    assert [a, b, c][1..] == [b, c];
    assert [b, c][1..] == [c];
    assert [c][1..] == [];
    assert FirstPresent(fields, [], default) == default;
    assert FirstPresent(fields, [c], default) == Get(fields, c, default);
    assert FirstPresent(fields, [b, c], default) == Get(fields, b, Get(fields, c, default));
  }

  /** Python `int(x)` for a float `x`: truncation toward zero. */
  function Trunc(x: real): (r: int)
    ensures x >= 0.0 ==> r as real <= x < r as real + 1.0
    ensures x < 0.0 ==> r as real - 1.0 < x <= r as real
  {
    if x >= 0.0 then x.Floor else -((-x).Floor)
  }
}
