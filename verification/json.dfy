/** JSON-like values as the Python services see them after FastAPI or the
    extractors have built them: `None`, booleans, integers, strings, lists
    and dicts. A dict is an ordered list of members, because Python dicts
    keep insertion order and the renderer substitutes placeholders in that
    order. */
module Json {

  import opened Wrappers
  import Text

  datatype Value =
    | Null
    | Bool(b: bool)
    | Num(n: int)
    | Str(s: string)
    | Arr(items: seq<Value>)
    | Obj(members: seq<Member>)

  datatype Member = Member(key: string, value: Value)

  /** Python truthiness: `None`, `False`, `0`, `""`, `[]` and `{}` are false. */
  predicate Truthy(v: Value) {
    match v
    case Null => false
    case Bool(b) => b
    case Num(n) => n != 0
    case Str(s) => s != ""
    case Arr(xs) => xs != []
    case Obj(ms) => ms != []
  }

  function Keys(ms: seq<Member>): (ks: seq<string>)
    ensures |ks| == |ms|
    ensures forall i :: 0 <= i < |ms| ==> ks[i] == ms[i].key
  {
    if ms == [] then [] else [ms[0].key] + Keys(ms[1..])
  }

  /** A Python dict never holds a key twice. */
  predicate DistinctKeys(ms: seq<Member>) {
    forall i, j :: 0 <= i < j < |ms| ==> ms[i].key != ms[j].key
  }

  /** The value stored under `key`, if any. */
  function Lookup(ms: seq<Member>, key: string): (r: Option<Value>)
    ensures r.None? <==> key !in Keys(ms)
  {
    if ms == [] then None
    else if ms[0].key == key then Some(ms[0].value)
    else
      assert Keys(ms) == [ms[0].key] + Keys(ms[1..]);
      Lookup(ms[1..], key)
  }

  /** In a dict, looking a member's key up finds that member's value. */
  lemma {:induction false} LookupMember(ms: seq<Member>, i: int)
    requires DistinctKeys(ms) && 0 <= i < |ms|
    ensures Lookup(ms, ms[i].key) == Some(ms[i].value)
  {
    if i > 0 {
      assert ms[0].key != ms[i].key;
      assert ms[1..][i - 1] == ms[i];
      assert DistinctKeys(ms[1..]) by {
        forall a, b | 0 <= a < b < |ms[1..]| ensures ms[1..][a].key != ms[1..][b].key {
          assert ms[1..][a] == ms[a + 1] && ms[1..][b] == ms[b + 1];
        }
      }
      LookupMember(ms[1..], i - 1);
    }
  }

  /** `d.get(key)` on a dict, which is `None` for a missing key. */
  function GetOrNull(ms: seq<Member>, key: string): Value {
    Lookup(ms, key).GetOr(Null)
  }

  /** `v.get(key)`: only dicts have `get`; on anything else Python raises
      `AttributeError`. */
  function DictGet(v: Value, key: string): (r: Result<Value>)
    ensures r.Ok? <==> v.Obj?
    ensures r.Ok? ==> r.value == GetOrNull(v.members, key)
  {
    if v.Obj? then Ok(GetOrNull(v.members, key)) else Raised
  }

  /** `v[key]`: `KeyError` for a missing key, `TypeError` on a list, string
      or scalar. */
  function Index(v: Value, key: string): (r: Result<Value>)
    ensures r.Ok? <==> v.Obj? && key in Keys(v.members)
    ensures r.Ok? ==> Lookup(v.members, key) == Some(r.value)
  {
    if v.Obj? && Lookup(v.members, key).Some? then Ok(Lookup(v.members, key).value) else Raised
  }

  /** The idiom `v or {}`. */
  function OrEmptyObj(v: Value): (r: Value)
    ensures Truthy(v) ==> r == v
    ensures !Truthy(v) ==> r == Obj([])
  {
    if Truthy(v) then v else Obj([])
  }

  /** The idiom `v or ""`. */
  function OrEmptyStr(v: Value): (r: Value)
    ensures Truthy(v) ==> r == v
    ensures !Truthy(v) ==> r == Str("")
  {
    if Truthy(v) then v else Str("")
  }

  /** `(v or "").strip()`: a non-string truthy value has no `strip` and
      raises `AttributeError`. */
  function StripOrEmpty(v: Value): (r: Result<string>)
    ensures r.Raised? <==> Truthy(v) && !v.Str?
    ensures r.Ok? && v.Str? ==> r.value == Text.Strip(v.s)
    ensures r.Ok? && !v.Str? ==> r.value == ""
  {
    if !Truthy(v) then Ok("")
    else if v.Str? then Ok(Text.Strip(v.s))
    else Raised
  }

  /** `d[key] = v`: an existing key keeps its position and takes the new
      value; a new key is appended. */
  function Assign(ms: seq<Member>, key: string, v: Value): (r: seq<Member>)
    ensures Lookup(r, key) == Some(v)
    ensures forall k :: k != key ==> Lookup(r, k) == Lookup(ms, k)
    ensures key in Keys(ms) ==> Keys(r) == Keys(ms)
    ensures key !in Keys(ms) ==> Keys(r) == Keys(ms) + [key]
  {
    if ms == [] then [Member(key, v)]
    else if ms[0].key == key then
      AssignHead(ms, key, v);
      [Member(key, v)] + ms[1..]
    else
      var rest := Assign(ms[1..], key, v);
      AssignStep(ms, key, v, rest);
      [ms[0]] + rest
  }

  /** Assigning to the first key replaces its value in place. */
  lemma AssignHead(ms: seq<Member>, key: string, v: Value)
    requires ms != [] && ms[0].key == key
    ensures var r := [Member(key, v)] + ms[1..];
      && Lookup(r, key) == Some(v)
      && (forall k :: k != key ==> Lookup(r, k) == Lookup(ms, k))
      && Keys(r) == Keys(ms)
  {
    var r := [Member(key, v)] + ms[1..];
    assert r[1..] == ms[1..];
    ConsParts(ms);
    ConsParts(r);
  }

  /** Assigning past a different first key keeps that member in front. */
  lemma AssignStep(ms: seq<Member>, key: string, v: Value, rest: seq<Member>)
    requires ms != [] && ms[0].key != key
    requires Lookup(rest, key) == Some(v)
    requires forall k :: k != key ==> Lookup(rest, k) == Lookup(ms[1..], k)
    requires key in Keys(ms[1..]) ==> Keys(rest) == Keys(ms[1..])
    requires key !in Keys(ms[1..]) ==> Keys(rest) == Keys(ms[1..]) + [key]
    ensures var r := [ms[0]] + rest;
      && Lookup(r, key) == Some(v)
      && (forall k :: k != key ==> Lookup(r, k) == Lookup(ms, k))
      && (key in Keys(ms) ==> Keys(r) == Keys(ms))
      && (key !in Keys(ms) ==> Keys(r) == Keys(ms) + [key])
  {
    var r := [ms[0]] + rest;
    assert r[1..] == rest;
    ConsParts(ms);
    ConsParts(r);
    StepKeys(ms[0].key, Keys(ms[1..]), Keys(rest), key);
  }

  /** The key lists of a step: the same first key in front of the rest's. */
  lemma StepKeys(k0: string, before: seq<string>, after: seq<string>, key: string)
    requires key != k0
    requires key in before ==> after == before
    requires key !in before ==> after == before + [key]
    ensures key in [k0] + before ==> [k0] + after == [k0] + before
    ensures key !in [k0] + before ==> [k0] + after == ([k0] + before) + [key]
  {
  }

  /** Keys and lookups of a non-empty dict, in terms of its first member
      and the rest. */
  lemma ConsParts(ms: seq<Member>)
    requires ms != []
    ensures Keys(ms) == [ms[0].key] + Keys(ms[1..])
    ensures forall k :: Lookup(ms, k) == if ms[0].key == k then Some(ms[0].value) else Lookup(ms[1..], k)
  {
  }

  /** A Python `Optional[str]` stored in a dict: `None` or the string. */
  function OptStr(o: Option<string>): (r: Value)
    ensures o.None? <==> r == Null
    ensures o.Some? ==> r == Str(o.value)
  {
    if o.Some? then Str(o.value) else Null
  }

  /** The value reached by following dict keys `path` from `v`, if every key
      is present on the way. */
  function At(v: Value, path: seq<string>): Option<Value>
    decreases |path|
  {
    if path == [] then Some(v)
    else if v.Obj? then
      var child :- Lookup(v.members, path[0]);
      At(child, path[1..])
    else None
  }

  /** One step into a dict is a lookup. */
  lemma AtKey(v: Value, k: string)
    requires v.Obj?
    ensures At(v, [k]) == Lookup(v.members, k)
  {
    assert [k][1..] == [];
  }

  /** Following `p + q` is following `p`, then `q` from where it led. */
  lemma {:induction false} AtAppend(v: Value, p: seq<string>, q: seq<string>)
    ensures At(v, p + q) == (match At(v, p) case None => None case Some(w) => At(w, q))
    decreases |p|
  {
    if p == [] {
      assert p + q == q;
    } else if v.Obj? && Lookup(v.members, p[0]).Some? {
      assert (p + q)[0] == p[0] && (p + q)[1..] == p[1..] + q;
      AtAppend(Lookup(v.members, p[0]).value, p[1..], q);
    }
  }

  /** The chain `(d.get(k1) or {}).get(k2) ...` over dicts: when the value
      reached by `path` is missing or a dict, `(value or {}).get(k)` is what
      `path + [k]` reaches, or `None`. */
  lemma GetAfter(v: Value, path: seq<string>, k: string)
    requires At(v, path).None? || At(v, path).value.Obj?
    ensures OrEmptyObj(At(v, path).GetOr(Null)).Obj?
    ensures GetOrNull(OrEmptyObj(At(v, path).GetOr(Null)).members, k) == At(v, path + [k]).GetOr(Null)
  {
    AtAppend(v, path, [k]);
  }

  /** Every dict at every depth has distinct keys, as Python dicts do. */
  predicate DeepDistinct(v: Value) {
    match v
    case Obj(ms) => DistinctKeys(ms) && forall i :: 0 <= i < |ms| ==> DeepDistinct(ms[i].value)
    case Arr(xs) => forall i :: 0 <= i < |xs| ==> DeepDistinct(xs[i])
    case _ => true
  }

  /** `d.setdefault(key, v)`: only a missing key is added. */
  function SetDefault(ms: seq<Member>, key: string, v: Value): (r: seq<Member>)
    ensures key in Keys(ms) ==> r == ms
    ensures key !in Keys(ms) ==> Lookup(r, key) == Some(v) && Keys(r) == Keys(ms) + [key]
    ensures forall k :: k != key ==> Lookup(r, k) == Lookup(ms, k)
  {
    if key in Keys(ms) then ms else Assign(ms, key, v)
  }
}
