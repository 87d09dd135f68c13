/** Decoded JSON documents and the `json.dumps` / `json.loads` pair, which
    the model does not re-implement: a `Codec` is any pair of functions, and
    `Sound` states the two facts about Python's `json` module the monitor
    depends on. */
module JsonValues {
  import opened Common
  import opened Strings

  /** A decoded JSON or property-list value, floats left out. */
  datatype Json =
    | JNull
    | JBool(b: bool)
    | JInt(i: int)
    | JString(s: string)
    | JArray(items: seq<Json>)
    | JObject(members: seq<(string, Json)>)

  /** Python truthiness of a decoded value (`if response:`). */
  predicate Truthy(j: Json) {
    match j
    case JNull => false
    case JBool(b) => b
    case JInt(i) => i != 0
    case JString(s) => s != []
    case JArray(xs) => xs != []
    case JObject(ms) => ms != []
  }

  /** The name of the Python type a decoded value has. */
  function TypeName(j: Json): string {
    match j
    case JNull => "NoneType"
    case JBool(_) => "bool"
    case JInt(_) => "int"
    case JString(_) => "str"
    case JArray(_) => "list"
    case JObject(_) => "dict"
  }

  /** The message of the `TypeError` raised where a path is expected and
      `j` is given. */
  function PathTypeError(j: Json): string {
    "expected str, bytes or os.PathLike object, not " + TypeName(j)
  }

  /** The value of the last member called `key`, as a decoded Python dict
      keeps the last of duplicate keys. */
  function Lookup(ms: seq<(string, Json)>, key: string): (r: Option<Json>)
    ensures r.Some? <==> exists k :: 0 <= k < |ms| && ms[k].0 == key
    ensures r.Some? ==> exists k :: 0 <= k < |ms| && ms[k] == (key, r.value)
  {
    if ms == [] then None
    else if ms[|ms| - 1].0 == key then Some(ms[|ms| - 1].1)
    else
      var r := Lookup(ms[..|ms| - 1], key);
      assert r.Some? ==> exists k :: 0 <= k < |ms| - 1 && ms[k] == (key, r.value) && ms[..|ms| - 1][k] == ms[k];
      r
  }

  /** Whether an object has a member called `key`. */
  predicate HasKey(j: Json, key: string) {
    j.JObject? && Lookup(j.members, key).Some?
  }

  /** `d.get(key, default)` on the members of a dict. */
  function Member(ms: seq<(string, Json)>, key: string, default: Json): Json {
    Lookup(ms, key).GetOr(default)
  }

  /** The member at `k` is the one a lookup of its key finds when no later
      member has that key. */
  lemma {:induction false} LookupAt(ms: seq<(string, Json)>, k: nat)
    requires k < |ms|
    requires forall j :: k < j < |ms| ==> ms[j].0 != ms[k].0
    ensures Lookup(ms, ms[k].0) == Some(ms[k].1)
    decreases |ms|
  {
    if k < |ms| - 1 {
      var init := ms[..|ms| - 1];
      assert init[k] == ms[k];
      LookupAt(init, k);
    }
  }

  /** The exception `.get` raises on a value that is not a dict, where only
      that it raised matters. */
  const AttributeGet := "AttributeError: object has no attribute 'get'"

  /** `str(e)` of the `AttributeError` raised on looking up `name` on `j`. */
  function NoAttribute(j: Json, name: string): string {
    "'" + TypeName(j) + "' object has no attribute '" + name + "'"
  }

  /** `str(e)` of the `TypeError` raised on iterating over `j`. */
  function NotIterable(j: Json): string {
    "'" + TypeName(j) + "' object is not iterable"
  }

  /** `j.get(key, default)`, which only a dict has. */
  function GetOr(j: Json, key: string, default: Json): (r: Result<Json>)
    ensures r.Err? <==> !j.JObject?
    ensures HasKey(j, key) ==> r == Ok(Lookup(j.members, key).value)
    ensures j.JObject? && !HasKey(j, key) ==> r == Ok(default)
    ensures !j.JObject? ==> r == Err(NoAttribute(j, "get"))
  {
    if j.JObject? then Ok(Lookup(j.members, key).GetOr(default)) else Err(NoAttribute(j, "get"))
  }

  /** `j[key]` for a string key: a dict's member, a `KeyError` when there is
      none, a `TypeError` for a list, a string or a scalar. */
  function Index(j: Json, key: string): (r: Result<Json>)
    ensures r.Ok? <==> HasKey(j, key)
  {
    if j.JObject? then
      match Lookup(j.members, key)
      case Some(v) => Ok(v)
      case None => Err("KeyError: " + key)
    else Err("TypeError: indices must be integers")
  }

  /** `key in j`: membership among a dict's keys or a list's elements,
      substring of a string, a `TypeError` otherwise. */
  function In(key: string, j: Json): (r: Result<bool>)
    ensures j.JObject? ==> r == Ok(HasKey(j, key))
  {
    match j
    case JObject(_) => Ok(HasKey(j, key))
    case JArray(xs) => Ok(JString(key) in xs)
    case JString(s) => Ok(Contains(s, key))
    case _ => Err("TypeError: argument of type is not iterable")
  }

  /** The one-character strings of `s`, as iterating over it yields them. */
  function Chars(s: string): (r: seq<Json>)
    ensures |r| == |s|
  {
    seq(|s|, i requires 0 <= i < |s| => JString([s[i]]))
  }

  /** The keys of an object, as iterating over a dict yields them: the
      dict that `json.load` or `plistlib` builds inserts the members in
      turn, so a repeated key keeps the place of its first member and is
      listed once. */
  function Keys(ms: seq<(string, Json)>): (r: seq<Json>)
    ensures |r| <= |ms|
    ensures forall i :: 0 <= i < |r| ==> r[i].JString?
    ensures forall i, j :: 0 <= i < j < |r| ==> r[i] != r[j]
  {
    if ms == [] then []
    else
      var init := ms[..|ms| - 1];
      var r := Keys(init);
      if JString(ms[|ms| - 1].0) in r then r else r + [JString(ms[|ms| - 1].0)]
  }

  /** Every member's key is listed. */
  lemma {:induction false} KeysListed(ms: seq<(string, Json)>, k: nat)
    requires k < |ms|
    ensures JString(ms[k].0) in Keys(ms)
  {
    var n := |ms| - 1;
    if k < n {
      KeysListed(ms[..n], k);
      assert ms[..n][k] == ms[k];
    }
  }

  /** Every key listed is some member's key. */
  lemma {:induction false} KeysOfMembers(ms: seq<(string, Json)>, i: nat)
    requires i < |Keys(ms)|
    ensures exists k :: 0 <= k < |ms| && ms[k].0 == Keys(ms)[i].s
  {
    var n := |ms| - 1;
    if i < |Keys(ms[..n])| {
      KeysOfMembers(ms[..n], i);
      var k :| 0 <= k < n && ms[..n][k].0 == Keys(ms[..n])[i].s;
      assert ms[k] == ms[..n][k];
    } else {
      assert Keys(ms)[i] == JString(ms[n].0);
    }
  }

  /** A member whose key came before adds nothing to the keys, and one
      with a new key is listed after the others. */
  lemma KeysAppend(ms: seq<(string, Json)>, key: string, v: Json)
    ensures (exists k :: 0 <= k < |ms| && ms[k].0 == key) ==> Keys(ms + [(key, v)]) == Keys(ms)
    ensures (forall k :: 0 <= k < |ms| ==> ms[k].0 != key) ==> Keys(ms + [(key, v)]) == Keys(ms) + [JString(key)]
  {
    assert (ms + [(key, v)])[..|ms|] == ms;
    if k :| 0 <= k < |ms| && ms[k].0 == key {
      KeysListed(ms, k);
    }
    if forall k :: 0 <= k < |ms| ==> ms[k].0 != key {
      forall i | 0 <= i < |Keys(ms)| ensures Keys(ms)[i] != JString(key) {
        KeysOfMembers(ms, i);
      }
    }
  }

  /** A dict whose keys do not repeat yields them in member order. */
  lemma {:induction false} KeysDistinct(ms: seq<(string, Json)>)
    requires forall i, j :: 0 <= i < j < |ms| ==> ms[i].0 != ms[j].0
    ensures |Keys(ms)| == |ms|
    ensures forall i :: 0 <= i < |ms| ==> Keys(ms)[i] == JString(ms[i].0)
  {
    if ms != [] {
      var n := |ms| - 1;
      var init := ms[..n];
      assert forall i :: 0 <= i < n ==> init[i] == ms[i];
      KeysDistinct(init);
      forall i | 0 <= i < |Keys(init)| ensures Keys(init)[i] != JString(ms[n].0) {
        KeysOfMembers(init, i);
      }
    }
  }

  /** Members that all share one key make a dict with that key alone. */
  lemma {:induction false} KeysOneName(ms: seq<(string, Json)>, key: string)
    requires ms != [] && forall k :: 0 <= k < |ms| ==> ms[k].0 == key
    ensures Keys(ms) == [JString(key)]
  {
    var n := |ms| - 1;
    if n > 0 {
      assert forall k :: 0 <= k < n ==> ms[..n][k] == ms[k];
      KeysOneName(ms[..n], key);
    }
  }

  /** `j[:n]` followed by iteration: the first `n` elements of a list or
      characters of a string; other values cannot be sliced. */
  function Slice(j: Json, n: nat): (r: Result<seq<Json>>)
    ensures r.Ok? <==> j.JArray? || j.JString?
    ensures r.Ok? ==> |r.value| <= n
    ensures j.JArray? ==> r == Ok(j.items[..Min(n, |j.items|)])
  {
    match j
    case JArray(xs) => Ok(xs[..Min(n, |xs|)])
    case JString(s) => Ok(Chars(s[..Min(n, |s|)]))
    case _ => Err("TypeError: unhashable type: 'slice'")
  }

  /** `for x in j`: a list's elements, a string's characters, a dict's keys. */
  function Iterate(j: Json): (r: Result<seq<Json>>)
    ensures j.JArray? ==> r == Ok(j.items)
    ensures j.JObject? ==> r == Ok(Keys(j.members))
    ensures r.Err? <==> !(j.JArray? || j.JString? || j.JObject?)
    ensures r.Err? ==> r.error == NotIterable(j)
  {
    match j
    case JArray(xs) => Ok(xs)
    case JString(s) => Ok(Chars(s))
    case JObject(ms) => Ok(Keys(ms))
    case _ => Err(NotIterable(j))
  }

  /** `a or b or ... or default`: the first truthy value. */
  function FirstTruthy(vs: seq<Json>, default: Json): (r: Json)
    ensures r == default || (exists i :: 0 <= i < |vs| && r == vs[i] && Truthy(r))
    ensures (exists i :: 0 <= i < |vs| && Truthy(vs[i])) ==> Truthy(r)
    ensures forall i :: 0 <= i < |vs| && Truthy(vs[i]) && (forall k :: 0 <= k < i ==> !Truthy(vs[k])) ==> r == vs[i]
    ensures (forall i :: 0 <= i < |vs| ==> !Truthy(vs[i])) ==> r == default
  {
    if vs == [] then default
    else if Truthy(vs[0]) then vs[0]
    else
      var r := FirstTruthy(vs[1..], default);
      assert r != default ==> exists i :: 0 <= i < |vs[1..]| && r == vs[1..][i] && vs[1..][i] == vs[i + 1];
      assert forall i :: 1 <= i < |vs| ==> vs[i] == vs[1..][i - 1];
      r
  }

  /** `json.dumps` and `json.loads`; `loads` returns `None` where Python
      raises `JSONDecodeError`. */
  datatype Codec = Codec(dumps: Json -> string, loads: string -> Option<Json>)

  /** `json.loads(json.dumps(j)) == j`, and `json.dumps` never yields the
      empty string. */
  ghost predicate Sound(c: Codec) {
    forall j :: c.loads(c.dumps(j)) == Some(j) && c.dumps(j) != []
  }
}
