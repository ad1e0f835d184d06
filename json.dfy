/** A stand-in for the parsed JSON tree the monitor navigates (fastjson's
    JSONObject / JSONArray) and for the getters it calls on it.

    A Java `null` where a JSON object reference is expected is `Null`.
    Objects keep their members in document order, as fastjson's ordered map
    does; a parsed object never holds one key twice, and `Lookup` takes the
    first member with the key. */
module Json {

  datatype Json =
    | Null
    | Str(s: string)
    | Arr(items: seq<Json>)
    | Obj(members: seq<(string, Json)>)

  /** The outcome of a Java expression that may throw: a value, or an
      exception (a NullPointerException, a failed cast, a JSONException).
      Which exception it was only changes what is logged, so it is not kept. */
  datatype Result<+T> = Ok(value: T) | Thrown {
    predicate IsFailure() { Thrown? }

    function PropagateFailure<U>(): Result<U>
      requires Thrown?
    {
      Thrown
    }

    function Extract(): T
      requires Ok?
    {
      value
    }
  }

  datatype Option<+T> = None | Some(value: T)

  /** The value stored under `key`, or `Null` when the key is absent:
      fastjson answers `null` in both cases. */
  function Lookup(members: seq<(string, Json)>, key: string): Json
  {
    if members == [] then Null
    else if members[0].0 == key then members[0].1
    else Lookup(members[1..], key)
  }

  /** A value found under `key` is the value of the first member with that
      key; a key no member has gives `Null`. */
  lemma {:induction false} LookupFirst(members: seq<(string, Json)>, key: string)
    ensures Lookup(members, key) != Null ==>
      exists i :: 0 <= i < |members| && members[i] == (key, Lookup(members, key))
        && forall k :: 0 <= k < i ==> members[k].0 != key
    ensures (forall i :: 0 <= i < |members| ==> members[i].0 != key) ==> Lookup(members, key) == Null
  {
    if members != [] && members[0].0 != key {
      LookupFirst(members[1..], key);
      var v := Lookup(members, key);
      if v != Null {
        var i :| 0 <= i < |members[1..]| && members[1..][i] == (key, v)
          && forall k :: 0 <= k < i ==> members[1..][k].0 != key;
        assert members[i + 1] == (key, v);
        assert forall k :: 0 <= k < i + 1 ==> members[k].0 != key by {
          forall k | 0 <= k < i + 1 ensures members[k].0 != key {
            if k > 0 { assert members[k] == members[1..][k - 1]; }
          }
        }
      }
      assert forall i :: 0 < i < |members| ==> members[i] == members[1..][i - 1];
    } else if members != [] {
      assert members[0] == (key, members[0].1);
    }
  }

  /** A key some member holds is answered with the value of the first
      member holding it. */
  lemma {:induction false} LookupFound(members: seq<(string, Json)>, key: string, i: int)
    requires 0 <= i < |members| && members[i].0 == key
    requires forall k :: 0 <= k < i ==> members[k].0 != key
    ensures Lookup(members, key) == members[i].1
  {
    if i > 0 {
      assert members[0].0 != key;
      assert forall k :: 0 <= k < i - 1 ==> members[1..][k] == members[k + 1];
      assert members[1..][i - 1] == members[i];
      LookupFound(members[1..], key, i - 1);
    }
  }

  /** `o.getJSONObject(key)`: throws when `o` is null; a missing or null
      member gives null; an object member is returned; any other member
      cannot be turned into an object and throws. */
  function GetObject(o: Json, key: string): (r: Result<Json>)
  {
    if !o.Obj? then Thrown
    else
      var v := Lookup(o.members, key);
      if v.Null? || v.Obj? then Ok(v) else Thrown
  }

  /** `o.getJSONArray(key)`: null for a missing or null member, the items of
      an array member, and an exception otherwise (and when `o` is null). */
  function GetArray(o: Json, key: string): (r: Result<Option<seq<Json>>>)
  {
    if !o.Obj? then Thrown
    else
      match Lookup(o.members, key)
      case Null => Ok(None)
      case Arr(items) => Ok(Some(items))
      case _ => Thrown
  }

  /** How fastjson turns a member into a Java String: null stays null, a
      string member is its text, any other member its JSON rendering. */
  function AsString(v: Json): (r: Option<string>)
  {
    match v
    case Null => None
    case Str(s) => Some(s)
    case _ => Some(Render(v))
  }

  /** `o.getString(key)`: throws only when `o` is null. */
  function GetString(o: Json, key: string): (r: Result<Option<string>>)
  {
    if !o.Obj? then Thrown else Ok(AsString(Lookup(o.members, key)))
  }

  /** `getJSONObject` throws exactly when the receiver is null or the member
      is neither missing, null nor an object; otherwise it answers the
      member. */
  lemma GetObjectMeaning(o: Json, key: string)
    ensures GetObject(o, key).Ok? <==> o.Obj? && (Lookup(o.members, key).Null? || Lookup(o.members, key).Obj?)
    ensures GetObject(o, key).Ok? ==> GetObject(o, key).value == Lookup(o.members, key)
  {
  }

  /** `getJSONArray` answers null for a missing or null member and the items
      of an array member; nothing else is answered. */
  lemma GetArrayMeaning(o: Json, key: string)
    ensures GetArray(o, key) == Ok(None) <==> o.Obj? && Lookup(o.members, key) == Null
    ensures forall items :: GetArray(o, key) == Ok(Some(items)) <==> o.Obj? && Lookup(o.members, key) == Arr(items)
  {
  }

  /** Only null becomes a null String; a string member is its own text, and
      a container's text opens with its bracket. */
  lemma AsStringMeaning(v: Json)
    ensures AsString(v) == None <==> v == Null
    ensures v.Str? ==> AsString(v) == Some(v.s)
    ensures (v.Arr? || v.Obj?) ==>
      AsString(v).Some? && |AsString(v).value| >= 2 && (AsString(v).value[0] == '[' || AsString(v).value[0] == '{')
  {
  }

  /** `getString` throws only on a null receiver and otherwise converts the
      member. */
  lemma GetStringMeaning(o: Json, key: string)
    ensures GetString(o, key).Ok? <==> o.Obj?
    ensures GetString(o, key).Ok? ==> GetString(o, key).value == AsString(Lookup(o.members, key))
  {
  }

  /** What `getJSONObject` answers for a key whose first holder in the
      object is member `i`: that member when it is null or an object, and
      an exception for any other member. */
  lemma GetObjectOfMember(o: Json, key: string, i: int)
    requires o.Obj? && 0 <= i < |o.members| && o.members[i].0 == key
    requires forall k :: 0 <= k < i ==> o.members[k].0 != key
    ensures GetObject(o, key).Ok? <==> o.members[i].1.Null? || o.members[i].1.Obj?
    ensures GetObject(o, key).Ok? ==> GetObject(o, key).value == o.members[i].1
  {
    LookupFound(o.members, key, i);
  }

  /** What `getJSONArray` answers for a key whose first holder is member
      `i`: null exactly for a null member, the items exactly for an array
      member, and an exception for anything else. */
  lemma GetArrayOfMember(o: Json, key: string, i: int)
    requires o.Obj? && 0 <= i < |o.members| && o.members[i].0 == key
    requires forall k :: 0 <= k < i ==> o.members[k].0 != key
    ensures GetArray(o, key) == Ok(None) <==> o.members[i].1 == Null
    ensures forall items :: GetArray(o, key) == Ok(Some(items)) <==> o.members[i].1 == Arr(items)
    ensures GetArray(o, key).Thrown? <==> o.members[i].1.Str? || o.members[i].1.Obj?
  {
    LookupFound(o.members, key, i);
  }

  /** What `getString` answers for a key whose first holder is member `i`:
      null exactly for a null member, the text of a string member, and the
      JSON text of a container, which opens with its bracket. */
  lemma GetStringOfMember(o: Json, key: string, i: int)
    requires o.Obj? && 0 <= i < |o.members| && o.members[i].0 == key
    requires forall k :: 0 <= k < i ==> o.members[k].0 != key
    ensures GetString(o, key) == Ok(None) <==> o.members[i].1 == Null
    ensures o.members[i].1.Str? ==> GetString(o, key) == Ok(Some(o.members[i].1.s))
    ensures o.members[i].1.Arr? || o.members[i].1.Obj? ==>
      GetString(o, key).Ok? && GetString(o, key).value.Some?
      && |GetString(o, key).value.value| >= 2
      && GetString(o, key).value.value[0] in {'[', '{'}
  {
    LookupFound(o.members, key, i);
    AsStringMeaning(o.members[i].1);
  }

  /** A key no member of an object holds reads as null through every
      getter, and none of them throws. */
  lemma GettersOfMissingKey(o: Json, key: string)
    requires o.Obj? && forall i :: 0 <= i < |o.members| ==> o.members[i].0 != key
    ensures GetObject(o, key) == Ok(Null)
    ensures GetArray(o, key) == Ok(None)
    ensures GetString(o, key) == Ok(None)
  {
    LookupFirst(o.members, key);
  }

  /** JSON text of a value, as `getString` answers for a non-string member.
      When a name, title, quote or address field holds a container, this
      whole text is what the monitor logs, pushes and matches against the
      whitelist; a container always renders with its bracket. */
  function Render(v: Json): (text: string)
    ensures v.Arr? ==> |text| >= 2 && text[0] == '['
    ensures v.Obj? ==> |text| >= 2 && text[0] == '{'
    decreases v, 1
  {
    match v
    case Null => "null"
    case Str(s) => "\"" + s + "\""
    case Arr(items) => "[" + RenderItems(v, items) + "]"
    case Obj(members) => "{" + RenderMembers(v, members) + "}"
  }

  function RenderItems(ghost parent: Json, items: seq<Json>): string
    requires forall i :: 0 <= i < |items| ==> items[i] < parent
    decreases parent, 0, |items|
  {
    if items == [] then ""
    else
      var init := if |items| == 1 then "" else RenderItems(parent, items[..|items| - 1]) + ",";
      init + Render(items[|items| - 1])
  }

  function RenderMembers(ghost parent: Json, members: seq<(string, Json)>): string
    requires forall i :: 0 <= i < |members| ==> members[i].1 < parent
    decreases parent, 0, |members|
  {
    if members == [] then ""
    else
      var last := members[|members| - 1];
      var init := if |members| == 1 then "" else RenderMembers(parent, members[..|members| - 1]) + ",";
      init + "\"" + last.0 + "\":" + Render(last.1)
  }
}
