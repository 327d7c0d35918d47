/** The JSON values that `JSONEncoder`/`JSONDecoder` exchange with `Codable` types. */
module Json {
  import opened Wrappers

  datatype Json =
    | JNull
    | JBool(b: bool)
    | JString(s: string)
    | JArray(items: seq<Json>)
    | JObject(fields: seq<(string, Json)>)

  /** The value stored under `key` in an object's field list (the first one, if repeated). */
  function Get(fields: seq<(string, Json)>, key: string): (r: Option<Json>)
    ensures r.Some? <==> exists i :: 0 <= i < |fields| && fields[i].0 == key
    ensures r.Some? ==> exists i :: 0 <= i < |fields| && fields[i] == (key, r.value)
  {
    if |fields| == 0 then None
    else if fields[0].0 == key then Some(fields[0].1)
    else
      var r := Get(fields[1..], key);
      assert r.Some? ==> exists i :: 0 <= i < |fields[1..]| && fields[1..][i] == (key, r.value);
      r
  }

  /** A key that no earlier field uses is found at its own position. */
  lemma {:induction false} GetFirst(fields: seq<(string, Json)>, i: nat)
    requires i < |fields|
    requires forall j :: 0 <= j < i ==> fields[j].0 != fields[i].0
    ensures Get(fields, fields[i].0) == Some(fields[i].1)
  {
    if i > 0 {
      GetFirst(fields[1..], i - 1);
    }
  }

  /** The string stored under `key`, if it is a string. */
  function GetString(fields: seq<(string, Json)>, key: string): Option<string>
  {
    match Get(fields, key)
    case Some(JString(s)) => Some(s)
    case _ => None
  }

  /** The boolean stored under `key`, if it is a boolean. */
  function GetBool(fields: seq<(string, Json)>, key: string): Option<bool>
  {
    match Get(fields, key)
    case Some(JBool(b)) => Some(b)
    case _ => None
  }

  /** Encodes `[String]` as a JSON array of strings. */
  function EncodeStrings(xs: seq<string>): (r: Json)
    ensures r.JArray? && |r.items| == |xs|
    ensures forall i :: 0 <= i < |xs| ==> r.items[i] == JString(xs[i])
  {
    JArray(seq(|xs|, i requires 0 <= i < |xs| => JString(xs[i])))
  }

  /** Decodes a JSON array whose every element is a string; anything else fails. */
  function DecodeStrings(items: seq<Json>): (r: Option<seq<string>>)
    ensures r.Some? ==> |r.value| == |items|
    ensures r.Some? <==> forall i :: 0 <= i < |items| ==> items[i].JString?
    ensures r.Some? ==> forall i :: 0 <= i < |items| ==> r.value[i] == items[i].s
  {
    if |items| == 0 then Some([])
    else if !items[0].JString? then None
    else
      match DecodeStrings(items[1..])
      case None =>
        assert !items[1..][0].JString? || exists i :: 0 <= i < |items[1..]| && !items[1..][i].JString?;
        None
      case Some(rest) => Some([items[0].s] + rest)
  }

  /** Decoding what `EncodeStrings` produced gives back the list. */
  lemma {:induction false} DecodeEncodeStrings(xs: seq<string>)
    ensures DecodeStrings(EncodeStrings(xs).items) == Some(xs)
  {
    if |xs| > 0 {
      DecodeEncodeStrings(xs[1..]);
      assert EncodeStrings(xs).items[1..] == EncodeStrings(xs[1..]).items;
      assert [xs[0]] + xs[1..] == xs;
    }
  }
}
