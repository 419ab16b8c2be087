/**
 * JSON values as the decoders see them (the result of `resp.json()`), Python's dict
 * subscript, membership test and iteration on them, and the element-by-element decoding
 * of a list that every `for e in data[...]: xs.append(obj(e))` loop of the core performs.
 * Python values passed to the API (arguments, `None`) are modelled by the same type:
 * `None` is `JNull`.
 */
module Json {
  import opened Wrappers
  import opened DoorayExceptions

  datatype Json =
    | JNull
    | JBool(b: bool)
    | JInt(n: int)
    | JStr(s: string)
    | JArr(items: seq<Json>)
    | JObj(fields: map<string, Json>)

  /** `data[key]`: a missing key raises `KeyError`, a subscript on a non-dict `TypeError`. */
  function Get(data: Json, key: string): (r: Result<Json, Error>)
    ensures r.Ok? <==> data.JObj? && key in data.fields
    ensures r.Ok? ==> r.value == data.fields[key]
    ensures r.Err? ==> r.error == (if data.JObj? then KeyError(key) else TypeError)
  {
    match data
    case JObj(m) => if key in m then Ok(m[key]) else Err(KeyError(key))
    case _ => Err(TypeError)
  }

  /** `fields[key] if key in fields else None` */
  function GetOptional(fields: map<string, Json>, key: string): (r: Option<Json>)
    ensures r.Some? <==> key in fields
    ensures r.Some? ==> r.value == fields[key]
  {
    if key in fields then Some(fields[key]) else None
  }

  /**
   * The elements `for e in v` visits: the items of a list, the one-character strings of
   * a string. Any other value raises `TypeError` here (see README on dicts).
   */
  function Iterate(v: Json): (r: Result<seq<Json>, Error>)
    ensures v.JArr? ==> r == Ok(v.items)
    ensures v.JStr? ==> r.Ok? && |r.value| == |v.s| && forall i :: 0 <= i < |v.s| ==> r.value[i] == JStr([v.s[i]])
    ensures !v.JArr? && !v.JStr? ==> r == Err(TypeError)
  {
    match v
    case JArr(items) => Ok(items)
    case JStr(s) => Ok(seq(|s|, i requires 0 <= i < |s| => JStr([s[i]])))
    case _ => Err(TypeError)
  }

  /** `data` is a dict holding every one of `keys`. */
  predicate HasKeys(data: Json, keys: seq<string>)
  {
    data.JObj? && forall k :: k in keys ==> k in data.fields
  }

  /** The exception raised first by the subscripts `data[keys[0]]`, `data[keys[1]]`, ... in turn. */
  function FirstMissing(data: Json, keys: seq<string>): (e: Error)
    requires !HasKeys(data, keys)
    ensures e == TypeError <==> !data.JObj?
    ensures e.KeyError? <==> data.JObj?
    ensures e.KeyError? ==> e.key in keys && e.key !in data.fields
    decreases |keys|
  {
    if !data.JObj? then TypeError
    else if keys[0] !in data.fields then KeyError(keys[0])
    else
      assert keys == [keys[0]] + keys[1..];
      FirstMissing(data, keys[1..])
  }

  /** `dec(data[key])`: the read raises first, then the nested decoding. */
  function DecodeField<T>(data: Json, key: string, dec: Json -> Result<T, Error>): (r: Result<T, Error>)
    ensures r.Ok? <==> data.JObj? && key in data.fields && dec(data.fields[key]).Ok?
    ensures data.JObj? && key in data.fields ==> r == dec(data.fields[key])
    ensures !(data.JObj? && key in data.fields) ==> r == Err(if data.JObj? then KeyError(key) else TypeError)
  {
    var v :- Get(data, key);
    dec(v)
  }

  /** The exceptions a decoder raises on malformed input: a missing key, or indexing a non-object. */
  predicate IsLookupError(e: Error)
  {
    e.KeyError? || e == TypeError
  }

  /** Reads `data[k]` for every `k` of `keys` in order, raising as the first failing read does. */
  function GetAll(data: Json, keys: seq<string>): (r: Result<seq<Json>, Error>)
    ensures |keys| > 0 ==> (r.Ok? <==> HasKeys(data, keys))
    ensures r.Ok? ==> |r.value| == |keys| && forall i :: 0 <= i < |keys| ==> r.value[i] == data.fields[keys[i]]
    ensures r.Err? ==> !HasKeys(data, keys) && r.error == FirstMissing(data, keys)
    decreases |keys|
  {
    if keys == [] then Ok([])
    else
      var v :- Get(data, keys[0]);
      var rest :- GetAll(data, keys[1..]);
      Ok([v] + rest)
  }

  /**
   * `[obj(e) for e in xs]`: every element decoded in order; the first element whose
   * decoding raises makes the whole decoding raise that exception.
   */
  function DecodeEach<T>(xs: seq<Json>, dec: Json -> Result<T, Error>): (r: Result<seq<T>, Error>)
    ensures r.Ok? <==> forall i :: 0 <= i < |xs| ==> dec(xs[i]).Ok?
    ensures r.Ok? ==> |r.value| == |xs| && forall i :: 0 <= i < |xs| ==> dec(xs[i]) == Ok(r.value[i])
    ensures r.Err? ==> exists k :: 0 <= k < |xs| && dec(xs[k]) == Err(r.error) && forall i :: 0 <= i < k ==> dec(xs[i]).Ok?
    decreases |xs|
  {
    if xs == [] then Ok([])
    else
      var init :- DecodeEach(xs[..|xs| - 1], dec);
      var last :- dec(xs[|xs| - 1]);
      Ok(init + [last])
  }

  /** Once a prefix of the list fails to decode, the whole list fails with the same exception. */
  lemma {:induction false} DecodeEachPrefixFailure<T>(xs: seq<Json>, j: nat, dec: Json -> Result<T, Error>)
    requires j <= |xs|
    requires DecodeEach(xs[..j], dec).Err?
    ensures DecodeEach(xs, dec) == DecodeEach(xs[..j], dec)
    decreases |xs| - j
  {
    if j < |xs| {
      DecodeEachPrefixFailure(xs, j + 1, dec);
      assert xs[..j + 1][..j] == xs[..j];
    } else {
      assert xs[..j] == xs;
    }
  }

  /**
   * The loop `for e in xs: result.append(obj(e))`: appends each decoded element to an
   * initially empty list; an element that raises ends the loop with that exception.
   */
  method AppendDecoded<T>(xs: seq<Json>, dec: Json -> Result<T, Error>) returns (r: Result<seq<T>, Error>)
    ensures r == DecodeEach(xs, dec)
  {
    var result: seq<T> := [];
    var i := 0;
    while i < |xs|
      invariant 0 <= i <= |xs|
      invariant DecodeEach(xs[..i], dec) == Ok(result)
    {
      var e := dec(xs[i]);
      assert xs[..i + 1][..i] == xs[..i];
      if e.Err? {
        DecodeEachPrefixFailure(xs, i + 1, dec);
        return Err(e.error);
      }
      result := result + [e.value];
      i := i + 1;
    }
    assert xs[..i] == xs;
    return Ok(result);
  }

  /** Renders each value with `enc`, in order: the inverse direction of `DecodeEach`. */
  function EncodeEach<T>(vs: seq<T>, enc: T -> Json): seq<Json>
  {
    seq(|vs|, i requires 0 <= i < |vs| => enc(vs[i]))
  }

  /** Decoding a rendered list yields the original values when every element round-trips. */
  lemma DecodeEachOfEncoded<T>(vs: seq<T>, enc: T -> Json, dec: Json -> Result<T, Error>)
    requires forall i :: 0 <= i < |vs| ==> dec(enc(vs[i])) == Ok(vs[i])
    ensures DecodeEach(EncodeEach(vs, enc), dec) == Ok(vs)
  {
    var xs := EncodeEach(vs, enc);
    assert forall i :: 0 <= i < |xs| ==> xs[i] == enc(vs[i]);
    var r := DecodeEach(xs, dec);
    assert r.Ok?;
    assert r.value == vs;
  }
}
