/**
 * The JSON values a `JSONDecoder` reads, and the keyed-container operations the
 * record decoders are built from: `decode(_:forKey:)` for a required property
 * and `decodeIfPresent(_:forKey:)` for an optional one. Unknown keys are ignored,
 * as the synthesized and hand-written `init(from:)` initialisers do.
 */
module Json {
  import opened Wrappers

  /** A parsed JSON document. Numbers are integral: no record of the model reads a fraction. */
  datatype Json =
    | JNull
    | JBool(b: bool)
    | JNumber(n: int)
    | JString(s: string)
    | JArray(items: seq<Json>)
    | JObject(fields: map<string, Json>)

  /** The `DecodingError` cases the decoders raise; coding paths are not kept. */
  datatype DecodeError =
    | KeyNotFound(key: string)
    | ValueNotFound(key: string)
    | TypeMismatch(expected: string)
    | DataCorrupted(description: string)

  type Decoded<T> = Result<T, DecodeError>

  /** The keyed container of a value: only an object has one. */
  function Fields(v: Json): Decoded<map<string, Json>> {
    if v.JObject? then Ok(v.fields) else Err(TypeMismatch("Dictionary"))
  }

  function AsString(v: Json): (r: Decoded<string>)
    ensures r.Ok? ==> v == JString(r.value)
  {
    if v.JString? then Ok(v.s) else Err(TypeMismatch("String"))
  }

  function AsInt(v: Json): (r: Decoded<int>)
    ensures r.Ok? ==> v == JNumber(r.value)
  {
    if v.JNumber? then Ok(v.n) else Err(TypeMismatch("Int"))
  }

  function AsBool(v: Json): (r: Decoded<bool>)
    ensures r.Ok? ==> v == JBool(r.value)
  {
    if v.JBool? then Ok(v.b) else Err(TypeMismatch("Bool"))
  }

  /** Decodes every element in order; the first element that fails fails the array. */
  function DecodeAll<T>(items: seq<Json>, element: Json -> Decoded<T>): (r: Decoded<seq<T>>)
    ensures r.Ok? ==> |r.value| == |items|
    ensures r.Ok? ==> forall i :: 0 <= i < |items| ==> element(items[i]) == Ok(r.value[i])
    ensures r.Err? <==> exists i :: 0 <= i < |items| && element(items[i]).Err?
  {
    if items == [] then Ok([])
    else
      var head :- element(items[0]);
      var tail :- DecodeAll(items[1..], element);
      assert forall i :: 1 <= i < |items| ==> items[i] == items[1..][i - 1];
      Ok([head] + tail)
  }

  /** An `[Element]` property value. */
  function AsArray<T>(v: Json, element: Json -> Decoded<T>): Decoded<seq<T>> {
    if v.JArray? then DecodeAll(v.items, element) else Err(TypeMismatch("Array"))
  }

  /** `key` is in `o` with a non-null value. */
  predicate Has(o: map<string, Json>, key: string) {
    key in o && o[key] != JNull
  }

  /** `decode(_:forKey:)`: the key must be there and must not hold null. */
  function Required<T>(o: map<string, Json>, key: string, decode: Json -> Decoded<T>): (r: Decoded<T>)
    ensures r.Ok? ==> key in o && o[key] != JNull && r == decode(o[key])
    ensures key !in o ==> r == Err(KeyNotFound(key))
    ensures key in o && o[key] == JNull ==> r == Err(ValueNotFound(key))
    ensures key in o && o[key] != JNull ==> r == decode(o[key])
  {
    if key !in o then Err(KeyNotFound(key))
    else if o[key] == JNull then Err(ValueNotFound(key))
    else decode(o[key])
  }

  /** `decodeIfPresent(_:forKey:)`: an absent key and a null value both give nil; anything else must decode. */
  function IfPresent<T>(o: map<string, Json>, key: string, decode: Json -> Decoded<T>): (r: Decoded<Option<T>>)
    ensures !Has(o, key) ==> r == Ok(None)
    ensures Has(o, key) && decode(o[key]).Ok? ==> r == Ok(Some(decode(o[key]).value))
    ensures Has(o, key) && decode(o[key]).Err? ==> r == Err(decode(o[key]).error)
  {
    if key !in o || o[key] == JNull then Ok(None)
    else
      var x :- decode(o[key]);
      Ok(Some(x))
  }

  // The wire side: how a record's properties appear in the JSON object that
  // decodes to it. An optional property that is nil has no key at all, so each
  // record's wire object is written as a map over its keys.

  function StringJson(s: string): Json {
    JString(s)
  }

  function IntJson(n: int): Json {
    JNumber(n)
  }

  function BoolJson(b: bool): Json {
    JBool(b)
  }

  function EncodeAll<T>(xs: seq<T>, encode: T -> Json): (r: seq<Json>)
    ensures |r| == |xs|
  {
    if xs == [] then [] else [encode(xs[0])] + EncodeAll(xs[1..], encode)
  }

  lemma {:induction false} DecodeAllEncodeAll<T>(xs: seq<T>, encode: T -> Json, decode: Json -> Decoded<T>)
    requires forall i :: 0 <= i < |xs| ==> decode(encode(xs[i])) == Ok(xs[i])
    ensures DecodeAll(EncodeAll(xs, encode), decode) == Ok(xs)
  {
    if xs != [] {
      DecodeAllEncodeAll(xs[1..], encode, decode);
      assert [xs[0]] + xs[1..] == xs;
    }
  }

  /** An array whose every element decodes decodes to the list of those values. */
  lemma {:induction false} DecodeAllOk<T>(items: seq<Json>, xs: seq<T>, decode: Json -> Decoded<T>)
    requires |items| == |xs|
    requires forall i :: 0 <= i < |xs| ==> decode(items[i]) == Ok(xs[i])
    ensures DecodeAll(items, decode) == Ok(xs)
  {
    if xs != [] {
      DecodeAllOk(items[1..], xs[1..], decode);
      assert [xs[0]] + xs[1..] == xs;
    }
  }
}
