/** The decoding vocabulary that the response and parameter schemas are built from: required
    keys, strings, closed sets of string literals and arrays, each reporting the first
    structural mismatch it meets together with the path that leads to it. */
module Decoding {
  import opened Wrappers
  import opened Json

  /** One step of the path from the decoded value to the place of a mismatch. */
  datatype Segment = Key(name: string) | Index(position: nat)

  /** What the schema wanted where it found something else. */
  datatype Expected =
    | AString
    | AnArray
    | AnObject
    | OneOf(literals: seq<string>)
    | StringOrArray

  datatype Issue = Missing | Mismatch(expected: Expected)

  datatype DecodeError = DecodeError(path: seq<Segment>, issue: Issue) {
    /** The same mismatch, seen from one level further out. */
    function Under(s: Segment): DecodeError {
      DecodeError([s] + path, issue)
    }
  }

  type Decoded<T> = Result<T, DecodeError>

  /** A mismatch at the value being decoded. */
  function Fail<T>(expected: Expected): (r: Decoded<T>)
    ensures r.Err? && r.error.path == [] && r.error.issue == Mismatch(expected)
  {
    Err(DecodeError([], Mismatch(expected)))
  }

  /** Moves a failure one segment down the path; a success is left as it is. */
  function Nest<T>(s: Segment, r: Decoded<T>): (n: Decoded<T>)
    ensures n.Ok? <==> r.Ok?
    ensures r.Ok? ==> n == r
    ensures r.Err? ==> n.error.path == [s] + r.error.path && n.error.issue == r.error.issue
  {
    match r
    case Ok(_) => r
    case Err(e) => Err(e.Under(s))
  }

  /** `Schema.String`: accepts exactly the JSON strings, whatever they contain. */
  function AsString(j: Json): (r: Decoded<string>)
    ensures r.Ok? <==> j.JString?
    ensures r.Ok? ==> j == JString(r.value)
  {
    if j.JString? then Ok(j.s) else Fail(AString)
  }

  /** `Schema.Literal(...)`: accepts exactly the strings listed. */
  function AsLiteral(j: Json, literals: seq<string>): (r: Decoded<string>)
    ensures r.Ok? <==> j.JString? && j.s in literals
    ensures r.Ok? ==> j == JString(r.value) && r.value in literals
  {
    if j.JString? && j.s in literals then Ok(j.s) else Fail(OneOf(literals))
  }

  /** The keys of a struct-shaped value; anything that is not an object fails. */
  function AsObject(j: Json): (r: Decoded<map<string, Json>>)
    ensures r.Ok? <==> j.JObject?
    ensures r.Ok? ==> j == JObject(r.value)
  {
    if j.JObject? then Ok(j.fields) else Fail(AnObject)
  }

  /** A required struct key: a missing key fails with `Missing` at that key, a present value
      is decoded and any failure inside it is reported under the key. */
  function Required<T>(obj: map<string, Json>, key: string, decode: Json -> Decoded<T>): (r: Decoded<T>)
    ensures r.Ok? <==> key in obj && decode(obj[key]).Ok?
    ensures r.Ok? ==> decode(obj[key]) == r
    ensures key !in obj ==> r == Err(DecodeError([Key(key)], Missing))
    ensures key in obj && decode(obj[key]).Err? ==> r == Err(decode(obj[key]).error.Under(Key(key)))
  {
    if key in obj then Nest(Key(key), decode(obj[key]))
    else Err(DecodeError([Key(key)], Missing))
  }

  /** An optional struct key (`Schema.optional`): absence is `None`, a present value must decode. */
  function Optional<T>(obj: map<string, Json>, key: string, decode: Json -> Decoded<T>): (r: Decoded<Option<T>>)
    ensures r.Ok? <==> key !in obj || decode(obj[key]).Ok?
    ensures r.Ok? ==> (r.value.None? <==> key !in obj)
    ensures r.Ok? && key in obj ==> decode(obj[key]) == Ok(r.value.value)
    ensures key in obj && decode(obj[key]).Err? ==> r == Err(decode(obj[key]).error.Under(Key(key)))
  {
    if key !in obj then Ok(None)
    else
      var v :- Nest(Key(key), decode(obj[key]));
      Ok(Some(v))
  }

  /** Decodes `items[from..]` left to right and stops at the first element that fails,
      reporting its failure under its index. */
  function Elements<T>(items: seq<Json>, decode: Json -> Decoded<T>, from: nat): (r: Decoded<seq<T>>)
    requires from <= |items|
    ensures r.Ok? <==> forall i | from <= i < |items| :: decode(items[i]).Ok?
    ensures r.Ok? ==> |r.value| == |items| - from
    ensures r.Ok? ==> forall i | from <= i < |items| :: decode(items[i]) == Ok(r.value[i - from])
    ensures r.Err? ==> exists i | from <= i < |items| ::
      && decode(items[i]).Err?
      && r.error == decode(items[i]).error.Under(Index(i))
      && forall k | from <= k < i :: decode(items[k]).Ok?
    decreases |items| - from
  {
    if from == |items| then Ok([])
    else
      var first :- Nest(Index(from), decode(items[from]));
      var rest :- Elements(items, decode, from + 1);
      Ok([first] + rest)
  }

  /** `Schema.Array(element)`: accepts an array whose every element decodes, and keeps the
      decoded elements in the order and number of the input. */
  function AsArrayOf<T>(j: Json, decode: Json -> Decoded<T>): (r: Decoded<seq<T>>)
    ensures r.Ok? <==> j.JArray? && forall i | 0 <= i < |j.items| :: decode(j.items[i]).Ok?
    ensures r.Ok? ==> |r.value| == |j.items|
    ensures r.Ok? ==> forall i | 0 <= i < |j.items| :: decode(j.items[i]) == Ok(r.value[i])
  {
    if j.JArray? then Elements(j.items, decode, 0) else Fail(AnArray)
  }

  /** Decoding each element of an array of encodings gives back the original elements, when
      `decode` undoes `encode` element by element. */
  lemma {:induction false} ArrayRoundTrip<T>(xs: seq<T>, encode: T -> Json, decode: Json -> Decoded<T>)
    requires forall x | x in xs :: decode(encode(x)) == Ok(x)
    ensures AsArrayOf(ArrayOf(xs, encode), decode) == Ok(xs)
  {
    var j := ArrayOf(xs, encode);
    forall i | 0 <= i < |xs|
      ensures decode(j.items[i]) == Ok(xs[i])
    {
      assert xs[i] in xs;
    }
    var r := AsArrayOf(j, decode);
    assert r.Ok?;
    assert r.value == xs;
  }
}
