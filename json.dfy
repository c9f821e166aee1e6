/** An already-parsed JSON value, as a response body or a tool argument arrives at the decoders. */
module Json {

  /** JSON values. An object is a map from key to value: `JSON.parse` keeps the last of
      duplicate keys, and no schema of the core depends on the order of keys. Numbers are
      kept as integers, since no schema of the core accepts a number. */
  datatype Json =
    | JNull
    | JBool(b: bool)
    | JNumber(n: int)
    | JString(s: string)
    | JArray(items: seq<Json>)
    | JObject(fields: map<string, Json>)

  /** The JSON array holding the encodings of `xs`, in order. */
  function ArrayOf<T>(xs: seq<T>, encode: T -> Json): (j: Json)
    ensures j.JArray? && |j.items| == |xs|
    ensures forall i | 0 <= i < |xs| :: j.items[i] == encode(xs[i])
  {
    JArray(seq(|xs|, i requires 0 <= i < |xs| => encode(xs[i])))
  }

  /** `small` is `big` with some object keys dropped, at any depth: objects keep a subset of
      their keys, arrays keep their length and order, every other value is unchanged.
      This is how a decoded-then-re-encoded value relates to its input, since decoding
      ignores the keys that a schema does not mention. */
  predicate Embeds(small: Json, big: Json)
    decreases small
  {
    match small
    case JObject(fields) =>
      && big.JObject?
      && fields.Keys <= big.fields.Keys
      && forall k | k in fields :: Embeds(fields[k], big.fields[k])
    case JArray(items) =>
      && big.JArray?
      && |items| == |big.items|
      && forall i | 0 <= i < |items| :: Embeds(items[i], big.items[i])
    case _ => small == big
  }
}
