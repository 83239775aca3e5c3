/** Hutool `JSONUtil.toJsonStr` / `JSONUtil.toBean` for one bean type, as a
    pair of functions. The model only relies on what `Lawful` states. */
module Json {
  import opened Text

  datatype Codec<!T> = Codec(encode: T -> string, decode: string -> T)

  /** Decoding an encoding gives the bean back, and an encoding is a JSON
      document, never blank (so it cannot be mistaken for the empty marker). */
  ghost predicate Lawful<T(!new)>(c: Codec<T>)
  {
    && (forall x :: c.decode(c.encode(x)) == x)
    && (forall x :: !IsBlank(c.encode(x)))
  }

  /** `list.stream().map(JSONUtil::toJsonStr).collect(toList())`. */
  function EncodeAll<T>(c: Codec<T>, xs: seq<T>): (r: seq<string>)
    ensures |r| == |xs|
    ensures forall i :: 0 <= i < |xs| ==> r[i] == c.encode(xs[i])
  {
    if xs == [] then [] else [c.encode(xs[0])] + EncodeAll(c, xs[1..])
  }

  /** `list.stream().map(item -> JSONUtil.toBean(item, type)).collect(toList())`. */
  function DecodeAll<T>(c: Codec<T>, ss: seq<string>): (r: seq<T>)
    ensures |r| == |ss|
    ensures forall i :: 0 <= i < |ss| ==> r[i] == c.decode(ss[i])
  {
    if ss == [] then [] else [c.decode(ss[0])] + DecodeAll(c, ss[1..])
  }

  /** A list written with `EncodeAll` reads back, element by element and in
      order, as the list that was written. */
  lemma DecodeEncodeAll<T(!new)>(c: Codec<T>, xs: seq<T>)
    requires Lawful(c)
    ensures DecodeAll(c, EncodeAll(c, xs)) == xs
  {
  }
}
