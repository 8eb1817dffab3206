/** Whether a value may be sent as the body of a request: two bounded recursions over a tree of
    any depth, and what they accept together. */
module JsonBody {
  import opened Options

  /** A key of an object that is text, or one that is not. */
  datatype Key = Text(name: string) | NoText

  /** `Foreign` is any value that is no JSON type; `Float` holds whether it is finite. An object
      has its values in `items`, under the keys in the same order. */
  datatype Json =
    | Plain
    | Float(finite: bool)
    | Foreign
    | Array(items: seq<Json>)
    | Object(keys: seq<Key>, items: seq<Json>)

  const MAX_BODY_DEPTH := 16

  function Max(a: int, b: int): int { if a > b then a else b }

  predicate TextKeys(keys: seq<Key>) { NoText !in keys }

  predicate JsonEncodable(value: Json, depth: nat)
    decreases value, 1
  {
    depth > MAX_BODY_DEPTH ||
    match value
    case Plain => true
    case Float(finite) => finite
    case Foreign => false
    case Array(items) => AllEncodable(items, depth + 1)
    case Object(keys, items) => TextKeys(keys) && AllEncodable(items, depth + 1)
  }

  predicate AllEncodable(items: seq<Json>, depth: nat)
    decreases items, 0
  {
    items == [] || (JsonEncodable(items[0], depth) && AllEncodable(items[1..], depth))
  }

  function NestingDepth(value: Json, depth: nat): int
    decreases value, 1
  {
    if depth > MAX_BODY_DEPTH then depth
    else if value.Array? || value.Object? then Deepest(value.items, depth)
    else depth - 1
  }

  /** The deepest of the items of a container at `depth`, or that depth itself. */
  function Deepest(items: seq<Json>, depth: nat): int
    decreases items, 0
  {
    if items == [] then depth
    else if |items| == 1 then NestingDepth(items[0], depth + 1)
    else Max(NestingDepth(items[0], depth + 1), Deepest(items[1..], depth))
  }

  datatype Problem = NotJson | TooDeep | TooLarge

  const MAX_BODY_SIZE := 64 * 1024

  /** The length of what a value is encoded to, or nothing where the encoder refuses it, as it does
      a whole number with too many digits. */
  type Encoder = Json -> Option<nat>

  predicate FitsEncoded(encode: Encoder, value: Json) {
    encode(value).Some? && encode(value).value <= MAX_BODY_SIZE
  }

  function BodyProblem(encode: Encoder, value: Json): Option<Problem> {
    if !JsonEncodable(value, 0) then Some(NotJson)
    else if NestingDepth(value, 1) > MAX_BODY_DEPTH then Some(TooDeep)
    else
      match encode(value)
      case None => Some(NotJson)
      case Some(size) => if size > MAX_BODY_SIZE then Some(TooLarge) else None
  }

  // ---------------------------------------------------------------------------------------
  // The whole tree
  // ---------------------------------------------------------------------------------------

  /** Every node can be encoded. */
  predicate Sound(value: Json)
    decreases value, 1
  {
    match value
    case Plain => true
    case Float(finite) => finite
    case Foreign => false
    case Array(items) => AllSound(items)
    case Object(keys, items) => TextKeys(keys) && AllSound(items)
  }

  predicate AllSound(items: seq<Json>)
    decreases items, 0
  {
    items == [] || (Sound(items[0]) && AllSound(items[1..]))
  }

  /** The levels of nodes, scalars included. */
  function Levels(value: Json): (n: nat)
    ensures n >= 1
    decreases value, 1
  {
    if value.Array? || value.Object? then 1 + MostLevels(value.items) else 1
  }

  function MostLevels(items: seq<Json>): nat
    decreases items, 0
  {
    if items == [] then 0 else Max(Levels(items[0]), MostLevels(items[1..]))
  }

  /** How deep containers are nested, scalars not included. */
  function Nesting(value: Json): nat
    decreases value, 1
  {
    if value.Array? || value.Object? then 1 + MostNesting(value.items) else 0
  }

  function MostNesting(items: seq<Json>): nat
    decreases items, 0
  {
    if items == [] then 0 else Max(Nesting(items[0]), MostNesting(items[1..]))
  }

  /** While the levels fit, the bounded type check sees every node. */
  lemma {:induction false} EncodableSeesAll(value: Json, depth: nat)
    requires depth + Levels(value) <= MAX_BODY_DEPTH + 1
    ensures JsonEncodable(value, depth) <==> Sound(value)
    decreases value, 1
  {
    if value.Array? || value.Object? {
      ItemsEncodableSeeAll(value.items, depth + 1);
    }
  }

  lemma {:induction false} ItemsEncodableSeeAll(items: seq<Json>, depth: nat)
    requires depth + MostLevels(items) <= MAX_BODY_DEPTH + 1
    ensures AllEncodable(items, depth) <==> AllSound(items)
    decreases items, 0
  {
    if items != [] {
      EncodableSeesAll(items[0], depth);
      ItemsEncodableSeeAll(items[1..], depth);
    }
  }

  /** What the bounded depth count returns: the nesting as long as every node, scalars included,
      is within the bound, and one more than the bound otherwise. */
  lemma {:induction false} NestingDepthIs(value: Json, depth: nat)
    requires 1 <= depth <= MAX_BODY_DEPTH + 1
    ensures NestingDepth(value, depth) ==
              if depth + Levels(value) <= MAX_BODY_DEPTH + 1 then depth - 1 + Nesting(value) else MAX_BODY_DEPTH + 1
    ensures Nesting(value) <= Levels(value) <= Nesting(value) + 1
    decreases value, 1
  {
    if value.Array? || value.Object? {
      NestingIsNearLevels(value.items);
      if depth <= MAX_BODY_DEPTH {
        DeepestIs(value.items, depth);
      }
    }
  }

  lemma {:induction false} NestingIsNearLevels(items: seq<Json>)
    ensures MostNesting(items) <= MostLevels(items) <= MostNesting(items) + 1
    decreases items, 0
  {
    if items != [] {
      NestingDepthIs(items[0], 1);
      NestingIsNearLevels(items[1..]);
    }
  }

  lemma {:induction false} DeepestIs(items: seq<Json>, depth: nat)
    requires 1 <= depth <= MAX_BODY_DEPTH
    ensures Deepest(items, depth) ==
              if depth + MostLevels(items) <= MAX_BODY_DEPTH then depth + MostNesting(items) else MAX_BODY_DEPTH + 1
    decreases items, 0
  {
    if items != [] {
      NestingDepthIs(items[0], depth + 1);
      DeepestIs(items[1..], depth);
      NestingIsNearLevels(items[1..]);
    }
  }

  /** A body of any depth and width is accepted exactly if every node can be encoded, no node lies
      deeper than sixteen levels, although the type check alone gives up below its bound, and the
      whole is short enough. A refusal names what is wrong. */
  lemma AcceptedExactlyIf(encode: Encoder, value: Json)
    ensures BodyProblem(encode, value) == None <==>
              Sound(value) && Levels(value) <= MAX_BODY_DEPTH && FitsEncoded(encode, value)
    ensures BodyProblem(encode, value) == Some(NotJson) ==> !Sound(value) || encode(value) == None
    ensures BodyProblem(encode, value) == Some(TooDeep) ==> Levels(value) > MAX_BODY_DEPTH
    ensures BodyProblem(encode, value) == Some(TooLarge) <==>
              Sound(value) && Levels(value) <= MAX_BODY_DEPTH && encode(value).Some? && !FitsEncoded(encode, value)
  {
    NestingDepthIs(value, 1);
    if Levels(value) <= MAX_BODY_DEPTH {
      EncodableSeesAll(value, 0);
    } else {
      SoundIsEncodable(value, 0);
    }
  }

  lemma {:induction false} SoundIsEncodable(value: Json, depth: nat)
    ensures Sound(value) ==> JsonEncodable(value, depth)
    decreases value, 1
  {
    if value.Array? || value.Object? {
      ItemsSoundAreEncodable(value.items, depth + 1);
    }
  }

  lemma {:induction false} ItemsSoundAreEncodable(items: seq<Json>, depth: nat)
    ensures AllSound(items) ==> AllEncodable(items, depth)
    decreases items, 0
  {
    if items != [] {
      SoundIsEncodable(items[0], depth);
      ItemsSoundAreEncodable(items[1..], depth);
    }
  }

  /** Lists nested `depth` deep around a value. */
  function Wrapped(value: Json, depth: nat): Json { if depth == 0 then value else Array([Wrapped(value, depth - 1)]) }

  lemma OneItem(item: Json)
    ensures MostLevels([item]) == Levels(item) && MostNesting([item]) == Nesting(item)
            && (AllSound([item]) <==> Sound(item))
  {
    var none: seq<Json> := [item][1..];
    assert none == [];
    assert MostLevels(none) == 0 && MostNesting(none) == 0 && AllSound(none);
  }

  lemma {:induction false} WrappingAdds(value: Json, depth: nat)
    ensures Levels(Wrapped(value, depth)) == Levels(value) + depth
            && Nesting(Wrapped(value, depth)) == Nesting(value) + depth
    ensures Sound(Wrapped(value, depth)) <==> Sound(value)
  {
    if depth > 0 {
      WrappingAdds(value, depth - 1);
      OneItem(Wrapped(value, depth - 1));
    }
  }

  lemma WrappedIsAcceptedExactlyIf(encode: Encoder, value: Json, depth: nat)
    requires Sound(value) && FitsEncoded(encode, Wrapped(value, depth))
    ensures BodyProblem(encode, Wrapped(value, depth)) ==
            if Levels(value) + depth <= MAX_BODY_DEPTH then None else Some(TooDeep)
    ensures Nesting(Wrapped(value, depth)) == Nesting(value) + depth
  {
    hide Wrapped, Sound, Levels, Nesting, JsonEncodable, NestingDepth;
    WrappingAdds(value, depth);
    AcceptedExactlyIf(encode, Wrapped(value, depth));
  }

  /** At the boundary the content decides, however short it is: sixteen nested lists pass if the
      innermost is empty, and count as seventeen if it holds a scalar. */
  lemma ScalarCountsAtTheBoundary(encode: Encoder)
    requires FitsEncoded(encode, Wrapped(Array([]), 15))
    requires FitsEncoded(encode, Wrapped(Plain, 15)) && FitsEncoded(encode, Wrapped(Plain, 16))
    ensures BodyProblem(encode, Wrapped(Array([]), 15)) == None && Nesting(Wrapped(Array([]), 15)) == 16
    ensures BodyProblem(encode, Wrapped(Plain, 16)) == Some(TooDeep) && Nesting(Wrapped(Plain, 16)) == 16
    ensures BodyProblem(encode, Wrapped(Plain, 15)) == None
  {
    hide BodyProblem, Wrapped;
    WrappedIsAcceptedExactlyIf(encode, Array([]), 15);
    WrappedIsAcceptedExactlyIf(encode, Plain, 16);
    WrappedIsAcceptedExactlyIf(encode, Plain, 15);
  }
}
