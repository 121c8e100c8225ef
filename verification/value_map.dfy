/**
  The values a context (a string-keyed `ValueMap`) holds, and the few facts about
  single-key writes that every part of the model relies on.
 */
module ValueMap {
  import opened Results

  /** Java `int`. */
  newtype Int32 = x: int | -0x8000_0000 <= x < 0x8000_0000

  /** Java `long`. */
  newtype Int64 = x: int | -0x8000_0000_0000_0000 <= x < 0x8000_0000_0000_0000

  /** A Java `float`, kept as its IEEE-754 bit pattern and never interpreted. */
  datatype Float32 = Float32(bits: bv32)

  /**
    The user's identity attributes as stored in the context. The context only ever
    reads the anonymous id, which may be null.
   */
  datatype Traits = Traits(anonymousId: Option<string>, attributes: map<string, Value>)

  /** A value stored under a key of a context or of one of its nested maps. */
  datatype Value =
    | Str(s: string)
    | Int(i: int)
    | Bool(b: bool)
    | Float(f: Float32)
      // a nested value map: a campaign, device, location or referrer object
    | Obj(fields: map<string, Value>)
    | TraitsObj(traits: Traits)

  type Entries = map<string, Value>

  /** `m` and `r` agree on every key outside `keys`: same presence, same value. */
  ghost predicate SameExcept(m: Entries, r: Entries, keys: set<string>)
  {
    forall k :: k !in keys ==> (k in m <==> k in r) && (k in m ==> m[k] == r[k])
  }

  /** Null or of length zero, the test applied to optional strings before they are stored. */
  predicate IsNullOrEmpty(v: Option<string>)
  {
    v.None? || |v.value| == 0
  }

  /** Reads a string stored under `key`; an absent key or a non-string value reads as null. */
  function GetString(m: Entries, key: string): Option<string>
  {
    if key in m && m[key].Str? then Some(m[key].s) else None
  }

  /** Writing one key leaves the string read back from every other key as it was. */
  lemma GetStringElsewhere(m: Entries, r: Entries, key: string, other: string)
    requires SameExcept(m, r, {key})
    requires other != key
    ensures GetString(r, other) == GetString(m, other)
  {
  }
}
