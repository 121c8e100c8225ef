/**
  The analytics context store: a string-keyed map of ambient facts attached to every
  outgoing call. A live context accepts writes; an unmodifiable copy refuses them.
 */
module AnalyticsContext {
  import opened Results
  import opened ValueMap
  import opened ContextParts

  const TRAITS_KEY := "traits"
  const CAMPAIGN_KEY := "campaign"
  const DEVICE_KEY := "device"
  const LOCATION_KEY := "location"
  const REFERRER_KEY := "referrer"

  /** The entries of a context, and whether writes through it are allowed. */
  datatype Context = Context(entries: Entries, writable: bool)

  /** A write through an unmodifiable view throws `UnsupportedOperationException`. */
  datatype StoreError = UnsupportedOperation

  /** The one fact every successful single-key write establishes. */
  ghost predicate StoredOnly(c: Context, r: Context, key: string, v: Value)
  {
    && r.writable
    && key in r.entries
    && r.entries[key] == v
    && SameExcept(c.entries, r.entries, {key})
  }

  /** The generic fluent setter: stores `v` under `key` and returns the same context. */
  function PutValue(c: Context, key: string, v: Value): (r: Result<Context, StoreError>)
    ensures r.Success? <==> c.writable
    ensures r.Failure? ==> r.error == UnsupportedOperation
    ensures r.Success? ==> StoredOnly(c, r.value, key, v)
  {
    if c.writable then Success(Context(c.entries[key := v], true))
    else Failure(UnsupportedOperation)
  }

  function PutCampaign(c: Context, campaign: Campaign): (r: Result<Context, StoreError>)
    ensures r.Success? <==> c.writable
    ensures r.Success? ==> StoredOnly(c, r.value, CAMPAIGN_KEY, Obj(campaign.fields))
  {
    PutValue(c, CAMPAIGN_KEY, Obj(campaign.fields))
  }

  function PutLocation(c: Context, location: Location): (r: Result<Context, StoreError>)
    ensures r.Success? <==> c.writable
    ensures r.Success? ==> StoredOnly(c, r.value, LOCATION_KEY, Obj(location.fields))
  {
    PutValue(c, LOCATION_KEY, Obj(location.fields))
  }

  function PutReferrer(c: Context, referrer: Referrer): (r: Result<Context, StoreError>)
    ensures r.Success? <==> c.writable
    ensures r.Success? ==> StoredOnly(c, r.value, REFERRER_KEY, Obj(referrer.fields))
  {
    PutValue(c, REFERRER_KEY, Obj(referrer.fields))
  }

  /**
    The traits stored in the context, read back as a traits object; an absent key, or
    a value of another shape, reads as null.
   */
  function StoredTraits(m: Entries): Option<Traits>
  {
    if TRAITS_KEY in m && m[TRAITS_KEY].TraitsObj? then Some(m[TRAITS_KEY].traits) else None
  }

  /** Attaches a copy of `traits`; reading the traits back gives exactly that copy. */
  function SetTraits(c: Context, traits: Traits): (r: Result<Context, StoreError>)
    ensures r.Success? <==> c.writable
    ensures r.Success? ==> StoredOnly(c, r.value, TRAITS_KEY, TraitsObj(traits))
    ensures r.Success? ==> StoredTraits(r.value.entries) == Some(traits)
  {
    PutValue(c, TRAITS_KEY, TraitsObj(traits))
  }

  /** A point-in-time copy of the entries, wrapped so that it refuses every write. */
  function UnmodifiableCopy(c: Context): (r: Context)
    ensures r.entries == c.entries
    ensures !r.writable
    ensures forall key, v :: PutValue(r, key, v) == Failure(UnsupportedOperation)
  {
    Context(c.entries, false)
  }

  /** Applies a sequence of `putValue` calls, stopping at the first that throws. */
  function PutAll(c: Context, writes: seq<(string, Value)>): Result<Context, StoreError>
    decreases |writes|
  {
    if |writes| == 0 then Success(c)
    else
      var next :- PutValue(c, writes[0].0, writes[0].1);
      PutAll(next, writes[1..])
  }

  /** The keys a sequence of writes touches. */
  function WriteKeys(writes: seq<(string, Value)>): set<string>
  {
    set i | 0 <= i < |writes| :: writes[i].0
  }

  /**
    Writes to the live store all succeed and leave every key they do not touch as it
    was, while a copy taken before them refuses the first of them.
   */
  lemma {:induction false} LiveAcceptsCopyRefusesWrites(c: Context, writes: seq<(string, Value)>)
    requires c.writable
    ensures PutAll(c, writes).Success?
    ensures forall k :: k in c.entries && k !in WriteKeys(writes) ==>
              k in PutAll(c, writes).value.entries && PutAll(c, writes).value.entries[k] == c.entries[k]
    ensures UnmodifiableCopy(c).entries == c.entries
    ensures PutAll(UnmodifiableCopy(c), writes) == (if |writes| == 0 then Success(UnmodifiableCopy(c)) else Failure(UnsupportedOperation))
    decreases |writes|
  {
    if |writes| > 0 {
      var next := PutValue(c, writes[0].0, writes[0].1).value;
      LiveAcceptsCopyRefusesWrites(next, writes[1..]);
      assert forall k :: k in WriteKeys(writes[1..]) ==> k in WriteKeys(writes) by {
        forall k | k in WriteKeys(writes[1..])
          ensures k in WriteKeys(writes)
        {
          var i :| 0 <= i < |writes[1..]| && writes[1..][i].0 == k;
          assert writes[i + 1].0 == k;
        }
      }
      assert writes[0].0 in WriteKeys(writes);
    }
  }

  /**
    The live context as a mutable object, so that the copy's independence from later
    writes can be stated about a shared reference.
   */
  class LiveContext {
    var state: Context

    constructor(initial: Context)
      ensures state == initial
    {
      state := initial;
    }

    /** `putValue` on the shared object; `false` stands for the exception a read-only view throws. */
    method Put(key: string, v: Value) returns (ok: bool)
      modifies this
      ensures ok <==> old(state).writable
      ensures ok ==> StoredOnly(old(state), state, key, v)
      ensures !ok ==> state == old(state)
    {
      var r := PutValue(state, key, v);
      ok := r.Success?;
      if ok {
        state := r.value;
      }
    }

    /** `unmodifiableCopy` on the shared object. */
    method Copy() returns (snapshot: Context)
      ensures snapshot.entries == state.entries
      ensures !snapshot.writable
    {
      snapshot := UnmodifiableCopy(state);
    }
  }

  /** Takes a copy, then writes to the live store: the copy keeps the entries of the moment it was taken. */
  method CopyThenWrite(live: LiveContext, key: string, v: Value) returns (snapshot: Context)
    requires live.state.writable
    modifies live
    ensures snapshot.entries == old(live.state.entries)
    ensures key in live.state.entries && live.state.entries[key] == v
    ensures SameExcept(old(live.state.entries), live.state.entries, {key})
    ensures !snapshot.writable
  {
    snapshot := live.Copy();
    var ok := live.Put(key, v);
  }
}
