/** The serverless backend (supabase/functions/server/index.tsx): list, create and update
    handlers over one key-value map, and the `/stats` aggregate. The key-value store is a
    map from key to JSON object; the three resources live under the key prefixes
    `item:`, `claim:` and `theft:`. */
module KvServer {
  import opened Common
  import opened Text
  import opened Json

  type Store = map<string, Record>

  const ItemPrefix := "item:"
  const ClaimPrefix := "claim:"
  const TheftPrefix := "theft:"

  /** The three resources with a list and a create endpoint. */
  datatype Resource = Items | Claims | TheftReports {
    function Prefix(): string {
      match this
      case Items => ItemPrefix
      case Claims => ClaimPrefix
      case TheftReports => TheftPrefix
    }

    /** The `error` text of the create handler's 500 reply. */
    function CreateError(): string {
      match this
      case Items => "Failed to create item"
      case Claims => "Failed to create claim"
      case TheftReports => "Failed to create theft report"
    }
  }

  const UpdateError := "Failed to update theft report"

  /** The keys `getByPrefix(prefix)` scans. */
  function PrefixKeys(store: Store, prefix: string): set<string> {
    set k | k in store && StartsWith(prefix, k)
  }

  /** `keys`/`values` is a listing of `prefix` in some order: every key with the prefix exactly
      once, paired with its stored value. */
  ghost predicate IsListing(store: Store, prefix: string, keys: seq<string>, values: seq<Record>) {
    && |keys| == |values|
    && (forall i, j | 0 <= i < j < |keys| :: keys[i] != keys[j])
    && (forall i | 0 <= i < |keys| :: keys[i] in store && values[i] == store[keys[i]])
    && (forall k :: k in keys <==> k in PrefixKeys(store, prefix))
  }

  /** `item.type === t` */
  function IsOfType(t: string): Record -> bool {
    r => HasString(r, "type", t)
  }

  /** Reference definitions of the four statistics, on the map itself. */
  function KeysOfType(store: Store, t: string): set<string> {
    set k | k in store && StartsWith(ItemPrefix, k) && HasString(store[k], "type", t)
  }

  function LostCount(store: Store): nat {
    |KeysOfType(store, "lost")|
  }

  function FoundCount(store: Store): nat {
    |KeysOfType(store, "found")|
  }

  function ClaimsCount(store: Store): nat {
    |PrefixKeys(store, ClaimPrefix)|
  }

  datatype Stats = Stats(lostCount: nat, foundCount: nat, claimsCount: nat, reunionsCount: nat)

  /** The storage key a create handler generates: the resource prefix followed by the opaque
      `${Date.now()}:${random}` suffix. */
  function NewKey(res: Resource, suffix: string): (k: string)
    ensures StartsWith(res.Prefix(), k)
    ensures |k| == |res.Prefix()| + |suffix| && k[|res.Prefix()|..] == suffix
  {
    res.Prefix() + suffix
  }

  /** The record a create handler stores: `{ id: key, ...body, createdAt }`. */
  function NewRecord(key: string, body: Record, createdAt: string): (r: Record)
    ensures r.Keys == body.Keys + {"id", "createdAt"}
    ensures r["createdAt"] == Str(createdAt)
    ensures r["id"] == (if "id" in body then body["id"] else Str(key))
    ensures forall f | f in body && f != "createdAt" :: r[f] == body[f]
  {
    Stamped(key, body, "createdAt", createdAt)
  }

  /** The record the update handler stores: `{ id, ...body, updatedAt }`: built from the body
      alone, whatever was stored at `id` before. */
  function ReplacementRecord(id: string, body: Record, updatedAt: string): (r: Record)
    ensures r.Keys == body.Keys + {"id", "updatedAt"}
    ensures r["updatedAt"] == Str(updatedAt)
    ensures r["id"] == (if "id" in body then body["id"] else Str(id))
    ensures forall f | f in body && f != "updatedAt" :: r[f] == body[f]
  {
    Stamped(id, body, "updatedAt", updatedAt)
  }

  class Server {
    var store: Store

    constructor ()
      ensures store == map[]
    {
      store := map[];
    }

    /** `kv.getByPrefix(prefix)` (kv_store.tsx is not part of this model): every value whose
        key starts with `prefix`, each once, in an order the contract leaves open. */
    method GetByPrefix(prefix: string) returns (keys: seq<string>, values: seq<Record>)
      ensures IsListing(store, prefix, keys, values)
      ensures PrefixKeys(store, prefix) == {} ==> values == []
    {
      var pending := PrefixKeys(store, prefix);
      keys, values := [], [];
      while pending != {}
        invariant pending <= PrefixKeys(store, prefix)
        invariant forall k :: k in keys <==> k in PrefixKeys(store, prefix) && k !in pending
        invariant |keys| == |values|
        invariant forall i, j | 0 <= i < j < |keys| :: keys[i] != keys[j]
        invariant forall i | 0 <= i < |keys| :: keys[i] in store && values[i] == store[keys[i]]
        decreases pending
      {
        var k :| k in pending;
        keys, values := keys + [k], values + [store[k]];
        pending := pending - {k};
      }
      assert |keys| > 0 ==> keys[0] in PrefixKeys(store, prefix);
    }

    /** GET /items, /claims, /theft-reports: `{ items: items || [] }` and its siblings. The
        reply is always a list, empty when nothing is stored under the prefix. */
    method List(res: Resource) returns (values: seq<Record>)
      ensures exists keys :: IsListing(store, res.Prefix(), keys, values)
      ensures PrefixKeys(store, res.Prefix()) == {} ==> values == []
    {
      var keys;
      keys, values := GetByPrefix(res.Prefix());
    }

    /** POST /items, /claims, /theft-reports. `body` is None when the request body is not JSON,
        which the handler's catch turns into a 500 reply. */
    method Create(res: Resource, body: Option<Record>, suffix: string, createdAt: string)
      returns (reply: Result<Record>)
      modifies this
      ensures body.None? ==> reply == Err(res.CreateError()) && store == old(store)
      ensures body.Some? ==>
        var key := NewKey(res, suffix);
        && reply == Ok(NewRecord(key, body.value, createdAt))
        && store == old(store)[key := reply.value]
    {
      if body.None? {
        return Err(res.CreateError());
      }
      var key := NewKey(res, suffix);
      var record := NewRecord(key, body.value, createdAt);
      store := store[key := record];
      reply := Ok(record);
    }

    /** PUT /theft-reports/:id: a blind overwrite, and an insert if `id` is new, at exactly the
        key `id`, with no existence or prefix check. */
    method UpdateTheftReport(id: string, body: Option<Record>, updatedAt: string)
      returns (reply: Result<Record>)
      modifies this
      ensures body.None? ==> reply == Err(UpdateError) && store == old(store)
      ensures body.Some? ==>
        && reply == Ok(ReplacementRecord(id, body.value, updatedAt))
        && store == old(store)[id := reply.value]
    {
      if body.None? {
        return Err(UpdateError);
      }
      var record := ReplacementRecord(id, body.value, updatedAt);
      store := store[id := record];
      reply := Ok(record);
    }

    /** GET /stats: counts over the listed items and claims, and `min(lost, found)` as the
        number of reunions. */
    method GetStats() returns (s: Stats)
      ensures s.lostCount == LostCount(store)
      ensures s.foundCount == FoundCount(store)
      ensures s.claimsCount == ClaimsCount(store)
      ensures s.reunionsCount == Min(s.lostCount, s.foundCount)
    {
      var itemKeys, items := GetByPrefix(ItemPrefix);
      var claimKeys, claims := GetByPrefix(ClaimPrefix);
      var lost := |Filter(IsOfType("lost"), items)|;
      var found := |Filter(IsOfType("found"), items)|;
      ListingCountsType(store, itemKeys, items, "lost");
      ListingCountsType(store, itemKeys, items, "found");
      ListingLength(store, ClaimPrefix, claimKeys, claims);
      s := Stats(lost, found, |claims|, Min(lost, found));
    }
  }

  /** The keys of `ks` whose stored value has type `t`. */
  function KeysWithType(store: Store, ks: seq<string>, t: string): set<string>
    requires forall i | 0 <= i < |ks| :: ks[i] in store
  {
    set k | k in ks && k in store && HasString(store[k], "type", t)
  }

  /** Counting a listing's values by type counts the keys with that type. */
  lemma {:induction false} CountByTypeOverKeys(store: Store, ks: seq<string>, vs: seq<Record>, t: string)
    requires |ks| == |vs|
    requires forall i, j | 0 <= i < j < |ks| :: ks[i] != ks[j]
    requires forall i | 0 <= i < |ks| :: ks[i] in store && vs[i] == store[ks[i]]
    ensures |Filter(IsOfType(t), vs)| == |KeysWithType(store, ks, t)|
  {
    if ks != [] {
      CountByTypeOverKeys(store, ks[1..], vs[1..], t);
      var rest := KeysWithType(store, ks[1..], t);
      assert ks[0] !in ks[1..];
      if HasString(store[ks[0]], "type", t) {
        assert KeysWithType(store, ks, t) == {ks[0]} + rest;
      } else {
        assert KeysWithType(store, ks, t) == rest;
      }
    }
  }

  /** GetStats' counts are the reference counts. */
  lemma ListingCountsType(store: Store, ks: seq<string>, vs: seq<Record>, t: string)
    requires IsListing(store, ItemPrefix, ks, vs)
    ensures |Filter(IsOfType(t), vs)| == |KeysOfType(store, t)|
  {
    CountByTypeOverKeys(store, ks, vs, t);
    assert KeysWithType(store, ks, t) == KeysOfType(store, t);
  }

  /** A listing has one value per key under the prefix. */
  lemma ListingLength(store: Store, prefix: string, ks: seq<string>, vs: seq<Record>)
    requires IsListing(store, prefix, ks, vs)
    ensures |vs| == |PrefixKeys(store, prefix)|
  {
    DistinctSeqCard(ks);
    assert (set k | k in ks) == PrefixKeys(store, prefix);
  }

  /** A sequence without repetitions has as many elements as its set of elements. */
  lemma {:induction false} DistinctSeqCard(ks: seq<string>)
    requires forall i, j | 0 <= i < j < |ks| :: ks[i] != ks[j]
    ensures |set k | k in ks| == |ks|
  {
    if ks != [] {
      DistinctSeqCard(ks[1..]);
      assert ks[0] !in ks[1..];
      assert (set k | k in ks) == {ks[0]} + (set k | k in ks[1..]);
    }
  }

  /** The statistics' bounds: reunions never exceed either count, and lost and found items
      together are at most all items. */
  lemma StatsBounds(store: Store)
    ensures Min(LostCount(store), FoundCount(store)) <= LostCount(store)
    ensures Min(LostCount(store), FoundCount(store)) <= FoundCount(store)
    ensures LostCount(store) + FoundCount(store) <= |PrefixKeys(store, ItemPrefix)|
  {
    var lost, found := KeysOfType(store, "lost"), KeysOfType(store, "found");
    assert lost !! found;
    assert lost + found <= PrefixKeys(store, ItemPrefix);
    SubsetCard(lost + found, PrefixKeys(store, ItemPrefix));
  }

  lemma SubsetCard(a: set<string>, b: set<string>)
    requires a <= b
    ensures |a| <= |b|
  {
    assert b == a + (b - a);
  }

  /** Creating a claim (or any record under `claim:`) leaves the lost and found counts as they
      were, whatever the key replaced. */
  lemma {:induction false} ClaimKeepsItemCounts(store: Store, key: string, r: Record)
    requires StartsWith(ClaimPrefix, key)
    ensures LostCount(store[key := r]) == LostCount(store)
    ensures FoundCount(store[key := r]) == FoundCount(store)
  {
    DistinctPrefixes(ClaimPrefix, ItemPrefix, key);
    assert KeysOfType(store[key := r], "lost") == KeysOfType(store, "lost");
    assert KeysOfType(store[key := r], "found") == KeysOfType(store, "found");
  }

  /** Creating a claim under a fresh key raises the claims count by one. */
  lemma {:induction false} ClaimRaisesClaimsCount(store: Store, key: string, r: Record)
    requires StartsWith(ClaimPrefix, key) && key !in store
    ensures ClaimsCount(store[key := r]) == ClaimsCount(store) + 1
  {
    assert PrefixKeys(store[key := r], ClaimPrefix) == PrefixKeys(store, ClaimPrefix) + {key};
  }

  /** Creating an item under a fresh key raises exactly the count of its body's type by one
      and leaves the claims count alone. */
  lemma {:induction false} ItemRaisesItsCount(store: Store, suffix: string, body: Record, createdAt: string)
    requires NewKey(Items, suffix) !in store
    ensures var s' := store[NewKey(Items, suffix) := NewRecord(NewKey(Items, suffix), body, createdAt)];
      && LostCount(s') == LostCount(store) + (if HasString(body, "type", "lost") then 1 else 0)
      && FoundCount(s') == FoundCount(store) + (if HasString(body, "type", "found") then 1 else 0)
      && ClaimsCount(s') == ClaimsCount(store)
  {
    var key := NewKey(Items, suffix);
    var r := NewRecord(key, body, createdAt);
    var s' := store[key := r];
    assert HasString(r, "type", "lost") == HasString(body, "type", "lost");
    assert HasString(r, "type", "found") == HasString(body, "type", "found");
    TypeSetGrows(store, key, r, "lost");
    TypeSetGrows(store, key, r, "found");
    DistinctPrefixes(ItemPrefix, ClaimPrefix, key);
    assert PrefixKeys(s', ClaimPrefix) == PrefixKeys(store, ClaimPrefix);
  }

  lemma TypeSetGrows(store: Store, key: string, r: Record, t: string)
    requires StartsWith(ItemPrefix, key) && key !in store
    ensures |KeysOfType(store[key := r], t)| ==
      |KeysOfType(store, t)| + (if HasString(r, "type", t) then 1 else 0)
  {
    if HasString(r, "type", t) {
      assert KeysOfType(store[key := r], t) == KeysOfType(store, t) + {key};
    } else {
      assert KeysOfType(store[key := r], t) == KeysOfType(store, t);
    }
  }

  /** Creating under a fresh key adds that key to the listing of every prefix it starts with
      and changes no listing otherwise; every earlier record keeps its value. */
  lemma CreateKeepsEarlier(store: Store, key: string, r: Record)
    requires key !in store
    ensures forall prefix :: (PrefixKeys(store[key := r], prefix) ==
      PrefixKeys(store, prefix) + if StartsWith(prefix, key) then {key} else {})
    ensures forall k | k in store :: store[key := r][k] == store[k]
  {
    forall prefix ensures PrefixKeys(store[key := r], prefix) ==
      PrefixKeys(store, prefix) + (if StartsWith(prefix, key) then {key} else {})
    {
    }
  }

  /** The update replaces the whole record at `id`: a field the old record had and the body
      does not is gone, no other key is touched, and it applies whether or not `id` was
      stored and whatever its prefix. */
  lemma UpdateIsFullOverwrite(store: Store, id: string, body: Record, updatedAt: string)
    ensures var s' := store[id := ReplacementRecord(id, body, updatedAt)];
      && id in s'
      && (forall f | id in store && f in store[id] && f !in body && f != "id" && f != "updatedAt" :: f !in s'[id])
      && (forall k | k != id :: (k in s' <==> k in store) && (k in store ==> s'[k] == store[k]))
  {
  }

  /** An update at a key outside `theft:` does not change which keys the theft-report listing
      returns. */
  lemma UpdateOffPrefixUnlisted(store: Store, id: string, body: Record, updatedAt: string)
    requires !StartsWith(TheftPrefix, id)
    ensures PrefixKeys(store[id := ReplacementRecord(id, body, updatedAt)], TheftPrefix)
            == PrefixKeys(store, TheftPrefix)
  {
  }
}
