/**
 * The fishing registries of files/data/fishing_data.py: poles and fish
 * keyed by name, with get-or-default lookups, first-match searches by id in
 * insertion order and bulk loaders. Python dicts keep insertion order, so
 * each registry keeps its keys' order beside the map; the float fields are
 * carried as reals and never computed on.
 */
module FishingData {
  import opened Wrappers

  datatype FishingPole = FishingPole(id: int, name: string, multiplier: real, price: real)
  datatype FishRarity = FishRarity(id: int, name: string, weight: real, maxLevel: int, multiplier: real)
  datatype Fish = Fish(id: int, name: string, weight: real, minLevel: int, maxLevel: int, value: int, rarity: FishRarity)
  /** The keyword attributes a raw fish entry supplies; the loader adds the rarity. */
  datatype FishAttrs = FishAttrs(id: int, name: string, weight: real, minLevel: int, maxLevel: int, value: int)

  const Common: FishRarity := FishRarity(1, "Common", 50.0, 6, 1.0)
  const Uncommon: FishRarity := FishRarity(2, "Uncommon", 30.0, 8, 1.2)
  const Rare: FishRarity := FishRarity(3, "Rare", 15.0, 10, 1.4)
  const Epic: FishRarity := FishRarity(4, "Epic", 8.0, 12, 2.0)
  const Legendary: FishRarity := FishRarity(5, "Legendary", 1.5, 14, 2.5)
  const Mythic: FishRarity := FishRarity(6, "Mythic", 0.5, 6, 4.0)

  /** The six rarities, whose ids are 1 to 6 in order and therefore distinct. */
  function Rarities(): (r: seq<FishRarity>)
    ensures |r| == 6
    ensures forall i :: 0 <= i < |r| ==> r[i].id == i + 1
    ensures forall i, j :: 0 <= i < j < |r| ==> r[i].id != r[j].id && r[i].name != r[j].name
  {
    [Common, Uncommon, Rare, Epic, Legendary, Mythic]
  }

  /** The fallback pole returned when a lookup finds nothing. */
  const Paper: FishingPole := FishingPole(0, "Paper", 1.0, 0.0)

  predicate Distinct<T(==)>(s: seq<T>) {
    forall i, j :: 0 <= i < j < |s| ==> s[i] != s[j]
  }

  /** The keys of a dict literal given as (key, attributes) pairs. */
  function Keys<V>(d: seq<(string, V)>): (r: seq<string>)
    ensures |r| == |d| && forall i :: 0 <= i < |d| ==> r[i] == d[i].0
  {
    if d == [] then [] else [d[0].0] + Keys(d[1..])
  }

  /** The keys of a non-empty dict are those of its front and its last key. */
  lemma KeysStep<V>(d: seq<(string, V)>)
    requires d != []
    ensures forall k :: k in Keys(d) <==> k in Keys(d[..|d| - 1]) || k == d[|d| - 1].0
  {
    var n := |d| - 1;
    var all, front := Keys(d), Keys(d[..n]);
    assert all == front + [d[n].0] by {
      forall i | 0 <= i < |all|
        ensures all[i] == (front + [d[n].0])[i]
      {
        if i < n { assert front[i] == d[..n][i].0; }
      }
    }
  }

  /** The map after storing each pair of `d` in order: a later pair overwrites an earlier one with the same key. */
  function Loaded<V>(m: map<string, V>, d: seq<(string, V)>): map<string, V> {
    if d == [] then m else Loaded(m, d[..|d| - 1])[d[|d| - 1].0 := d[|d| - 1].1]
  }

  /** The keys after loading are the old keys and the dict's keys. */
  lemma {:induction false} LoadedKeys<V>(m: map<string, V>, d: seq<(string, V)>)
    ensures forall k :: k in Loaded(m, d) <==> k in m || k in Keys(d)
  {
    if d != [] {
      var n := |d| - 1;
      LoadedKeys(m, d[..n]);
      KeysStep(d);
    }
  }

  /** A key the dict does not mention keeps its old value. */
  lemma {:induction false} LoadedUntouched<V>(m: map<string, V>, d: seq<(string, V)>, k: string)
    requires k in m && forall i :: 0 <= i < |d| ==> d[i].0 != k
    ensures k in Loaded(m, d) && Loaded(m, d)[k] == m[k]
  {
    if d != [] {
      LoadedUntouched(m, d[..|d| - 1], k);
    }
  }

  /** The key order after storing each pair of `d`: a key not yet present is appended, a present one keeps its place. */
  function LoadedOrder<V>(order: seq<string>, d: seq<(string, V)>): seq<string> {
    if d == [] then order
    else
      var o := LoadedOrder(order, d[..|d| - 1]);
      if d[|d| - 1].0 in o then o else o + [d[|d| - 1].0]
  }

  /** Loading only appends: the old order is a prefix, and the order holds exactly the old keys and the dict's keys. */
  lemma {:induction false} LoadedOrderExtends<V>(order: seq<string>, d: seq<(string, V)>)
    ensures |order| <= |LoadedOrder(order, d)| && LoadedOrder(order, d)[..|order|] == order
    ensures forall k :: k in LoadedOrder(order, d) <==> k in order || k in Keys(d)
  {
    if d != [] {
      var n := |d| - 1;
      var o := LoadedOrder(order, d[..n]);
      LoadedOrderExtends(order, d[..n]);
      if d[n].0 !in o {
        assert (o + [d[n].0])[..|order|] == o[..|order|];
      }
      KeysStep(d);
    }
  }

  /** Loading keeps a duplicate-free order duplicate-free, whatever the dict repeats. */
  lemma {:induction false} LoadedOrderDistinct<V>(order: seq<string>, d: seq<(string, V)>)
    requires Distinct(order)
    ensures Distinct(LoadedOrder(order, d))
  {
    if d != [] {
      var n := |d| - 1;
      var o := LoadedOrder(order, d[..n]);
      LoadedOrderDistinct(order, d[..n]);
      if d[n].0 !in o {
        var o' := o + [d[n].0];
        forall i, j | 0 <= i < j < |o'|
          ensures o'[i] != o'[j]
        {
          if j == |o| {
            assert o'[i] == o[i];
          }
        }
      }
    }
  }

  /** No key occurs twice in the dict, as in any Python dict. */
  predicate DistinctKeys<V>(d: seq<(string, V)>) {
    forall i, j :: 0 <= i < j < |d| ==> d[i].0 != d[j].0
  }

  /** With distinct keys, every key of the dict ends up with its own value. */
  lemma {:induction false} LoadedValues<V>(m: map<string, V>, d: seq<(string, V)>)
    requires DistinctKeys(d)
    ensures forall i :: 0 <= i < |d| ==> d[i].0 in Loaded(m, d) && Loaded(m, d)[d[i].0] == d[i].1
  {
    if d != [] {
      var n := |d| - 1;
      var front := d[..n];
      assert DistinctKeys(front) by {
        forall i, j | 0 <= i < j < n
          ensures front[i].0 != front[j].0
        {
          assert front[i] == d[i] && front[j] == d[j];
        }
      }
      LoadedValues(m, front);
      forall i | 0 <= i < |d|
        ensures d[i].0 in Loaded(m, d) && Loaded(m, d)[d[i].0] == d[i].1
      {
        if i < n {
          assert front[i] == d[i];
          assert d[i].0 != d[n].0;
        }
      }
    }
  }

  /** Whatever the keys, every key of the dict ends up with the value of one of its pairs. */
  lemma {:induction false} LoadedFromPairs<V>(m: map<string, V>, d: seq<(string, V)>, k: string)
    requires exists i :: 0 <= i < |d| && d[i].0 == k
    ensures k in Loaded(m, d)
    ensures exists i :: 0 <= i < |d| && d[i] == (k, Loaded(m, d)[k])
  {
    var n := |d| - 1;
    if d[n].0 == k {
      assert d[n] == (k, Loaded(m, d)[k]);
    } else {
      var i :| 0 <= i < |d| && d[i].0 == k;
      assert i < n && d[..n][i].0 == k;
      LoadedFromPairs(m, d[..n], k);
      var j :| 0 <= j < n && d[..n][j] == (k, Loaded(m, d[..n])[k]);
      assert d[j] == (k, Loaded(m, d)[k]);
    }
  }

  class FishingPoles {
    /** The keys in insertion order. */
    var order: seq<string>
    var poles: map<string, FishingPole>

    ghost predicate Valid()
      reads this
    {
      Distinct(order) && (forall k :: k in order <==> k in poles)
    }

    constructor ()
      ensures Valid() && order == [] && poles == map[]
    {
      order := [];
      poles := map[];
    }

    /** Stores `pole` under `key`; an existing key is overwritten in place and keeps its position. */
    method AddPole(key: string, pole: FishingPole)
      requires Valid()
      modifies this
      ensures Valid()
      ensures poles == old(poles)[key := pole]
      ensures order == if key in old(poles) then old(order) else old(order) + [key]
      ensures GetPole(key) == pole
    {
      if key !in poles {
        order := order + [key];
      }
      poles := poles[key := pole];
    }

    /** The pole stored under `key`, or Paper when there is none. */
    function GetPole(key: string): (r: FishingPole)
      reads this
      ensures key in poles ==> r == poles[key]
      ensures key !in poles ==> r == Paper
    {
      if key in poles then poles[key] else Paper
    }

    /** The first pole in insertion order with id `poleId`, or Paper when there is none. */
    method GetPoleById(poleId: int) returns (r: FishingPole)
      requires Valid()
      ensures forall i ::
        (0 <= i < |order| && poles[order[i]].id == poleId && forall j :: 0 <= j < i ==> poles[order[j]].id != poleId)
        ==> r == poles[order[i]]
      ensures (forall i :: 0 <= i < |order| ==> poles[order[i]].id != poleId) ==> r == Paper
    {
      for i := 0 to |order|
        invariant forall j :: 0 <= j < i ==> poles[order[j]].id != poleId
      {
        var pole := poles[order[i]];
        if pole.id == poleId {
          return pole;
        }
      }
      return Paper;
    }

    /** Loads every (key, attributes) pair of a dict in order. */
    method AddPolesFromDict(d: seq<(string, FishingPole)>)
      requires Valid()
      modifies this
      ensures Valid()
      ensures poles == Loaded(old(poles), d)
      ensures order == LoadedOrder(old(order), d)
    {
      for i := 0 to |d|
        invariant Valid()
        invariant poles == Loaded(old(poles), d[..i])
        invariant order == LoadedOrder(old(order), d[..i])
      {
        assert d[..i + 1][..i] == d[..i];
        AddPole(d[i].0, d[i].1);
      }
      assert d[..|d|] == d;
    }
  }

  class FishCollection {
    /** The keys in insertion order. */
    var order: seq<string>
    var fish: map<string, Fish>

    ghost predicate Valid()
      reads this
    {
      Distinct(order) && (forall k :: k in order <==> k in fish)
    }

    constructor ()
      ensures Valid() && order == [] && fish == map[]
    {
      order := [];
      fish := map[];
    }

    method AddFish(key: string, f: Fish)
      requires Valid()
      modifies this
      ensures Valid()
      ensures fish == old(fish)[key := f]
      ensures order == if key in old(fish) then old(order) else old(order) + [key]
      ensures GetFish(key) == Some(f)
    {
      if key !in fish {
        order := order + [key];
      }
      fish := fish[key := f];
    }

    /** The fish stored under `key`, or None. */
    function GetFish(key: string): (r: Option<Fish>)
      reads this
      ensures key in fish ==> r == Some(fish[key])
      ensures key !in fish ==> r == None
    {
      if key in fish then Some(fish[key]) else None
    }

    /** The first fish in insertion order with id `fishId`, or None. */
    method GetFishById(fishId: int) returns (r: Option<Fish>)
      requires Valid()
      ensures forall i ::
        (0 <= i < |order| && fish[order[i]].id == fishId && forall j :: 0 <= j < i ==> fish[order[j]].id != fishId)
        ==> r == Some(fish[order[i]])
      ensures r.None? <==> forall i :: 0 <= i < |order| ==> fish[order[i]].id != fishId
    {
      for i := 0 to |order|
        invariant forall j :: 0 <= j < i ==> fish[order[j]].id != fishId
      {
        var f := fish[order[i]];
        if f.id == fishId {
          return Some(f);
        }
      }
      return None;
    }

    /** Loads every (key, attributes) pair of a dict in order, each as a Common fish. */
    method AddFishFromDict(d: seq<(string, FishAttrs)>)
      requires Valid()
      modifies this
      ensures Valid()
      ensures fish == Loaded(old(fish), Entries(d))
      ensures order == LoadedOrder(old(order), d)
    {
      for i := 0 to |d|
        invariant Valid()
        invariant fish == Loaded(old(fish), Entries(d)[..i])
        invariant order == LoadedOrder(old(order), d[..i])
      {
        assert Entries(d)[..i + 1][..i] == Entries(d)[..i];
        assert d[..i + 1][..i] == d[..i];
        AddFish(d[i].0, FromAttrs(d[i].1));
      }
      assert Entries(d)[..|d|] == Entries(d);
      assert d[..|d|] == d;
    }
  }

  /** The dict's pairs with each attribute record made into a Common fish. */
  function Entries(d: seq<(string, FishAttrs)>): (r: seq<(string, Fish)>)
    ensures |r| == |d| && forall i :: 0 <= i < |d| ==> r[i] == (d[i].0, FromAttrs(d[i].1))
  {
    seq(|d|, i requires 0 <= i < |d| => (d[i].0, FromAttrs(d[i].1)))
  }

  /** Every fish the dict loads is Common, whatever its attributes and even with repeated keys. */
  lemma LoadedFishAreCommon(m: map<string, Fish>, d: seq<(string, FishAttrs)>, k: string)
    requires exists i :: 0 <= i < |d| && d[i].0 == k
    ensures k in Loaded(m, Entries(d)) && Loaded(m, Entries(d))[k].rarity == Common
  {
    var i :| 0 <= i < |d| && d[i].0 == k;
    assert Entries(d)[i].0 == k;
    LoadedFromPairs(m, Entries(d), k);
  }

  /** `Fish(rarity=FishRarities.common, **attrs)`. */
  function FromAttrs(a: FishAttrs): (f: Fish)
    ensures f.rarity == Common && f.id == a.id && f.name == a.name
  {
    Fish(a.id, a.name, a.weight, a.minLevel, a.maxLevel, a.value, Common)
  }
}
