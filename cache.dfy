/**
 * The in-memory settings cache of core/cache.py. Its containers are class
 * attributes in the source, so every instance shares one state: the model
 * is a single object, DbCache, whose fields are those containers.
 *
 * The list operations are specified on values first (Lookup, Appended,
 * RemoveFirst, RemovedAt); the lemmas about them are what the cache
 * promises, and each method ties its field to one of them.
 */
module Cache {

  /** `m[k]` when present, otherwise the empty list (`get_opted_out`'s fallback). */
  function Lookup<K, V>(m: map<K, seq<V>>, k: K): (r: seq<V>)
    ensures k !in m ==> r == []
    ensures k in m ==> r == m[k]
  {
    if k in m then m[k] else []
  }

  /**
   * The map after `m[k].append(v)`, where a missing key is first created with
   * an empty list (the `except KeyError: update({k: [v]})` path).
   */
  function Appended<K, V>(m: map<K, seq<V>>, k: K, v: V): (r: map<K, seq<V>>)
    ensures r.Keys == m.Keys + {k}
  {
    m[k := Lookup(m, k) + [v]]
  }

  /** Appending under one key leaves every other key's list as it was. */
  lemma AppendedLookup<K, V>(m: map<K, seq<V>>, k: K, v: V, j: K)
    ensures Lookup(Appended(m, k, v), j) == if j == k then Lookup(m, k) + [v] else Lookup(m, j)
  {
  }

  /** Index of the first occurrence of `x` in `s`, or |s| when there is none. */
  function FirstIndex<T(==)>(s: seq<T>, x: T): (i: nat)
    ensures i <= |s|
    ensures i < |s| ==> s[i] == x
    ensures forall j :: 0 <= j < i ==> s[j] != x
    ensures i == |s| <==> x !in s
  {
    if s == [] then 0 else if s[0] == x then 0 else 1 + FirstIndex(s[1..], x)
  }

  /** Python's `list.remove(x)` when it succeeds; the list itself when `x` is absent. */
  function RemoveFirst<T(==)>(s: seq<T>, x: T): (r: seq<T>)
  {
    if s == [] then []
    else if s[0] == x then s[1..]
    else [s[0]] + RemoveFirst(s[1..], x)
  }

  /** Only the first occurrence is cut out; everything else keeps its order. */
  lemma {:induction false} RemoveFirstSplits<T>(s: seq<T>, x: T)
    ensures x in s ==> RemoveFirst(s, x) == s[..FirstIndex(s, x)] + s[FirstIndex(s, x) + 1..]
    ensures x !in s ==> RemoveFirst(s, x) == s
  {
    if s != [] && s[0] != x {
      RemoveFirstSplits(s[1..], x);
      if x in s {
        assert x in s[1..];
        var i := FirstIndex(s[1..], x);
        assert s[..i + 1] == [s[0]] + s[1..][..i];
        assert s[i + 2..] == s[1..][i + 1..];
      }
    }
  }

  /** The count of `x` drops by one when present, and no other value's count changes. */
  lemma {:induction false} RemoveFirstCount<T>(s: seq<T>, x: T)
    ensures multiset(RemoveFirst(s, x)) == multiset(s) - multiset{x}
    ensures x in s ==> |RemoveFirst(s, x)| == |s| - 1
  {
    if s != [] {
      assert s == [s[0]] + s[1..];
      if s[0] != x {
        RemoveFirstCount(s[1..], x);
      }
    }
  }

  /** Appending then removing the same value gives back a list with the same contents. */
  lemma {:induction false} AppendThenRemove<T>(s: seq<T>, x: T)
    ensures multiset(RemoveFirst(s + [x], x)) == multiset(s)
    ensures x !in s ==> RemoveFirst(s + [x], x) == s
  {
    RemoveFirstCount(s + [x], x);
    if x !in s {
      RemoveFirstSplits(s + [x], x);
      assert FirstIndex(s + [x], x) == |s|;
      assert (s + [x])[..|s|] == s;
    }
  }

  /**
   * The map after `m[k].remove(v)`: an absent key leaves the map as it is
   * (the `except KeyError` path) and an absent value leaves the list as it is
   * (the `except ValueError` path).
   */
  function RemovedAt<K, V(==)>(m: map<K, seq<V>>, k: K, v: V): (r: map<K, seq<V>>)
    ensures r.Keys == m.Keys
    ensures forall j :: j in m && j != k ==> r[j] == m[j]
  {
    if k in m then m[k := RemoveFirst(m[k], v)] else m
  }

  class DbCache {
    var prefixes: map<int, seq<string>>
    var optedOut: map<int, seq<string>>
    var autoDownloads: seq<int>
    var poketwoGuilds: seq<int>
    var autoReactionGuilds: seq<int>
    var nsfwCovers: seq<int>
    var pinboard: map<int, int>

    constructor ()
      ensures prefixes == map[] && optedOut == map[] && pinboard == map[]
      ensures autoDownloads == [] && poketwoGuilds == [] && autoReactionGuilds == [] && nsfwCovers == []
    {
      prefixes := map[];
      optedOut := map[];
      autoDownloads := [];
      poketwoGuilds := [];
      autoReactionGuilds := [];
      nsfwCovers := [];
      pinboard := map[];
    }

    /** Appends `prefix` to the guild's list, creating the list when missing, and returns it. */
    method AddPrefix(guildId: int, prefix: string) returns (r: seq<string>)
      modifies this`prefixes
      ensures prefixes == Appended(old(prefixes), guildId, prefix)
      ensures r == prefixes[guildId] == Lookup(old(prefixes), guildId) + [prefix]
    {
      if guildId in prefixes {
        prefixes := prefixes[guildId := prefixes[guildId] + [prefix]];
      } else {
        assert Lookup(prefixes, guildId) + [prefix] == [prefix];
        prefixes := prefixes[guildId := [prefix]];
      }
      r := prefixes[guildId];
    }

    /**
     * Removes the first occurrence of `prefix`. An unknown guild returns []
     * and creates nothing; an unknown prefix returns the list unchanged.
     */
    method RemovePrefix(guildId: int, prefix: string) returns (r: seq<string>)
      modifies this`prefixes
      ensures prefixes == RemovedAt(old(prefixes), guildId, prefix)
      ensures guildId !in old(prefixes) ==> r == [] && prefixes == old(prefixes)
      ensures guildId in old(prefixes) ==> r == prefixes[guildId] == RemoveFirst(old(prefixes)[guildId], prefix)
    {
      if guildId !in prefixes {
        return [];
      }
      prefixes := prefixes[guildId := RemoveFirst(prefixes[guildId], prefix)];
      r := prefixes[guildId];
    }

    /** Sets (or overwrites) the guild's Pinboard channel. */
    method AddPinboard(guildId: int, channelId: int)
      modifies this`pinboard
      ensures pinboard == old(pinboard)[guildId := channelId]
    {
      pinboard := pinboard[guildId := channelId];
    }

    /**
     * Deletes the guild's Pinboard entry; `channelId` is not used. A guild
     * with no entry raises KeyError, because the handler indexes the missing
     * key again.
     */
    method RemovePinboard(guildId: int, channelId: int) returns (keyError: bool)
      modifies this`pinboard
      ensures keyError <==> guildId !in old(pinboard)
      ensures pinboard == old(pinboard) - {guildId}
      ensures guildId !in pinboard
    {
      keyError := guildId !in pinboard;
      pinboard := pinboard - {guildId};
    }

    method AddOptOut(objectId: int, value: string) returns (r: seq<string>)
      modifies this`optedOut
      ensures optedOut == Appended(old(optedOut), objectId, value)
      ensures r == optedOut[objectId] == Lookup(old(optedOut), objectId) + [value]
      ensures value in GetOptedOut(objectId)
    {
      if objectId in optedOut {
        optedOut := optedOut[objectId := optedOut[objectId] + [value]];
      } else {
        assert Lookup(optedOut, objectId) + [value] == [value];
        optedOut := optedOut[objectId := [value]];
      }
      r := optedOut[objectId];
    }

    method RemoveOptOut(objectId: int, value: string) returns (r: seq<string>)
      modifies this`optedOut
      ensures optedOut == RemovedAt(old(optedOut), objectId, value)
      ensures objectId !in old(optedOut) ==> r == [] && optedOut == old(optedOut)
      ensures objectId in old(optedOut) ==> r == optedOut[objectId] == RemoveFirst(old(optedOut)[objectId], value)
    {
      if objectId !in optedOut {
        return [];
      }
      optedOut := optedOut[objectId := RemoveFirst(optedOut[objectId], value)];
      r := optedOut[objectId];
    }

    /** Appends unconditionally: the same channel can be listed twice. */
    method AddAdl(channelId: int)
      modifies this`autoDownloads
      ensures autoDownloads == old(autoDownloads) + [channelId]
    {
      autoDownloads := autoDownloads + [channelId];
    }

    /** Removes one occurrence; an absent channel is a no-op. */
    method RemoveAdl(channelId: int)
      modifies this`autoDownloads
      ensures autoDownloads == RemoveFirst(old(autoDownloads), channelId)
      ensures channelId !in old(autoDownloads) ==> autoDownloads == old(autoDownloads)
    {
      RemoveFirstSplits(autoDownloads, channelId);
      autoDownloads := RemoveFirst(autoDownloads, channelId);
    }

    method AddPoketwo(guildId: int)
      modifies this`poketwoGuilds
      ensures poketwoGuilds == old(poketwoGuilds) + [guildId]
    {
      poketwoGuilds := poketwoGuilds + [guildId];
    }

    method RemovePoketwo(guildId: int)
      modifies this`poketwoGuilds
      ensures poketwoGuilds == RemoveFirst(old(poketwoGuilds), guildId)
      ensures guildId !in old(poketwoGuilds) ==> poketwoGuilds == old(poketwoGuilds)
    {
      RemoveFirstSplits(poketwoGuilds, guildId);
      poketwoGuilds := RemoveFirst(poketwoGuilds, guildId);
    }

    method AddReactionGuilds(guildId: int)
      modifies this`autoReactionGuilds
      ensures autoReactionGuilds == old(autoReactionGuilds) + [guildId]
    {
      autoReactionGuilds := autoReactionGuilds + [guildId];
    }

    method RemoveReactionGuilds(guildId: int)
      modifies this`autoReactionGuilds
      ensures autoReactionGuilds == RemoveFirst(old(autoReactionGuilds), guildId)
      ensures guildId !in old(autoReactionGuilds) ==> autoReactionGuilds == old(autoReactionGuilds)
    {
      RemoveFirstSplits(autoReactionGuilds, guildId);
      autoReactionGuilds := RemoveFirst(autoReactionGuilds, guildId);
    }

    /** The subject's opt-out list, or [] for an unknown id (nothing is inserted). */
    function GetOptedOut(objectId: int): (r: seq<string>)
      reads this
      ensures objectId in optedOut ==> r == optedOut[objectId]
      ensures objectId !in optedOut ==> r == []
    {
      Lookup(optedOut, objectId)
    }
  }

  /**
   * Adding a poketwo guild and then removing it twice: neither removal
   * raises, and the list ends with one occurrence of the guild fewer than
   * before (none fewer when it had none).
   */
  method PoketwoToggleScenario(c: DbCache, g: int)
    modifies c`poketwoGuilds
    ensures multiset(c.poketwoGuilds) == multiset(old(c.poketwoGuilds)) - multiset{g}
  {
    c.AddPoketwo(g);
    c.RemovePoketwo(g);
    ghost var afterFirst := c.poketwoGuilds;
    AppendThenRemove(old(c.poketwoGuilds), g);
    RemoveFirstCount(afterFirst, g);
    c.RemovePoketwo(g);
    assert g !in afterFirst ==> c.poketwoGuilds == afterFirst;
  }
}
