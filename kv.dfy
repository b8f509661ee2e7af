/**
 * The generic key/value helpers over the Redis client (src/lib/redis.ts),
 * modelled as operations on the store's contents: a map from keys to string
 * values. The client singleton and its connection are not modelled.
 */
module Kv {
  import opened Optional
  import opened Text

  /**
   * The `*`/`?` subset of Redis glob matching as `KEYS` applies it: `*`
   * matches any run of characters, `?` any one character, every other
   * character itself. Redis also reads `[...]` classes and `\` escapes;
   * here those characters match only themselves. The patterns the core
   * builds are a literal prefix followed by `*`.
   */
  predicate GlobMatch(p: string, k: string)
    decreases |p| + |k|
  {
    if p == [] then k == []
    else if p[0] == '*' then GlobMatch(p[1..], k) || (k != [] && GlobMatch(p, k[1..]))
    else k != [] && (p[0] == '?' || p[0] == k[0]) && GlobMatch(p[1..], k[1..])
  }

  /** A pattern with no wildcard character. */
  predicate Literal(p: string)
  {
    forall i :: 0 <= i < |p| ==> p[i] != '*' && p[i] != '?'
  }

  lemma {:induction false} StarMatchesAll(k: string)
    ensures GlobMatch("*", k)
    decreases |k|
  {
    if k != [] {
      StarMatchesAll(k[1..]);
    }
  }

  /** The pattern `p*` selects exactly the keys that start with the literal `p`. */
  lemma {:induction false} PrefixPattern(p: string, k: string)
    requires Literal(p)
    ensures GlobMatch(p + "*", k) <==> StartsWith(k, p)
    decreases |p|
  {
    if p == [] {
      assert p + "*" == "*";
      StarMatchesAll(k);
    } else {
      assert (p + "*")[0] == p[0] && (p + "*")[1..] == p[1..] + "*";
      if k != [] {
        PrefixPattern(p[1..], k[1..]);
        assert StartsWith(k, p) <==> k[0] == p[0] && StartsWith(k[1..], p[1..]) by {
          if k[0] == p[0] && StartsWith(k[1..], p[1..]) {
            assert k[..|p|] == [k[0]] + k[1..][..|p| - 1];
            assert p == [p[0]] + p[1..];
          }
          if StartsWith(k, p) {
            assert k[1..][..|p| - 1] == k[..|p|][1..];
          }
        }
      }
    }
  }

  /** The key a pattern read files a value under: `keyTransform(key)` when given, else the key. */
  function Rename(transform: Option<string -> string>, key: string): string
  {
    if transform.Some? then transform.value(key) else key
  }

  /** Whether `transform` sends distinct keys of `keys` to distinct names. */
  ghost predicate InjectiveOn(transform: Option<string -> string>, keys: set<string>)
  {
    forall k, k' :: k in keys && k' in keys && Rename(transform, k) == Rename(transform, k') ==> k == k'
  }

  class KvStore {
    /** The keys present in the store and their string values. */
    var entries: map<string, string>

    constructor ()
      ensures entries == map[]
    {
      entries := map[];
    }

    /** The keys `KEYS pattern` returns. */
    function MatchingKeys(pattern: string): (keys: set<string>)
      reads this
      ensures forall k :: k in keys <==> k in entries && GlobMatch(pattern, k)
    {
      set k | k in entries && GlobMatch(pattern, k)
    }

    /** `save`: `SET key value`. */
    method Save(key: string, value: string)
      modifies this
      ensures entries == old(entries)[key := value]
    {
      entries := entries[key := value];
    }

    /** `read`: `GET key`, `None` standing for the client's `null`. */
    method Read(key: string) returns (r: Option<string>)
      ensures r.None? <==> key !in entries
      ensures r.Some? ==> r.value == entries[key]
    {
      if key in entries {
        r := Some(entries[key]);
      } else {
        r := None;
      }
    }

    /** `remove`: `DEL key`; deleting an absent key changes nothing. */
    method Remove(key: string)
      modifies this
      ensures entries == old(entries) - {key}
    {
      entries := entries - {key};
    }

    /** `exists`: `EXISTS key` answered 1. */
    method Exists(key: string) returns (b: bool)
      ensures b <==> key in entries
    {
      b := key in entries;
    }

    /**
     * `readByPattern`: for each key `KEYS pattern` returns, in no particular
     * order, `GET` it and keep a truthy (non-empty) value under the renamed key.
     */
    method ReadByPattern(pattern: string, transform: Option<string -> string>)
      returns (result: map<string, string>)
      ensures MatchingKeys(pattern) == {} ==> result == map[]
      ensures forall k :: k in MatchingKeys(pattern) && entries[k] != [] ==> Rename(transform, k) in result
      ensures forall t :: t in result ==>
        exists k :: k in MatchingKeys(pattern) && entries[k] != [] && Rename(transform, k) == t && result[t] == entries[k]
      ensures InjectiveOn(transform, MatchingKeys(pattern)) ==>
        forall k :: k in MatchingKeys(pattern) && entries[k] != [] ==> result[Rename(transform, k)] == entries[k]
    {
      var keys := MatchingKeys(pattern);
      result := map[];
      if keys == {} {
        return;
      }
      var pending := keys;
      while pending != {}
        invariant pending <= keys
        invariant forall k :: k in keys - pending && entries[k] != [] ==> Rename(transform, k) in result
        invariant forall t :: t in result ==>
          exists k :: k in keys - pending && entries[k] != [] && Rename(transform, k) == t && result[t] == entries[k]
        decreases pending
      {
        var key :| key in pending;
        var value := entries[key];
        if value != [] {
          result := result[Rename(transform, key) := value];
        }
        pending := pending - {key};
      }
    }

    /** `removeByPattern`: `DEL` every key `KEYS pattern` returns, and nothing else. */
    method RemoveByPattern(pattern: string)
      modifies this
      ensures entries.Keys == old(entries).Keys - old(MatchingKeys(pattern))
      ensures forall k :: k in entries ==> entries[k] == old(entries)[k]
    {
      var keys := MatchingKeys(pattern);
      if keys != {} {
        entries := entries - keys;
      }
    }
  }
}
