/** The behaviour of FontManager's typeface cache as functions of the cache
    and of the host, and what holds of it over any sequence of requests. */
module FontCache {

  import opened Wrappers
  import opened Android
  import Decimal

  type Cache = map<string, Typeface>

  /** `m'` keeps every entry of `m`: no key removed, no value replaced. */
  ghost predicate Extends(m: Cache, m': Cache) {
    m.Keys <= m'.Keys && forall k :: k in m ==> m'[k] == m[k]
  }

  /** Every cached typeface decoded from `store` was allocated by one of
      its first `calls` decoder calls, and no typeface is cached under two
      paths. */
  ghost predicate WellFormed(cache: Cache, store: AssetManager, calls: nat) {
    && (forall p :: p in cache && cache[p].store == store ==> cache[p].serial < calls)
    && (forall p, q :: p in cache && q in cache && p != q ==> cache[p] != cache[q])
  }

  /** What a call returns, with the cache and decoder-call count after it. */
  datatype Lookup = Lookup(result: Result<Typeface>, cache: Cache, calls: nat)

  /** getTypeface(context, path): the cached typeface on a hit; on a miss one
      decoder call, whose typeface is cached under `path` and returned, or
      whose exception propagates before anything is cached. */
  function Fetch(cache: Cache, store: AssetManager, calls: nat, path: string): (r: Lookup)
    // a hit returns the stored handle, calls no decoder and changes nothing
    ensures path in cache ==> r == Lookup(Ok(cache[path]), cache, calls)
    // a miss calls the decoder exactly once and returns what it returns
    ensures path !in cache ==> r.result == CreateFromAsset(store, calls, path) && r.calls == calls + 1
    // whatever is returned is what the cache now holds under `path`
    ensures r.result.Ok? ==> path in r.cache && r.cache[path] == r.result.value
    // a failure inserts nothing
    ensures r.result.Err? ==> r.cache == cache
    // at most the entry for `path` changes, and the cache never shrinks
    ensures Extends(cache, r.cache) && r.cache.Keys <= cache.Keys + {path}
  {
    if path in cache then Lookup(Ok(cache[path]), cache, calls)
    else
      var decoded := CreateFromAsset(store, calls, path);
      if decoded.Err? then Lookup(decoded, cache, calls + 1)
      else Lookup(decoded, cache[path := decoded.value], calls + 1)
  }

  /** "String resource id " + pathResId + " not found". */
  function ResourceNotFoundMessage(id: int32): (m: string)
    ensures |m| > |MessagePrefix| + |MessageSuffix|
    ensures m[..|MessagePrefix|] == MessagePrefix
    ensures m[|m| - |MessageSuffix|..] == MessageSuffix
  {
    MessagePrefix + Decimal.IntToString(id as int) + MessageSuffix
  }

  const MessagePrefix := "String resource id "
  const MessageSuffix := " not found"

  /** The resource id a ResourceNotFoundMessage names, if `m` is one. */
  function ResourceIdOfMessage(m: string): Option<int>
  {
    if |m| >= |MessagePrefix| + |MessageSuffix|
       && m[..|MessagePrefix|] == MessagePrefix
       && m[|m| - |MessageSuffix|..] == MessageSuffix
    then Decimal.ParseInt(m[|MessagePrefix|..|m| - |MessageSuffix|])
    else None
  }

  /** The message of the id overload's exception identifies the id. */
  lemma ResourceNotFoundMessageNamesId(id: int32)
    ensures ResourceIdOfMessage(ResourceNotFoundMessage(id)) == Some(id as int)
  {
    var m := ResourceNotFoundMessage(id);
    assert m[|MessagePrefix|..|m| - |MessageSuffix|] == Decimal.IntToString(id as int);
    Decimal.IntToStringRoundTrip(id as int);
  }

  lemma ResourceNotFoundMessageInjective(a: int32, b: int32)
    requires ResourceNotFoundMessage(a) == ResourceNotFoundMessage(b)
    ensures a == b
  {
    var ma, mb := ResourceNotFoundMessage(a), ResourceNotFoundMessage(b);
    assert ma[|MessagePrefix|..|ma| - |MessageSuffix|] == Decimal.IntToString(a as int);
    assert mb[|MessagePrefix|..|mb| - |MessageSuffix|] == Decimal.IntToString(b as int);
    Decimal.IntToStringInjective(a as int, b as int);
  }

  /** getTypeface(context, pathResId): resolve the string resource and look
      the path up; the catch turns Resources.NotFoundException, and only
      that exception, into a RuntimeException naming the id. */
  function FetchById(cache: Cache, store: AssetManager, calls: nat,
                     strings: map<int32, string>, id: int32): (r: Lookup)
    // an unresolvable id: an exception naming the id, and nothing changes
    ensures id !in strings ==>
      r == Lookup(Err(RuntimeException(ResourceNotFoundMessage(id))), cache, calls)
    // a resolvable id: exactly the path overload on the resolved path
    ensures id in strings ==> r == Fetch(cache, store, calls, strings[id])
  {
    var attempt :=
      match GetString(strings, id)
      case Err(e) => Lookup(Err(e), cache, calls)
      case Ok(path) => Fetch(cache, store, calls, path);
    if attempt.result.Err? && attempt.result.error.NotFoundException? then
      attempt.(result := Err(RuntimeException(ResourceNotFoundMessage(id))))
    else
      attempt
  }

  /** A second request for the same path, right after the first succeeded,
      returns the identical typeface without a decoder call or any change. */
  lemma FetchIdempotent(cache: Cache, store: AssetManager, calls: nat, path: string)
    ensures var first := Fetch(cache, store, calls, path);
            first.result.Ok? ==>
              Fetch(first.cache, store, first.calls, path) == first
  {
  }

  /** Each call keeps the cache well formed: a newly decoded typeface is
      distinct from every typeface cached before it. */
  lemma FetchKeepsWellFormed(cache: Cache, store: AssetManager, calls: nat, path: string)
    requires WellFormed(cache, store, calls)
    ensures var r := Fetch(cache, store, calls, path); WellFormed(r.cache, store, r.calls)
  {
  }

  /** The cache is shared by every context, and each context decodes through
      its own asset store. A lookup through one store keeps the cache well
      formed for every other store: the typeface it may add was decoded by
      its own store, so it differs from every typeface another store made. */
  lemma FetchKeepsOtherStoresWellFormed(cache: Cache, store: AssetManager, calls: nat, path: string,
                                        other: AssetManager, otherCalls: nat)
    requires store != other
    requires WellFormed(cache, store, calls) && WellFormed(cache, other, otherCalls)
    ensures var r := Fetch(cache, store, calls, path); WellFormed(r.cache, other, otherCalls)
  {
  }

  /** The results of a sequence of getTypeface calls on the one shared
      FontManager, in order, and the cache and decoder-call count after them. */
  datatype Trace = Trace(results: seq<Result<Typeface>>, cache: Cache, calls: nat)

  function Replay(cache: Cache, store: AssetManager, calls: nat, paths: seq<string>): (t: Trace)
    ensures |t.results| == |paths|
    ensures Extends(cache, t.cache)
    ensures calls <= t.calls
    decreases |paths|
  {
    if paths == [] then Trace([], cache, calls)
    else
      var before := Replay(cache, store, calls, paths[..|paths| - 1]);
      var step := Fetch(before.cache, store, before.calls, paths[|paths| - 1]);
      Trace(before.results + [step.result], step.cache, step.calls)
  }

  /** A trace's first `k` results are those of its first `k` requests. */
  lemma {:induction false} ReplayPrefix(cache: Cache, store: AssetManager, calls: nat,
                                        paths: seq<string>, k: nat)
    requires k <= |paths|
    ensures Replay(cache, store, calls, paths[..k]).results
            == Replay(cache, store, calls, paths).results[..k]
    decreases |paths|
  {
    if k < |paths| {
      var front := paths[..|paths| - 1];
      ReplayPrefix(cache, store, calls, front, k);
      assert front[..k] == paths[..k];
      var t := Replay(cache, store, calls, paths);
      assert t.results[..k] == Replay(cache, store, calls, front).results[..k];
    } else {
      assert paths[..k] == paths;
    }
  }

  /** After any trace, every handle it returned is still the one cached
      under the path it was returned for. */
  lemma {:induction false} ReplayCachesResults(cache: Cache, store: AssetManager, calls: nat,
                                               paths: seq<string>)
    ensures var t := Replay(cache, store, calls, paths);
            forall i :: 0 <= i < |paths| && t.results[i].Ok? ==>
              paths[i] in t.cache && t.cache[paths[i]] == t.results[i].value
    decreases |paths|
  {
    if paths != [] {
      var front := paths[..|paths| - 1];
      ReplayCachesResults(cache, store, calls, front);
      var before := Replay(cache, store, calls, front);
      var t := Replay(cache, store, calls, paths);
      forall i | 0 <= i < |paths| && t.results[i].Ok?
        ensures paths[i] in t.cache && t.cache[paths[i]] == t.results[i].value
      {
        if i < |front| {
          assert t.results[i] == before.results[i];
          assert front[i] == paths[i];
        }
      }
    }
  }

  /** Memoisation over a whole trace: once a path has been served, every
      later request for it returns the identical typeface, and does so
      without calling the decoder. */
  lemma ReplayMemoises(cache: Cache, store: AssetManager, calls: nat,
                       paths: seq<string>, i: nat, j: nat)
    requires i < j < |paths| && paths[i] == paths[j]
    requires Replay(cache, store, calls, paths).results[i].Ok?
    ensures Replay(cache, store, calls, paths).results[j]
            == Replay(cache, store, calls, paths).results[i]
    ensures Replay(cache, store, calls, paths[..j + 1]).calls
            == Replay(cache, store, calls, paths[..j]).calls
  {
    var t := Replay(cache, store, calls, paths);
    var upTo := paths[..j + 1];
    assert upTo[..j] == paths[..j];
    var before := Replay(cache, store, calls, paths[..j]);
    ReplayPrefix(cache, store, calls, paths, j + 1);
    ReplayPrefix(cache, store, calls, paths, j);
    ReplayCachesResults(cache, store, calls, paths[..j]);
    assert before.results[i] == t.results[i];
    assert paths[..j][i] == paths[i];
    assert upTo[j] == paths[j];
  }

  /** A path whose request failed holds no decodable font and is never
      cached by the trace, so every later request for it fails too. */
  lemma {:induction false} ReplayFailureNotCached(cache: Cache, store: AssetManager, calls: nat,
                                                  paths: seq<string>)
    ensures var t := Replay(cache, store, calls, paths);
            forall i :: 0 <= i < |paths| && t.results[i].Err? ==>
              paths[i] !in store.fonts && paths[i] !in t.cache
    decreases |paths|
  {
    if paths != [] {
      var front := paths[..|paths| - 1];
      ReplayFailureNotCached(cache, store, calls, front);
      var before := Replay(cache, store, calls, front);
      var t := Replay(cache, store, calls, paths);
      forall i | 0 <= i < |paths| && t.results[i].Err?
        ensures paths[i] !in store.fonts && paths[i] !in t.cache
      {
        if i < |front| {
          assert t.results[i] == before.results[i];
          assert front[i] == paths[i];
        }
      }
    }
  }

  /** A trace caches no path beyond the ones cached before it and the ones
      that hold a decodable font. */
  lemma {:induction false} ReplayOnlyCachesFonts(cache: Cache, store: AssetManager, calls: nat,
                                                 paths: seq<string>)
    ensures Replay(cache, store, calls, paths).cache.Keys <= cache.Keys + store.fonts
    decreases |paths|
  {
    if paths != [] {
      ReplayOnlyCachesFonts(cache, store, calls, paths[..|paths| - 1]);
    }
  }

  /** A trace starting from a well-formed cache keeps it well formed. */
  lemma {:induction false} ReplayKeepsWellFormed(cache: Cache, store: AssetManager, calls: nat,
                                                 paths: seq<string>)
    requires WellFormed(cache, store, calls)
    ensures var t := Replay(cache, store, calls, paths); WellFormed(t.cache, store, t.calls)
    decreases |paths|
  {
    if paths != [] {
      var front := paths[..|paths| - 1];
      ReplayKeepsWellFormed(cache, store, calls, front);
      var before := Replay(cache, store, calls, front);
      FetchKeepsWellFormed(before.cache, store, before.calls, paths[|paths| - 1]);
    }
  }

  /** Requests for two different paths that both succeed return two
      different typefaces. */
  lemma ReplayDistinctPathsDistinctTypefaces(cache: Cache, store: AssetManager, calls: nat,
                                             paths: seq<string>, i: nat, j: nat)
    requires WellFormed(cache, store, calls)
    requires i < |paths| && j < |paths| && paths[i] != paths[j]
    requires Replay(cache, store, calls, paths).results[i].Ok?
    requires Replay(cache, store, calls, paths).results[j].Ok?
    ensures Replay(cache, store, calls, paths).results[i].value
            != Replay(cache, store, calls, paths).results[j].value
  {
    ReplayKeepsWellFormed(cache, store, calls, paths);
    ReplayCachesResults(cache, store, calls, paths);
  }
}
