/** The keyed get-or-insert cache behind `TorchKeras.from_cache`
    (graphgallery/nn/models/torch_keras.py, lines 34-50).

    The cache is a dictionary from names to objects (a `BunchDict`, used here
    as a plain map; it may hold `None`).  A call passes keyword arguments
    `name=value`; for each, in order, the cached object is returned when one is
    present and not `None`, and otherwise the supplied value is stored and
    returned, after asserting that it is not `None`. */
module Cache {
  import opened Py

  /** One keyword argument `name=value` of a call. */
  datatype Kwarg<V> = Kwarg(name: string, value: Option<V>)

  /** The cache dictionary. */
  type Store<V> = map<string, Option<V>>

  /** What `from_cache` returns: `None` for no keywords, the bare object for
      one keyword, a tuple of objects for several. */
  datatype Returned<V> = NoneR | Single(value: V) | Many(values: seq<V>)

  /** The state reached after some of the keywords: the dictionary, the
      objects collected so far, and whether an assertion has failed. */
  datatype Fetched<V> = Fetched(cache: Store<V>, values: seq<V>, failed: bool)

  /** `self.cache.get(name, None) is not None`. */
  predicate Cached<V>(cache: Store<V>, name: string)
  {
    name in cache && cache[name].Some?
  }

  /** Python forbids repeating a keyword in one call. */
  predicate DistinctNames<V>(args: seq<Kwarg<V>>)
  {
    forall i, j :: 0 <= i < j < |args| ==> args[i].name != args[j].name
  }

  /** No entry of the dictionary is `None`. */
  ghost predicate NoneFree<V>(cache: Store<V>)
  {
    forall k :: k in cache ==> cache[k].Some?
  }

  /** The inner `get(name, value)` applied to one keyword; once an assertion
      has failed nothing further happens. */
  function Step<V>(p: Fetched<V>, kw: Kwarg<V>): (r: Fetched<V>)
    ensures p.failed ==> r == p
    ensures r.failed <==> p.failed || (!Cached(p.cache, kw.name) && kw.value.None?)
    ensures !r.failed ==>
      |r.values| == |p.values| + 1 && r.values[..|p.values|] == p.values &&
      Cached(r.cache, kw.name) && r.cache[kw.name] == Some(r.values[|p.values|])
    ensures Cached(p.cache, kw.name) ==> r.cache == p.cache
    ensures r.cache == p.cache || (!Cached(p.cache, kw.name) && r.cache == p.cache[kw.name := kw.value])
  {
    if p.failed then p
    else if Cached(p.cache, kw.name) then Fetched(p.cache, p.values + [p.cache[kw.name].value], false)
    else if kw.value.None? then Fetched(p.cache, p.values, true)
    else Fetched(p.cache[kw.name := kw.value], p.values + [kw.value.value], false)
  }

  /** The generator `get(k, v) for k, v in kwargs.items()`, run left to right
      over the keywords starting from dictionary `cache`. */
  function Fetch<V>(cache: Store<V>, args: seq<Kwarg<V>>): (r: Fetched<V>)
    ensures cache.Keys <= r.cache.Keys
    ensures r.failed ==> |r.values| < |args|
    ensures !r.failed ==> |r.values| == |args|
    decreases |args|
  {
    if args == [] then Fetched(cache, [], false)
    else Step(Fetch(cache, args[..|args| - 1]), args[|args| - 1])
  }

  /** The shape of the returned value (lines 35-36 and 47-49). */
  function Shape<V>(values: seq<V>): (r: Returned<V>)
    ensures r.NoneR? <==> |values| == 0
    ensures r.Single? <==> |values| == 1
    ensures r.Single? ==> r.value == values[0]
    ensures r.Many? ==> r.values == values && |values| > 1
  {
    if |values| == 0 then NoneR
    else if |values| == 1 then Single(values[0])
    else Many(values)
  }

  /** What the call returns or raises, given where the generator stopped. */
  function Answer<V>(f: Fetched<V>): (r: Result<Returned<V>>)
    ensures r.Raise? <==> f.failed
    ensures r.Raise? ==> r.error == AssertionError
    ensures r.Ok? && |f.values| == 1 ==> r.value == Single(f.values[0])
    ensures r.Ok? && |f.values| > 1 ==> r.value == Many(f.values)
  {
    if f.failed then Raise(AssertionError) else Ok(Shape(f.values))
  }

  /** A present, non-`None` entry survives every later keyword unchanged. */
  lemma {:induction false} FetchKeepsCached<V>(cache: Store<V>, args: seq<Kwarg<V>>)
    ensures forall k :: Cached(cache, k) ==>
      Cached(Fetch(cache, args).cache, k) && Fetch(cache, args).cache[k] == cache[k]
  {
    if args != [] {
      FetchKeepsCached(cache, args[..|args| - 1]);
    }
  }

  /** Names not passed in the call are untouched, whether the call succeeds
      or raises. */
  lemma {:induction false} FetchFrame<V>(cache: Store<V>, args: seq<Kwarg<V>>, k: string)
    requires forall i :: 0 <= i < |args| ==> args[i].name != k
    ensures (k in Fetch(cache, args).cache <==> k in cache)
    ensures k in cache ==> Fetch(cache, args).cache[k] == cache[k]
  {
    if args != [] {
      FetchFrame(cache, args[..|args| - 1], k);
    }
  }

  /** Results come back in argument order, one per keyword, and each is what
      the dictionary holds under that keyword afterwards. */
  lemma {:induction false} FetchInOrder<V>(cache: Store<V>, args: seq<Kwarg<V>>)
    ensures var r := Fetch(cache, args);
      !r.failed ==>
        |r.values| == |args| &&
        forall i :: 0 <= i < |args| ==>
          Cached(r.cache, args[i].name) && r.cache[args[i].name] == Some(r.values[i])
  {
    if args != [] {
      var prefix := args[..|args| - 1];
      FetchInOrder(cache, prefix);
      var p := Fetch(cache, prefix);
      var r := Fetch(cache, args);
      if !r.failed {
        assert !p.failed;
        forall i | 0 <= i < |args|
          ensures Cached(r.cache, args[i].name) && r.cache[args[i].name] == Some(r.values[i])
        {
          if i < |args| - 1 {
            assert prefix[i] == args[i];
            assert Cached(p.cache, args[i].name);
          }
        }
      }
    }
  }

  /** With distinct keywords, each keyword ends up holding its old entry if
      that was a cache hit, and the supplied value otherwise. */
  lemma {:induction false} FetchEntry<V>(cache: Store<V>, args: seq<Kwarg<V>>)
    requires DistinctNames(args)
    ensures var r := Fetch(cache, args);
      !r.failed ==>
        forall i :: 0 <= i < |args| ==>
          args[i].name in r.cache &&
          r.cache[args[i].name] == (if Cached(cache, args[i].name) then cache[args[i].name] else args[i].value)
  {
    if args != [] {
      var n := |args| - 1;
      var prefix := args[..n];
      FetchEntry(cache, prefix);
      FetchFrame(cache, prefix, args[n].name);
      var r := Fetch(cache, args);
      if !r.failed {
        forall i | 0 <= i < |args|
          ensures args[i].name in r.cache
          ensures r.cache[args[i].name] == (if Cached(cache, args[i].name) then cache[args[i].name] else args[i].value)
        {
          if i < n {
            assert prefix[i] == args[i];
            assert args[i].name != args[n].name;
          }
        }
      }
    }
  }

  /** Cache hit: a keyword whose entry is present and not `None` gets that
      entry back, the supplied value is ignored and the entry is unchanged. */
  lemma FetchHit<V>(cache: Store<V>, args: seq<Kwarg<V>>, i: nat)
    requires i < |args| && Cached(cache, args[i].name)
    requires !Fetch(cache, args).failed
    ensures |Fetch(cache, args).values| == |args|
    ensures Fetch(cache, args).values[i] == cache[args[i].name].value
    ensures args[i].name in Fetch(cache, args).cache
    ensures Fetch(cache, args).cache[args[i].name] == cache[args[i].name]
  {
    FetchKeepsCached(cache, args);
    FetchInOrder(cache, args);
  }

  /** Cache miss: a keyword whose entry is absent or `None` has its supplied
      value stored and returned; the call only gets this far when that value
      is not `None`. */
  lemma FetchMiss<V>(cache: Store<V>, args: seq<Kwarg<V>>, i: nat)
    requires DistinctNames(args)
    requires i < |args| && !Cached(cache, args[i].name)
    requires !Fetch(cache, args).failed
    ensures args[i].value.Some?
    ensures |Fetch(cache, args).values| == |args|
    ensures Fetch(cache, args).values[i] == args[i].value.value
    ensures args[i].name in Fetch(cache, args).cache
    ensures Fetch(cache, args).cache[args[i].name] == args[i].value
  {
    FetchEntry(cache, args);
    FetchInOrder(cache, args);
  }

  /** The assertion fails exactly when some keyword misses the cache and its
      supplied value is `None`. */
  lemma FetchFails<V>(cache: Store<V>, args: seq<Kwarg<V>>)
    requires DistinctNames(args)
    ensures Fetch(cache, args).failed <==>
      exists i :: 0 <= i < |args| && !Cached(cache, args[i].name) && args[i].value.None?
  {
    if Fetch(cache, args).failed {
      FetchFailurePoint(cache, args);
      var j :| 0 <= j < |args| && !Fetch(cache, args[..j]).failed &&
        !Cached(Fetch(cache, args[..j]).cache, args[j].name) && args[j].value.None?;
      assert forall i :: 0 <= i < j ==> args[..j][i].name != args[j].name;
      FetchFrame(cache, args[..j], args[j].name);
    } else {
      FetchEntry(cache, args);
      FetchInOrder(cache, args);
    }
  }

  /** When the assertion fails, the dictionary keeps exactly the insertions
      made for the keywords before the failing one. */
  lemma {:induction false} FetchFailurePoint<V>(cache: Store<V>, args: seq<Kwarg<V>>)
    requires Fetch(cache, args).failed
    ensures exists j :: (0 <= j < |args| &&
      !Fetch(cache, args[..j]).failed &&
      !Cached(Fetch(cache, args[..j]).cache, args[j].name) && args[j].value.None? &&
      Fetch(cache, args).cache == Fetch(cache, args[..j]).cache)
  {
    var n := |args| - 1;
    var prefix := args[..n];
    if Fetch(cache, prefix).failed {
      FetchFailurePoint(cache, prefix);
      var j :| 0 <= j < |prefix| &&
        !Fetch(cache, prefix[..j]).failed &&
        !Cached(Fetch(cache, prefix[..j]).cache, prefix[j].name) && prefix[j].value.None? &&
        Fetch(cache, prefix).cache == Fetch(cache, prefix[..j]).cache;
      assert prefix[..j] == args[..j];
      assert prefix[j] == args[j];
    } else {
      assert args[..n] == prefix;
    }
  }

  /** Fetching one more keyword is one more `Step`. */
  lemma FetchExtend<V>(cache: Store<V>, args: seq<Kwarg<V>>, i: nat)
    requires i < |args|
    ensures Fetch(cache, args[..i + 1]) == Step(Fetch(cache, args[..i]), args[i])
  {
    assert args[..i + 1][..i] == args[..i];
  }

  /** Once the assertion has failed, the remaining keywords change nothing. */
  lemma {:induction false} FetchStaysFailed<V>(cache: Store<V>, args: seq<Kwarg<V>>, j: nat)
    requires j <= |args| && Fetch(cache, args[..j]).failed
    ensures Fetch(cache, args) == Fetch(cache, args[..j])
    decreases |args| - j
  {
    if j < |args| {
      var n := |args| - 1;
      assert args[..n][..j] == args[..j];
      FetchStaysFailed(cache, args[..n], j);
      assert args[..j] != [];
    } else {
      assert args[..j] == args;
    }
  }

  /** `from_cache` never stores `None`, so a dictionary free of `None`
      entries stays so. */
  lemma {:induction false} FetchNoneFree<V>(cache: Store<V>, args: seq<Kwarg<V>>)
    requires NoneFree(cache)
    ensures NoneFree(Fetch(cache, args).cache)
  {
    if args != [] {
      FetchNoneFree(cache, args[..|args| - 1]);
    }
  }

  /** From a dictionary that already holds every keyword, a call only reads. */
  lemma {:induction false} FetchAllHits<V>(cache: Store<V>, args: seq<Kwarg<V>>)
    requires forall i :: 0 <= i < |args| ==> Cached(cache, args[i].name)
    ensures Fetch(cache, args) ==
      Fetched(cache, seq(|args|, i requires 0 <= i < |args| && Cached(cache, args[i].name) => cache[args[i].name].value), false)
  {
    if args != [] {
      var n := |args| - 1;
      assert forall i :: 0 <= i < n ==> args[..n][i] == args[i];
      FetchAllHits(cache, args[..n]);
    }
  }

  /** Repeating a successful call with the same keywords returns the same
      objects and leaves the dictionary as it is. */
  lemma FetchAgain<V>(cache: Store<V>, args: seq<Kwarg<V>>)
    requires !Fetch(cache, args).failed
    ensures var r := Fetch(cache, args);
      Fetch(r.cache, args) == Fetched(r.cache, r.values, false)
  {
    var r := Fetch(cache, args);
    FetchInOrder(cache, args);
    FetchAllHits(r.cache, args);
  }

  /** The returned value: `None` and an untouched dictionary for no keywords,
      the bare object for one, all objects in order for several. */
  lemma AnswerShape<V>(cache: Store<V>, args: seq<Kwarg<V>>)
    ensures var r := Fetch(cache, args);
      (|args| == 0 ==> Answer(r) == Ok(NoneR) && r.cache == cache) &&
      (r.failed <==> Answer(r) == Raise(AssertionError)) &&
      (|args| == 1 && !r.failed ==>
        Answer(r) == Ok(Single(r.cache[args[0].name].value))) &&
      (|args| > 1 && !r.failed ==>
        Answer(r) == Ok(Many(r.values)) && |r.values| == |args| &&
        forall i :: 0 <= i < |args| ==>
          Cached(r.cache, args[i].name) && r.cache[args[i].name] == Some(r.values[i]))
  {
    FetchInOrder(cache, args);
  }
}
