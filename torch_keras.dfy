/** The state that `TorchKeras` (graphgallery/nn/models/torch_keras.py,
    lines 9-194) keeps beside its network: the training configuration set by
    `compile`, and the object cache behind `from_cache`. */
module TorchKeras {
  import opened Py
  import opened Cache
  import opened Metrics

  /** An attribute that has not been assigned yet, or its value. */
  datatype Slot<T> = Unset | Assigned(value: T)

  class TorchKeras {
    /** `self.cache`, the dictionary of cached objects. */
    var cache: Store<Object>
    /** `self.loss`, `self.optimizer`, `self.scheduler` and `self.metrics`. */
    var loss: Option<Object>
    var optimizer: Option<Object>
    var scheduler: Slot<Option<Object>>
    var metrics: Option<MetricSeq>

    /** `__init__`: nothing configured and an empty cache; `scheduler` is
        only assigned by `compile`. */
    constructor ()
      ensures cache == map[] && NoneFree(cache)
      ensures loss == None && optimizer == None && metrics == None && scheduler == Unset
    {
      loss, optimizer, metrics := None, None, None;
      scheduler := Unset;
      cache := map[];
    }

    /** The inner `get(name, value)` of `from_cache`: the cached object on a
        hit; on a miss the supplied value, stored after asserting it is not
        `None`.  It is one `Step` of `Fetch`. */
    method Get(kw: Kwarg<Object>) returns (r: Result<Object>)
      modifies this`cache
      ensures var s := Step(Fetched(old(cache), [], false), kw);
        cache == s.cache && (r.Raise? <==> s.failed) &&
        (r.Raise? ==> r.error == AssertionError) &&
        (r.Ok? ==> s.values == [r.value])
    {
      var obj := if kw.name in cache then cache[kw.name] else None;
      if obj.None? {
        if kw.value.None? {
          return Raise(AssertionError);
        }
        cache := cache[kw.name := kw.value];
        obj := kw.value;
      }
      r := Ok(obj.value);
    }

    /** `from_cache(**kwargs)` with `args` the keywords in call order.  The
        dictionary ends as the generator leaves it, including the insertions
        made before a failed assertion, and the call returns or raises
        accordingly. */
    method FromCache(args: seq<Kwarg<Object>>) returns (r: Result<Returned<Object>>)
      modifies this`cache
      ensures cache == Fetch(old(cache), args).cache
      ensures r == Answer(Fetch(old(cache), args))
      ensures args == [] ==> r == Ok(NoneR) && cache == old(cache)
      ensures NoneFree(old(cache)) ==> NoneFree(cache)
    {
      if NoneFree(cache) {
        FetchNoneFree(cache, args);
      }
      if args == [] {
        return Ok(NoneR);
      }
      ghost var start := cache;
      var values: seq<Object> := [];
      var i := 0;
      while i < |args|
        invariant 0 <= i <= |args|
        invariant Fetch(start, args[..i]) == Fetched(cache, values, false)
      {
        FetchExtend(start, args, i);
        var obj := Get(args[i]);
        if obj.Raise? {
          FetchStaysFailed(start, args, i + 1);
          return Raise(AssertionError);
        }
        values := values + [obj.value];
        i := i + 1;
      }
      assert args[..i] == args;
      r := if |values| == 1 then Ok(Single(values[0])) else Ok(Many(values));
    }

    /** `empty_cache()`. */
    method EmptyCache()
      modifies this`cache
      ensures cache == map[] && NoneFree(cache)
    {
      cache := map[];
    }

    /** `compile(loss, optimizer, metrics, scheduler)`: the configuration is
        replaced and `metrics` is stored as a list or tuple; the cache is
        left alone. */
    method Compile(loss: Option<Object>, optimizer: Option<Object>, metrics: MetricsArg, scheduler: Option<Object>)
      modifies this`loss, this`optimizer, this`scheduler, this`metrics
      ensures this.loss == loss && this.optimizer == optimizer && this.scheduler == Assigned(scheduler)
      ensures this.metrics == Some(Normalise(metrics))
      ensures this.metrics.value.items == Given(metrics)
    {
      this.loss := loss;
      this.optimizer := optimizer;
      this.scheduler := Assigned(scheduler);
      this.metrics := Some(Normalise(metrics));
    }

    /** `reset_metrics()`: asserts that `compile` has run, then calls
        `reset_states()` on each element in order, raising at the first
        element that lacks it.  Returns the outcome and the elements whose
        state was reset. */
    method ResetMetrics() returns (outcome: Result<()>, calls: seq<Element>)
      ensures metrics.None? ==> outcome == Raise(AssertionError) && calls == []
      ensures metrics.Some? ==>
        |calls| <= |metrics.value.items| &&
        calls == metrics.value.items[..|calls|] &&
        (forall i :: 0 <= i < |calls| ==> calls[i].hasResetStates) &&
        (outcome.Ok? <==> forall i :: 0 <= i < |metrics.value.items| ==> metrics.value.items[i].hasResetStates) &&
        (outcome.Ok? ==> |calls| == |metrics.value.items|) &&
        (outcome.Raise? ==> outcome.error == AttributeError("reset_states") &&
                            |calls| < |metrics.value.items| && !metrics.value.items[|calls|].hasResetStates)
    {
      calls := [];
      if metrics.None? {
        return Raise(AssertionError), calls;
      }
      var items := metrics.value.items;
      var i := 0;
      while i < |items|
        invariant 0 <= i <= |items| && calls == items[..i]
        invariant forall k :: 0 <= k < i ==> items[k].hasResetStates
      {
        if !items[i].hasResetStates {
          return Raise(AttributeError("reset_states")), calls;
        }
        calls := calls + [items[i]];
        i := i + 1;
      }
      outcome := Ok(());
    }
  }
}
