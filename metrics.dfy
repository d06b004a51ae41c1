/** Metric bookkeeping of `TorchKeras`: how `compile` normalises its
    `metrics` argument (graphgallery/nn/models/torch_keras.py, lines 113-120)
    and the `metrics_names` property (lines 130-133). */
module Metrics {
  import opened Py

  /** An element of the metrics list, seen through the two attributes the
      core uses: its `name`, if it has one, and whether it has a
      `reset_states` method.  A metric object has both; Python's `None`,
      which `compile()` stores by default, has neither. */
  datatype Element = Element(name: Option<string>, hasResetStates: bool)

  /** Python's `None` as a metrics element. */
  const NoneObject := Element(None, false)

  /** A Python list or tuple of elements. */
  datatype MetricSeq = ListOf(items: seq<Element>) | TupleOf(items: seq<Element>)

  /** The `metrics` argument of `compile`: a list or tuple, or anything else
      (a single metric, or `None`). */
  datatype MetricsArg = Sequence(elements: MetricSeq) | Other(element: Element)

  /** `if not isinstance(metrics, (list, tuple)): metrics = [metrics]`:
      after `compile`, `metrics` is a list or tuple holding the given
      elements; a list or tuple argument is kept as it is, anything else
      becomes a one-element list. */
  function Normalise(arg: MetricsArg): (r: MetricSeq)
    ensures r.items == Given(arg)
    ensures arg.Sequence? ==> r == arg.elements
    ensures arg.Other? ==> r.ListOf? && |r.items| == 1
  {
    match arg
    case Sequence(s) => s
    case Other(e) => ListOf([e])
  }

  /** The elements `compile` is given, in the order it ends up storing them. */
  function Given(arg: MetricsArg): seq<Element>
  {
    match arg
    case Sequence(s) => s.items
    case Other(e) => [e]
  }

  /** `[metric.name for metric in items]`, or `None` when some element has no
      `name` attribute. */
  function NameList(items: seq<Element>): (r: Option<seq<string>>)
    ensures r.Some? <==> forall i :: 0 <= i < |items| ==> items[i].name.Some?
    ensures r.Some? ==> (|r.value| == |items| &&
      forall i :: 0 <= i < |items| ==> r.value[i] == items[i].name.value)
  {
    if items == [] then Some([])
    else
      match (items[0].name, NameList(items[1..]))
      case (Some(n), Some(rest)) => Some([n] + rest)
      case _ => None
  }

  /** The `metrics_names` property of an object whose `metrics` attribute is
      `metrics`: `['loss']` followed by the metric names; an assertion error
      before `compile`, an attribute error when an element has no name. */
  function MetricsNames(metrics: Option<MetricSeq>): (r: Result<seq<string>>)
    ensures metrics.None? ==> r == Raise(AssertionError)
    ensures metrics.Some? ==>
      (r.Ok? <==> forall i :: 0 <= i < |metrics.value.items| ==> metrics.value.items[i].name.Some?)
    ensures metrics.Some? && r.Raise? ==> r.error == AttributeError("name")
    ensures r.Ok? ==>
      |r.value| == 1 + |metrics.value.items| && r.value[0] == "loss" &&
      forall i :: 0 <= i < |metrics.value.items| ==> r.value[i + 1] == metrics.value.items[i].name.value
  {
    match metrics
    case None => Raise(AssertionError)
    case Some(s) =>
      match NameList(s.items)
      case Some(names) => Ok(["loss"] + names)
      case None => Raise(AttributeError("name"))
  }

  /** The names after `compile(metrics=arg)`: `'loss'` plus one name per
      given element, and an attribute error when `compile` got no metric
      (the default `metrics=None` gives `[None]`). */
  lemma CompiledNames(arg: MetricsArg)
    ensures var r := MetricsNames(Some(Normalise(arg)));
      (r.Ok? <==> forall i :: 0 <= i < |Given(arg)| ==> Given(arg)[i].name.Some?) &&
      (r.Ok? ==> |r.value| == 1 + |Given(arg)| && r.value[0] == "loss")
    ensures arg == Other(NoneObject) ==> MetricsNames(Some(Normalise(arg))) == Raise(AttributeError("name"))
    ensures arg.Other? && arg.element.name.Some? ==>
      MetricsNames(Some(Normalise(arg))) == Ok(["loss", arg.element.name.value])
  {
    if arg.Other? && arg.element.name.Some? {
      var r := MetricsNames(Some(Normalise(arg)));
      assert Normalise(arg).items == [arg.element];
      assert r.Ok? && |r.value| == 2 && r.value[1] == arg.element.name.value;
      assert r.value == ["loss", arg.element.name.value];
    }
  }
}
