/** The module-level `to_device` helper (graphgallery/nn/models/torch_keras.py,
    lines 214-226): it wraps a non-list input in a list, treats each element
    of the inputs and of the labels, and returns the inputs alone or the
    pair (inputs, labels).

    The device move itself (`t.to(device)`) is framework code and is the
    parameter `move`; `hasTo` says which objects have a `to` method.  Python
    lists and tuples have none. */
module Device {
  import opened Py

  /** An argument: a list, a tuple, or any other single object. */
  datatype Arg<T> = Single(value: T) | ListArg(items: seq<T>) | TupleArg(items: seq<T>)

  /** The labels as returned: a list built by the comprehension, or the
      single object moved by `y.to(device)`. */
  datatype Labels<T> = LabelList(items: seq<T>) | MovedLabel(value: T)

  /** The return value: `x` alone, or the pair `(x, y)`. */
  datatype Moved<T> = InputsOnly(x: seq<T>) | WithLabels(x: seq<T>, y: Labels<T>)

  /** The elements of `x` after `if not isinstance(x, (list, tuple)): x = [x]`. */
  function Elements<T>(a: Arg<T>): (r: seq<T>)
  {
    match a
    case Single(v) => [v]
    case ListArg(items) => items
    case TupleArg(items) => items
  }

  /** `hasattr(a, 'to')`: a list or tuple has no `to` method. */
  function ArgHasTo<T>(a: Arg<T>, hasTo: T -> bool): bool
  {
    match a
    case Single(v) => hasTo(v)
    case ListArg(_) => false
    case TupleArg(_) => false
  }

  /** `[_x.to(device) if test else _x for _x in items]` for a test that does
      not depend on the element. */
  function MoveAllIf<T>(items: seq<T>, test: bool, device: string, move: (T, string) -> T): (r: seq<T>)
    ensures |r| == |items|
    ensures forall i :: 0 <= i < |items| ==> r[i] == if test then move(items[i], device) else items[i]
    ensures !test ==> r == items
  {
    if items == [] then []
    else [if test then move(items[0], device) else items[0]] + MoveAllIf(items[1..], test, device, move)
  }

  /** `[_x.to(device) if hasattr(_x, 'to') else _x for _x in items]`: the
      test made on each element. */
  function MoveEach<T>(items: seq<T>, hasTo: T -> bool, device: string, move: (T, string) -> T): (r: seq<T>)
    ensures |r| == |items|
    ensures forall i :: 0 <= i < |items| ==> r[i] == if hasTo(items[i]) then move(items[i], device) else items[i]
  {
    if items == [] then []
    else [if hasTo(items[0]) then move(items[0], device) else items[0]] + MoveEach(items[1..], hasTo, device, move)
  }

  /** `to_device(x, y, device)` as written: the comprehensions test
      `hasattr(x, 'to')` and `hasattr(y, 'to')` on the containers.  So the
      inputs always come back as a list holding exactly the input elements,
      never moved; list or tuple labels come back as a list of the same
      elements, not moved; single labels are moved, and raise when they have
      no `to`; the pair is returned exactly when labels are given. */
  function ToDevice<T>(x: Arg<T>, y: Option<Arg<T>>, device: string,
                       hasTo: T -> bool, move: (T, string) -> T): (r: Result<Moved<T>>)
    ensures r.Ok? <==> (y.None? || !y.value.Single? || hasTo(y.value.value))
    ensures r.Raise? ==> r.error == AttributeError("to")
    ensures r.Ok? ==> r.value.x == Elements(x) && (r.value.WithLabels? <==> y.Some?)
    ensures x.Single? && r.Ok? ==> r.value.x == [x.value]
    ensures r.Ok? && y.Some? && !y.value.Single? ==> r.value.y == LabelList(y.value.items)
    ensures r.Ok? && y.Some? && y.value.Single? ==> r.value.y == MovedLabel(move(y.value.value, device))
  {
    var xs := MoveAllIf(Elements(x), ArgHasTo(ListArg(Elements(x)), hasTo), device, move);
    match y
    case None => Ok(InputsOnly(xs))
    case Some(ListArg(items)) => Ok(WithLabels(xs, LabelList(MoveAllIf(items, ArgHasTo(y.value, hasTo), device, move))))
    case Some(TupleArg(items)) => Ok(WithLabels(xs, LabelList(MoveAllIf(items, ArgHasTo(y.value, hasTo), device, move))))
    case Some(Single(v)) => if hasTo(v) then Ok(WithLabels(xs, MovedLabel(move(v, device)))) else Raise(AttributeError("to"))
  }

  /** `to_device` with each comprehension testing its element, as the code
      evidently means: every element of the inputs, and of list or tuple
      labels, that has `to` is moved, the others are passed through. */
  function ToDeviceIntended<T>(x: Arg<T>, y: Option<Arg<T>>, device: string,
                               hasTo: T -> bool, move: (T, string) -> T): (r: Result<Moved<T>>)
    ensures r.Ok? <==> (y.None? || !y.value.Single? || hasTo(y.value.value))
    ensures r.Raise? ==> r.error == AttributeError("to")
    ensures r.Ok? ==> (r.value.WithLabels? <==> y.Some?) && |r.value.x| == |Elements(x)|
    ensures r.Ok? ==> forall i :: 0 <= i < |Elements(x)| ==>
      r.value.x[i] == if hasTo(Elements(x)[i]) then move(Elements(x)[i], device) else Elements(x)[i]
    ensures r.Ok? && y.Some? && !y.value.Single? ==>
      r.value.y.LabelList? && |r.value.y.items| == |y.value.items| &&
      forall i :: 0 <= i < |y.value.items| ==>
        r.value.y.items[i] == if hasTo(y.value.items[i]) then move(y.value.items[i], device) else y.value.items[i]
    ensures r.Ok? && y.Some? && y.value.Single? ==> r.value.y == MovedLabel(move(y.value.value, device))
  {
    var xs := MoveEach(Elements(x), hasTo, device, move);
    match y
    case None => Ok(InputsOnly(xs))
    case Some(ListArg(items)) => Ok(WithLabels(xs, LabelList(MoveEach(items, hasTo, device, move))))
    case Some(TupleArg(items)) => Ok(WithLabels(xs, LabelList(MoveEach(items, hasTo, device, move))))
    case Some(Single(v)) => if hasTo(v) then Ok(WithLabels(xs, MovedLabel(move(v, device)))) else Raise(AttributeError("to"))
  }

  /** The corrected `to_device` differs from the code as written only in
      the elements it moves: it succeeds and raises on the same calls, returns
      the same shape, and moves single labels alike; every element of the
      inputs, and of list or tuple labels, that has `to` is moved where the
      code as written returns it unmoved, and every other element is the
      same in both. */
  lemma ToDeviceIntendedMoves<T>(x: Arg<T>, y: Option<Arg<T>>, device: string,
                                 hasTo: T -> bool, move: (T, string) -> T)
    ensures var r := ToDeviceIntended(x, y, device, hasTo, move);
      var w := ToDevice(x, y, device, hasTo, move);
      (r.Ok? <==> w.Ok?) && (r.Raise? ==> r == w) &&
      (r.Ok? ==> ((r.value.WithLabels? <==> w.value.WithLabels?) && |r.value.x| == |w.value.x| &&
        forall i :: 0 <= i < |w.value.x| ==>
          r.value.x[i] == if hasTo(w.value.x[i]) then move(w.value.x[i], device) else w.value.x[i])) &&
      (r.Ok? && y.Some? && !y.value.Single? ==>
        r.value.y.LabelList? && w.value.y.LabelList? && |r.value.y.items| == |w.value.y.items| &&
        forall i :: 0 <= i < |w.value.y.items| ==>
          r.value.y.items[i] == if hasTo(w.value.y.items[i]) then move(w.value.y.items[i], device) else w.value.y.items[i]) &&
      (r.Ok? && y.Some? && y.value.Single? ==> r.value.y == w.value.y)
  {
    var r := ToDeviceIntended(x, y, device, hasTo, move);
    var w := ToDevice(x, y, device, hasTo, move);
    if r.Ok? {
      assert w.value.x == Elements(x);
    }
  }

  /** The two disagree on any input element that has `to` and that the move
      changes: as written, `to_device(t)` returns `[t]` unmoved. */
  lemma ToDeviceSkipsMove<T>(t: T, device: string, hasTo: T -> bool, move: (T, string) -> T)
    requires hasTo(t) && move(t, device) != t
    ensures ToDevice(Single(t), None, device, hasTo, move) == Ok(InputsOnly([t]))
    ensures ToDeviceIntended(Single(t), None, device, hasTo, move) == Ok(InputsOnly([move(t, device)]))
    ensures ToDevice(Single(t), None, device, hasTo, move) != ToDeviceIntended(Single(t), None, device, hasTo, move)
  {
    var r := ToDeviceIntended(Single(t), None, device, hasTo, move);
    assert r.value.x == [move(t, device)];
  }

  /** A concrete input that shows it: integers standing for tensors, every one
      of them movable, the move adding one. */
  lemma ToDeviceCounterexample()
    ensures ToDevice(Single(0), None, "cuda", (t: int) => true, (t: int, d: string) => t + 1) == Ok(InputsOnly([0]))
    ensures ToDeviceIntended(Single(0), None, "cuda", (t: int) => true, (t: int, d: string) => t + 1) == Ok(InputsOnly([1]))
  {
    ToDeviceSkipsMove(0, "cuda", (t: int) => true, (t: int, d: string) => t + 1);
  }
}
