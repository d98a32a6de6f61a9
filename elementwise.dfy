/** The element-wise loop every entry point ends in: for each index, build the callback's
    argument list (the element at that index of every typed-array input, every scalar
    input unchanged), call the callback, and store its result in the output. */
module Elementwise {
  import opened Js

  /** What one input contributes to the callback at every index. */
  datatype Arg = Scalar(x: Num) | Elems(xs: seq<Num>)

  /** Where an entry point puts its result: an output the caller supplied, or a fresh
      typed array of the given dtype. */
  datatype Target = Supplied(out: Value) | Allocate(dtype: Dtype)

  /** A call that passed every check: the callback, the output, the inputs in argument
      order and the number of indices to fill. */
  datatype Plan = Plan(fcn: seq<Num> -> Num, target: Target, inputs: seq<Value>, len: nat)

  /** Every input is a scalar or a typed array. */
  predicate Scalars(vals: seq<Value>) {
    forall j | 0 <= j < |vals| :: vals[j].Number? || vals[j].Typed?
  }

  /** Every input can be read at the indices below `len`. */
  predicate Readable(vals: seq<Value>, len: nat) {
    forall j | 0 <= j < |vals| :: vals[j].Number? || (vals[j].Typed? && len <= vals[j].data.Length)
  }

  /** The typed arrays among the inputs. */
  function Footprint(vals: seq<Value>): set<object> {
    set j | 0 <= j < |vals| && vals[j].Typed? :: vals[j].data as object
  }

  function Read(v: Value): Arg
    requires v.Number? || v.Typed?
    reads Storage(v)
  {
    if v.Typed? then Elems(v.data[..]) else Scalar(v.n)
  }

  /** The inputs' contents at one moment. */
  function Snapshot(vals: seq<Value>): (args: seq<Arg>)
    requires Scalars(vals)
    reads Footprint(vals)
    ensures |args| == |vals|
  {
    seq(|vals|, j requires 0 <= j < |vals| reads Footprint(vals) => Read(vals[j]))
  }

  /** Every array input has at least `len` elements. */
  predicate Covers(args: seq<Arg>, len: nat) {
    forall j | 0 <= j < |args| :: args[j].Elems? ==> len <= |args[j].xs|
  }

  function At(a: Arg, i: nat): Num
    requires a.Elems? ==> i < |a.xs|
  {
    if a.Elems? then a.xs[i] else a.x
  }

  /** The callback's argument list at index `i`. */
  function Column(args: seq<Arg>, i: nat): seq<Num>
    requires Covers(args, i + 1)
  {
    seq(|args|, j requires 0 <= j < |args| => At(args[j], i))
  }

  /** The argument lists of the callback invocations, in invocation order. */
  function Calls(args: seq<Arg>, len: nat): seq<seq<Num>>
    requires Covers(args, len)
  {
    seq(len, i requires 0 <= i < len => Column(args, i))
  }

  /** What the callback returns for each invocation. */
  function Results(f: seq<Num> -> Num, calls: seq<seq<Num>>): seq<Num> {
    seq(|calls|, i requires 0 <= i < |calls| => f(calls[i]))
  }

  /** The output array holds exactly `ys` (as numbers, in a generic array). */
  ghost predicate Holds(o: Value, ys: seq<Num>)
    requires o.Typed? || o.Array?
    reads Storage(o)
  {
    && Length(o) == |ys|
    && (o.Typed? ==> o.data[..] == ys)
    && (o.Array? ==> forall k | 0 <= k < |ys| :: o.items[k] == Number(ys[k]))
  }

  /** The inner loop: the argument list for index `i`, read from the inputs as they are now. */
  method Gather(vals: seq<Value>, i: nat) returns (xs: seq<Num>)
    requires Readable(vals, i + 1)
    ensures |xs| == |vals|
    ensures forall j | 0 <= j < |vals| :: xs[j] == if vals[j].Typed? then vals[j].data[i] else vals[j].n
  {
    xs := [];
    var j := 0;
    while j < |vals|
      invariant j <= |vals|
      invariant |xs| == j
      invariant forall k | 0 <= k < j :: xs[k] == if vals[k].Typed? then vals[k].data[i] else vals[k].n
    {
      var x := if vals[j].Typed? then vals[j].data[i] else vals[j].n;
      xs := xs + [x];
      j := j + 1;
    }
  }

  /** The outer loop over an output array whose elements are `T`; `box` turns a callback
      result into an element. A write past the end of the output is dropped, as it is
      for a typed array. The output may be the same array as one of the inputs: index
      `i` of every input is read before index `i` of the output is written, so the
      callback sees the inputs as they were on entry. Distinct arrays never share
      elements here, so overlapping views of one buffer are outside this model. */
  method FillArray<T>(o: array<T>, box: Num -> T, f: seq<Num> -> Num, vals: seq<Value>, len: nat)
    returns (ghost calls: seq<seq<Num>>)
    requires Readable(vals, len)
    modifies o
    ensures Covers(old(Snapshot(vals)), len)
    ensures calls == Calls(old(Snapshot(vals)), len)
    ensures forall k | 0 <= k < o.Length :: o[k] == if k < len then box(f(calls[k])) else old(o[k])
  {
    ghost var before := Snapshot(vals);
    calls := [];
    var i := 0;
    while i < len
      invariant i <= len
      invariant |before| == |vals|
      invariant forall j | 0 <= j < |vals| ::
        && (vals[j].Number? ==> before[j] == Scalar(vals[j].n))
        && (vals[j].Typed? ==> before[j].Elems? && |before[j].xs| == vals[j].data.Length)
      invariant forall j, k | 0 <= j < |vals| && vals[j].Typed? && i <= k < vals[j].data.Length ::
        vals[j].data[k] == before[j].xs[k]
      invariant Covers(before, len)
      invariant calls == Calls(before, i)
      invariant forall k | 0 <= k < o.Length :: o[k] == if k < i then box(f(calls[k])) else old(o[k])
    {
      var xs := Gather(vals, i);
      assert xs == Column(before, i);
      var y := f(xs);
      if i < o.Length {
        o[i] := box(y);
      }
      calls := calls + [xs];
      i := i + 1;
    }
  }

  /** `out[i] = fcn(...)` for every `i < len`, on a typed or a generic output array. */
  method Fill(o: Value, f: seq<Num> -> Num, vals: seq<Value>, len: nat) returns (ghost calls: seq<seq<Num>>)
    requires o.Typed? || o.Array?
    requires o.Array? ==> len <= o.items.Length
    requires Readable(vals, len)
    modifies Storage(o)
    ensures Covers(old(Snapshot(vals)), len)
    ensures calls == Calls(old(Snapshot(vals)), len)
    ensures o.Typed? ==> forall k | 0 <= k < o.data.Length ::
      o.data[k] == if k < len then f(calls[k]) else old(o.data[k])
    ensures o.Array? ==> forall k | 0 <= k < o.items.Length ::
      o.items[k] == if k < len then Number(f(calls[k])) else old(o.items[k])
    ensures len == Length(o) ==> Holds(o, Results(f, calls))
  {
    if o.Typed? {
      calls := FillArray(o.data, n => n, f, vals, len);
    } else {
      calls := FillArray(o.items, n => Number(n), f, vals, len);
    }
  }

  /** The output the caller supplied, if any. */
  function Given(t: Target): Option<Value> {
    if t.Supplied? then Some(t.out) else None
  }

  /** The arrays a call may write: those of the output the caller supplied, if any. */
  function Written(out: Option<Value>): set<object> {
    if out.Some? then Storage(out.value) else {}
  }

  /** The end of both apply entry points: allocate a zero-filled typed array of the plan's
      dtype unless an output was supplied, fill it, and return it. A supplied output is
      returned itself; where it is longer than the plan's length its other elements keep
      their values, and writes past the end of a shorter typed output are dropped. */
  method Execute(p: Plan) returns (out: Value, ghost calls: seq<seq<Num>>)
    requires p.target.Supplied? ==> p.target.out.Typed? || (p.target.out.Array? && p.len <= p.target.out.items.Length)
    requires Readable(p.inputs, p.len)
    modifies Written(Given(p.target))
    ensures Covers(old(Snapshot(p.inputs)), p.len)
    ensures calls == Calls(old(Snapshot(p.inputs)), p.len)
    ensures p.target.Allocate? ==>
      && out.Typed? && out.dtype == p.target.dtype && fresh(out.data)
      && Holds(out, Results(p.fcn, calls))
    ensures p.target.Supplied? ==> out == p.target.out
    ensures p.target.Supplied? && out.Typed? ==> forall k | 0 <= k < out.data.Length ::
      out.data[k] == if k < p.len then p.fcn(calls[k]) else old(out.data[k])
    ensures p.target.Supplied? && out.Array? ==> forall k | 0 <= k < out.items.Length ::
      out.items[k] == if k < p.len then Number(p.fcn(calls[k])) else old(out.items[k])
    ensures p.target.Supplied? && p.len == Length(out) ==> Holds(out, Results(p.fcn, calls))
  {
    if p.target.Supplied? {
      out := p.target.out;
    } else {
      var data := new Num[p.len](_ => Finite(0.0));
      out := Typed(p.target.dtype, data);
      assert Snapshot(p.inputs) == old(Snapshot(p.inputs));
    }
    calls := Fill(out, p.fcn, p.inputs, p.len);
  }
}
