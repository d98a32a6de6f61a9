/** lib/apply.raw.js: the unvalidated entry point. It reads the options without checking
    them, treats every input that is not a number primitive as an array, and takes the
    output length from the last such input without comparing lengths. */
module ApplyRaw {
  import opened Js
  import opened Elementwise
  import Apply

  /** The trailing options candidate, or an empty object when there is none. */
  function RawOptions(args: seq<Value>): Value {
    if IsOptionsCandidate(Apply.Last(args)) then Apply.Last(args) else Object(map[])
  }

  /** Number of arguments before the options. */
  function Count(args: seq<Value>): nat {
    if IsOptionsCandidate(Apply.Last(args)) && |args| > 0 then |args| - 1 else |args|
  }

  /** `opts.out`, read without validation. */
  predicate OutMode(args: seq<Value>)
    requires !RawOptions(args).Null? && !RawOptions(args).Undefined?
  {
    Truthy(Get(RawOptions(args), "out"))
  }

  /** Index of the first input: after the callback, and after the output in out mode. */
  function Start(args: seq<Value>): nat
    requires !RawOptions(args).Null? && !RawOptions(args).Undefined?
  {
    if OutMode(args) then 2 else 1
  }

  function Inputs(args: seq<Value>): seq<Value>
    requires !RawOptions(args).Null? && !RawOptions(args).Undefined?
  {
    if Start(args) <= Count(args) then args[Start(args)..Count(args)] else []
  }

  /** The position of the last input that is not a number primitive, which the source
      reads as an array. */
  function LastArray(inputs: seq<Value>): (r: Option<nat>)
    ensures r.Some? ==> r.value < |inputs| && !IsNumber(inputs[r.value])
    ensures r.Some? ==> forall k | r.value < k < |inputs| :: IsNumber(inputs[k])
    ensures r.None? ==> forall k | 0 <= k < |inputs| :: IsNumber(inputs[k])
  {
    if |inputs| == 0 then None
    else if !IsNumber(inputs[|inputs| - 1]) then Some(|inputs| - 1)
    else LastArray(inputs[..|inputs| - 1])
  }

  /** The calls the source completes without crashing or reading past an array's end:
      a callback first; options that are not null; an array output in out mode (a generic
      array long enough not to grow); inputs that are typed arrays or numbers other than
      NaN, at least one typed array, none of them shorter than the last one. */
  predicate RawWellFormed(args: seq<Value>) {
    && |args| >= 1 && IsFunction(args[0])
    && !RawOptions(args).Null? && !RawOptions(args).Undefined?
    && var inputs := Inputs(args);
    && (forall j | 0 <= j < |inputs| :: IsNumber(inputs[j]) || inputs[j].Typed?)
    && LastArray(inputs).Some?
    && var len := Length(inputs[LastArray(inputs).value]);
    && (forall j | 0 <= j < |inputs| :: inputs[j].Typed? ==> len <= inputs[j].data.Length)
    && (OutMode(args) ==> (args[1].Typed? || (args[1].Array? && len <= args[1].items.Length)))
  }

  /** `opts.dtype || 'float64'`, unvalidated: only a string can name a constructor. */
  function RawDtype(args: seq<Value>): Value
    requires !RawOptions(args).Null? && !RawOptions(args).Undefined?
  {
    var dt := Get(RawOptions(args), "dtype");
    if Truthy(dt) then dt else Str("float64")
  }

  /** What a well-formed call does: fill the supplied output, or allocate one of the
      named dtype, failing only on an unknown dtype. */
  function RawPlan(args: seq<Value>): (r: Result<Plan>)
    requires RawWellFormed(args)
    ensures r.Throw? <==> !OutMode(args) && Ctor(RawDtype(args)).None?
    ensures r.Throw? ==> r.thrown == Error(UnknownDtype)
    ensures r.Ok? && !OutMode(args) ==> r.value.target == Allocate(Ctor(RawDtype(args)).value)
    ensures r.Ok? && !OutMode(args) && !Truthy(Get(RawOptions(args), "dtype")) ==> r.value.target == Allocate(Float64)
  {
    var inputs := Inputs(args);
    var len := Length(inputs[LastArray(inputs).value]);
    if OutMode(args) then Ok(Plan(args[0].fn, Supplied(args[1]), inputs, len))
    else
      match Ctor(RawDtype(args))
      case None => Throw(Error(UnknownDtype))
      case Some(d) => Ok(Plan(args[0].fn, Allocate(d), inputs, len))
  }

  /** The length of a well-formed call is that of the last typed array among its
      inputs, no later input is a typed array, and every typed input is at least that
      long; the output is the second argument exactly in out mode. */
  lemma RawPlanShape(args: seq<Value>)
    requires RawWellFormed(args) && RawPlan(args).Ok?
    ensures var p := RawPlan(args).value;
      && p.fcn == args[0].fn
      && p.inputs == Inputs(args)
      && Scalars(p.inputs)
      && Readable(p.inputs, p.len)
      && (exists j | 0 <= j < |p.inputs| ::
            && p.inputs[j].Typed? && p.inputs[j].data.Length == p.len
            && forall k | j < k < |p.inputs| :: !p.inputs[k].Typed?)
      && (OutMode(args) <==> p.target == Supplied(args[1]))
  {
    var inputs := Inputs(args);
    var j := LastArray(inputs).value;
    assert inputs[j].Typed?;
  }

  /** The classification loop (lib/apply.raw.js:62-70): remember the last input that is
      not a number primitive. */
  method FindLastArray(inputs: seq<Value>) returns (l: Option<nat>)
    ensures l == LastArray(inputs)
  {
    l := None;
    var k := 0;
    while k < |inputs|
      invariant k <= |inputs|
      invariant l == LastArray(inputs[..k])
    {
      assert inputs[..k + 1][..k] == inputs[..k];
      if !IsNumber(inputs[k]) {
        l := Some(k);
      }
      k := k + 1;
    }
    assert inputs[..k] == inputs;
  }

  /** The argument handling of lib/apply.raw.js:42-80: peel the options, locate the
      output and the inputs, find the last array, and pick the output dtype. */
  method Prepare(args: seq<Value>) returns (r: Result<Plan>)
    requires RawWellFormed(args)
    ensures r == RawPlan(args)
  {
    var nargs := |args| - 1;
    var x := args[nargs];
    var opts: Value;
    if !IsTypedArrayLike(x) && (SelfEqual(x) && !IsNumber(x)) {
      opts := x;
      nargs := nargs - 1;
    } else {
      opts := Object(map[]);
    }
    assert opts == RawOptions(args) && nargs + 1 == Count(args);
    var end := nargs;
    var fcn := args[0].fn;
    var idx: nat := if Truthy(Get(opts, "out")) then 2 else 1;
    var inputs := if idx <= end + 1 then args[idx..end + 1] else [];
    assert inputs == Inputs(args);
    var l := FindLastArray(inputs);
    var len := Length(inputs[l.value]);
    if Truthy(Get(opts, "out")) {
      return Ok(Plan(fcn, Supplied(args[1]), inputs, len));
    }
    var dt := Get(opts, "dtype");
    if !Truthy(dt) {
      dt := Str("float64");
    }
    var ctor := Ctor(dt);
    if ctor.None? {
      return Throw(Error(UnknownDtype));
    }
    r := Ok(Plan(fcn, Allocate(ctor.value), inputs, len));
  }

  /** `apply( fcn, ...value[, opts] )` without validation. The callback runs for every
      index below the length of the last typed input; a typed output keeps only the
      writes that fall inside it, and its other elements are unchanged. */
  method ApplyRaw(args: seq<Value>) returns (r: Result<Value>, ghost calls: seq<seq<Num>>)
    requires RawWellFormed(args)
    modifies Written(if OutMode(args) then Some(args[1]) else None)
    ensures RawPlan(args).Throw? ==> r == Throw(RawPlan(args).thrown) && calls == []
    ensures RawPlan(args).Ok? ==>
      var p := RawPlan(args).value;
      && r.Ok?
      && (p.target.Supplied? ==> r.value == p.target.out)
      && (p.target.Allocate? ==>
            r.value.Typed? && r.value.dtype == p.target.dtype && fresh(r.value.data) && Holds(r.value, Results(p.fcn, calls)))
      && Covers(old(Snapshot(p.inputs)), p.len)
      && calls == Calls(old(Snapshot(p.inputs)), p.len)
      && (p.target.Supplied? && r.value.Typed? ==> forall k | 0 <= k < r.value.data.Length ::
            r.value.data[k] == if k < p.len then p.fcn(calls[k]) else old(r.value.data[k]))
      && (p.target.Supplied? && r.value.Array? ==> forall k | 0 <= k < r.value.items.Length ::
            r.value.items[k] == if k < p.len then Number(p.fcn(calls[k])) else old(r.value.items[k]))
  {
    var plan := Prepare(args);
    if plan.Throw? {
      return Throw(plan.thrown), [];
    }
    RawPlanShape(args);
    assert Snapshot(plan.value.inputs) == old(Snapshot(plan.value.inputs));
    var out;
    out, calls := Execute(plan.value);
    r := Ok(out);
  }
}
