/** lib/apply.js: the validating entry point. The roles of the inputs are inferred at
    call time; a trailing options object may select the output dtype or say that the
    caller supplies the output array. */
module Apply {
  import opened Js
  import opened Elementwise

  /** The last argument, undefined when there is none. */
  function Last(args: seq<Value>): Value {
    if |args| == 0 then Undefined else args[|args| - 1]
  }

  /** A trailing argument that is neither typed-array-like, nor a number, nor NaN is
      taken as the options and validated; otherwise the options are the defaults. A
      call without arguments thus validates `undefined` as its options. */
  function Peel(args: seq<Value>): Result<(Options, seq<Value>)> {
    if !IsOptionsCandidate(Last(args)) then Ok((Defaults, args))
    else
      match Validate(Last(args))
      case Throw(e) => Throw(e)
      case Ok(opts) => Ok((opts, args[..|args| - 1]))
  }

  /** Input classification (lib/apply.js:75-92), given the length fixed so far: a typed
      array must have that length, or fixes it when none is fixed; a number, NaN
      included, is a scalar; anything else is rejected. The result is the final length. */
  function Classify(inputs: seq<Value>, len: Option<nat>): (r: Result<Option<nat>>)
    ensures r.Ok? && len.Some? ==> r.value == len
  {
    if |inputs| == 0 then Ok(len)
    else
      var x := inputs[0];
      if x.Typed? then
        if len.None? then Classify(inputs[1..], Some(x.data.Length))
        else if x.data.Length != len.value then Throw(Error(LengthMismatch))
        else Classify(inputs[1..], len)
      else if x.Number? then Classify(inputs[1..], len)
      else Throw(TypeError(BadInput))
  }

  /** Every typed array among the inputs has length `n`. */
  predicate Uniform(inputs: seq<Value>, n: nat) {
    forall j | 0 <= j < |inputs| :: inputs[j].Typed? ==> inputs[j].data.Length == n
  }

  predicate HasTypedArray(inputs: seq<Value>) {
    exists j | 0 <= j < |inputs| :: inputs[j].Typed?
  }

  /** All typed arrays among the inputs have one length. */
  predicate SameLength(inputs: seq<Value>) {
    forall j, k | 0 <= j < |inputs| && 0 <= k < |inputs| && inputs[j].Typed? && inputs[k].Typed? ::
      inputs[j].data.Length == inputs[k].data.Length
  }

  /** Classification succeeds exactly when every input is a typed array or a number and
      all typed arrays share one length, which is the length fixed beforehand if any. */
  lemma {:induction false} ClassifyOk(inputs: seq<Value>, len: Option<nat>)
    ensures Classify(inputs, len).Ok? <==>
      && Scalars(inputs)
      && (len.Some? ==> Uniform(inputs, len.value))
      && (len.None? ==> SameLength(inputs))
    ensures Classify(inputs, len).Ok? ==>
      match Classify(inputs, len).value
      case Some(n) => Uniform(inputs, n) && (len.None? ==> HasTypedArray(inputs))
      case None => len.None? && !HasTypedArray(inputs)
  {
    if |inputs| > 0 {
      var x := inputs[0];
      var tail := inputs[1..];
      assert forall j | 0 <= j < |tail| :: tail[j] == inputs[j + 1];
      var next := if x.Typed? && len.None? then Some(x.data.Length) else len;
      ClassifyOk(tail, next);
      if Classify(inputs, len).Ok? {
        assert inputs == [x] + tail;
      }
      if x.Typed? && len.None? && Classify(tail, next).Ok? {
        assert Uniform(tail, x.data.Length);
      }
    }
  }

  /** Classification reports the first input that breaks the rules, given that every
      earlier input is a number or a typed array of length `n`, the length fixed so far:
      an input that is neither is a TypeError, and a typed array of another length is an
      Error once some length is fixed. */
  lemma {:induction false} ClassifyReportsFirst(inputs: seq<Value>, len: Option<nat>, n: nat, j: nat)
    requires j < |inputs|
    requires len.Some? ==> len.value == n
    requires forall k | 0 <= k < j :: inputs[k].Number? || (inputs[k].Typed? && inputs[k].data.Length == n)
    ensures !(inputs[j].Number? || inputs[j].Typed?) ==> Classify(inputs, len) == Throw(TypeError(BadInput))
    ensures inputs[j].Typed? && inputs[j].data.Length != n && (len.Some? || exists k | 0 <= k < j :: inputs[k].Typed?) ==>
      Classify(inputs, len) == Throw(Error(LengthMismatch))
  {
    if j > 0 {
      var x := inputs[0];
      var tail := inputs[1..];
      var next := if x.Typed? && len.None? then Some(x.data.Length) else len;
      assert forall k | 0 <= k < j - 1 :: tail[k] == inputs[k + 1];
      if exists k | 0 <= k < j :: inputs[k].Typed? {
        var k :| 0 <= k < j && inputs[k].Typed?;
        if k > 0 {
          assert tail[k - 1].Typed?;
        }
      }
      ClassifyReportsFirst(tail, next, n, j - 1);
    }
  }

  /** A call after its arguments have been laid out: the callback, the supplied output
      (present exactly when the options ask for one), the dtype name for an allocated
      output, and the inputs. */
  datatype Layout = Layout(fcn: seq<Num> -> Num, out: Option<Value>, dtype: string, inputs: seq<Value>)

  /** The checks of lib/apply.js:45-73, in order: options, callback, supplied output,
      presence of inputs. */
  function Arrange(args: seq<Value>): (r: Result<Layout>)
    ensures r.Ok? ==> |r.value.inputs| > 0
    ensures r.Ok? && r.value.out.Some? ==> r.value.out.value.Typed? || r.value.out.value.Array?
  {
    match Peel(args)
    case Throw(e) => Throw(e)
    case Ok((opts, rest)) =>
      if |rest| == 0 || !IsFunction(rest[0]) then Throw(TypeError(CallbackNotFunction))
      else
        var fcn := rest[0].fn;
        var rest := rest[1..];
        if opts.out && (|rest| == 0 || !(rest[0].Typed? || rest[0].Array?)) then Throw(TypeError(BadOutput))
        else
          var inputs := if opts.out then rest[1..] else rest;
          if |inputs| == 0 then Throw(Error(NoInputs))
          else Ok(Layout(fcn, if opts.out then Some(rest[0]) else None, DtypeName(opts), inputs))
  }

  /** The length a supplied output fixes before the inputs are classified. */
  function Fixed(l: Layout): Option<nat>
    requires l.out.Some? ==> l.out.value.Typed? || l.out.value.Array?
  {
    if l.out.Some? then Some(Length(l.out.value)) else None
  }

  /** The checks of lib/apply.js:74-103, in order: input classification (the supplied
      output fixes the length), presence of a typed array, the dtype of an allocated output. */
  function Finish(l: Layout): (r: Result<Plan>)
    requires l.out.Some? ==> l.out.value.Typed? || l.out.value.Array?
    ensures r.Ok? ==> r.value.inputs == l.inputs && r.value.fcn == l.fcn
    ensures r.Ok? ==> Scalars(l.inputs) && Uniform(l.inputs, r.value.len)
    ensures r.Ok? && l.out.Some? ==> r.value.target == Supplied(l.out.value) && r.value.len == Length(l.out.value)
    ensures r.Ok? && l.out.None? ==>
      && HasTypedArray(l.inputs)
      && Resolve(l.dtype).Some? && r.value.target == Allocate(Resolve(l.dtype).value)
    ensures l.out.None? && Resolve(l.dtype).None? ==> r.Throw?
  {
    var fixed := Fixed(l);
    ClassifyOk(l.inputs, fixed);
    match Classify(l.inputs, fixed)
    case Throw(e) => Throw(e)
    case Ok(None) => Throw(Error(NoTypedArray))
    case Ok(Some(len)) =>
      if l.out.Some? then Ok(Plan(l.fcn, Supplied(l.out.value), l.inputs, len))
      else
        match Resolve(l.dtype)
        case None => Throw(Error(UnknownDtype))
        case Some(d) => Ok(Plan(l.fcn, Allocate(d), l.inputs, len))
  }

  /** What a call does, in the order lib/apply.js checks. */
  function ApplyPlan(args: seq<Value>): (r: Result<Plan>)
  {
    match Arrange(args)
    case Throw(e) => Throw(e)
    case Ok(l) => Finish(l)
  }

  /** Where lib/apply.js:45-103 throws, in the order it checks: the options validator's
      error; a first remaining argument that is not a function; in out mode, a missing
      output or one that is neither a typed nor a generic array; no inputs left; the
      first input that classification rejects; only numbers among the inputs and no
      supplied output; an allocated output whose dtype names no constructor. */
  lemma ApplyChecks(args: seq<Value>)
    ensures IsOptionsCandidate(Last(args)) && Validate(Last(args)).Throw? ==>
      ApplyPlan(args) == Throw(Validate(Last(args)).thrown)
    ensures Peel(args).Ok? ==>
      var (opts, rest) := Peel(args).value;
      && ((|rest| == 0 || !IsFunction(rest[0])) ==> ApplyPlan(args) == Throw(TypeError(CallbackNotFunction)))
      && ((|rest| >= 1 && IsFunction(rest[0]) && opts.out && (|rest| == 1 || !(rest[1].Typed? || rest[1].Array?))) ==>
            ApplyPlan(args) == Throw(TypeError(BadOutput)))
      && ((|rest| >= 1 && IsFunction(rest[0]) && (opts.out ==> |rest| >= 2 && (rest[1].Typed? || rest[1].Array?)) &&
           |rest| == (if opts.out then 2 else 1)) ==>
            ApplyPlan(args) == Throw(Error(NoInputs)))
    ensures Arrange(args).Ok? ==>
      var l := Arrange(args).value;
      && (Classify(l.inputs, Fixed(l)).Throw? ==> ApplyPlan(args) == Throw(Classify(l.inputs, Fixed(l)).thrown))
      && ((l.out.None? && forall j | 0 <= j < |l.inputs| :: l.inputs[j].Number?) ==>
            ApplyPlan(args) == Throw(Error(NoTypedArray)))
      && ((l.out.None? && Scalars(l.inputs) && SameLength(l.inputs) && HasTypedArray(l.inputs) && Resolve(l.dtype).None?) ==>
            ApplyPlan(args) == Throw(Error(UnknownDtype)))
  {
    if Arrange(args).Ok? {
      var l := Arrange(args).value;
      ClassifyOk(l.inputs, Fixed(l));
    }
  }

  /** A call succeeds exactly when, after the options are peeled off, the first argument
      is a function; in out mode the next one is a typed or generic array; inputs
      remain; every input is a number or a typed array; and the typed arrays share the
      supplied output's length, or else share one length, exist, and the dtype names a
      constructor. The allocated output then has that dtype. */
  lemma ApplySucceedsIff(args: seq<Value>)
    ensures ApplyPlan(args).Ok? <==>
      && Peel(args).Ok?
      && var (opts, rest) := Peel(args).value;
      && |rest| >= 1 && IsFunction(rest[0])
      && var start := if opts.out then 2 else 1;
      && |rest| > start
      && (opts.out ==> rest[1].Typed? || rest[1].Array?)
      && var inputs := rest[start..];
      && Scalars(inputs)
      && (opts.out ==> Uniform(inputs, Length(rest[1])))
      && (!opts.out ==> SameLength(inputs) && HasTypedArray(inputs) && Resolve(DtypeName(opts)).Some?)
    ensures ApplyPlan(args).Ok? && !Peel(args).value.0.out ==>
      ApplyPlan(args).value.target == Allocate(Resolve(DtypeName(Peel(args).value.0)).value)
  {
    if Arrange(args).Ok? {
      var l := Arrange(args).value;
      ClassifyOk(l.inputs, Fixed(l));
      if l.out.None? && SameLength(l.inputs) && HasTypedArray(l.inputs) {
        var j :| 0 <= j < |l.inputs| && l.inputs[j].Typed?;
        assert Uniform(l.inputs, l.inputs[j].data.Length);
      }
    }
  }

  /** A successful call has inputs that are typed arrays and numbers, all typed arrays
      of one length, and an output of that length: the supplied output's, or else the
      length of the typed arrays, of which there is at least one. */
  lemma ApplyPlanShape(args: seq<Value>)
    requires ApplyPlan(args).Ok?
    ensures var p := ApplyPlan(args).value;
      && |p.inputs| > 0
      && Scalars(p.inputs)
      && Uniform(p.inputs, p.len)
      && (p.target.Supplied? ==> (p.target.out.Typed? || p.target.out.Array?) && Length(p.target.out) == p.len)
      && (p.target.Allocate? ==> HasTypedArray(p.inputs))
  {
  }

  /** The classification loop (lib/apply.js:74-92). */
  method ClassifyInputs(inputs: seq<Value>, fixed: Option<nat>) returns (r: Result<Option<nat>>)
    ensures r == Classify(inputs, fixed)
  {
    var len := fixed;
    var i := 0;
    while i < |inputs|
      invariant i <= |inputs|
      invariant Classify(inputs, fixed) == Classify(inputs[i..], len)
    {
      var x := inputs[i];
      assert inputs[i..][1..] == inputs[i + 1..];
      if IsTypedArrayLike(x) {
        if len.None? {
          len := Some(x.data.Length);
        } else if x.data.Length != len.value {
          return Throw(Error(LengthMismatch));
        }
      } else if IsNumber(x) || !SelfEqual(x) {
        // a scalar
      } else {
        return Throw(TypeError(BadInput));
      }
      i := i + 1;
    }
    r := Ok(len);
  }

  /** `apply( fcn, ...value[, opts] )`: on success the output (the supplied array itself,
      or a fresh typed array of the chosen dtype) holds, at every index below the common
      length, the callback applied to that index's arguments. */
  method Apply(args: seq<Value>) returns (r: Result<Value>, ghost calls: seq<seq<Num>>)
    modifies if Arrange(args).Ok? then Written(Arrange(args).value.out) else {}
    ensures ApplyPlan(args).Throw? ==> r == Throw(ApplyPlan(args).thrown) && calls == []
    ensures ApplyPlan(args).Throw? && Arrange(args).Ok? ==> unchanged(Written(Arrange(args).value.out))
    ensures ApplyPlan(args).Ok? ==>
      var p := ApplyPlan(args).value;
      && r.Ok?
      && (p.target.Supplied? ==> r.value == p.target.out)
      && (p.target.Allocate? ==> r.value.Typed? && r.value.dtype == p.target.dtype && fresh(r.value.data))
      && Covers(old(Snapshot(p.inputs)), p.len)
      && calls == Calls(old(Snapshot(p.inputs)), p.len)
      && (r.value.Typed? || r.value.Array?)
      && Holds(r.value, Results(p.fcn, calls))
  {
    calls := [];
    var a := args;
    var nargs := |a|;
    var opts := Defaults;
    var x := if nargs >= 1 then a[nargs - 1] else Undefined;
    if IsOptionsCandidate(x) {
      var v := Validate(x);
      if v.Throw? {
        return Throw(v.thrown), [];
      }
      opts := v.value;
      nargs := nargs - 1;
      a := a[..nargs];
    }
    assert Peel(args) == Ok((opts, a));
    if |a| == 0 || !IsFunction(a[0]) {
      return Throw(TypeError(CallbackNotFunction)), [];
    }
    var fcn := a[0].fn;
    a := a[1..];
    var out: Option<Value> := None;
    if opts.out {
      var o := if |a| > 0 then a[0] else Undefined;
      if !IsTypedArrayLike(o) && !IsArray(o) {
        return Throw(TypeError(BadOutput)), [];
      }
      out := Some(o);
      a := a[1..];
    }
    if |a| == 0 {
      return Throw(Error(NoInputs)), [];
    }
    assert Arrange(args) == Ok(Layout(fcn, out, DtypeName(opts), a));
    r, calls := Run(Layout(fcn, out, DtypeName(opts), a));
  }

  /** The rest of a call once its arguments are laid out (lib/apply.js:74-115):
      classify the inputs, allocate the output unless one was supplied, fill it. */
  method Run(l: Layout) returns (r: Result<Value>, ghost calls: seq<seq<Num>>)
    requires l.out.Some? ==> l.out.value.Typed? || l.out.value.Array?
    modifies Written(l.out)
    ensures Finish(l).Throw? ==> r == Throw(Finish(l).thrown) && calls == [] && unchanged(Written(l.out))
    ensures Finish(l).Ok? ==>
      var p := Finish(l).value;
      && r.Ok?
      && (p.target.Supplied? ==> r.value == p.target.out)
      && (p.target.Allocate? ==> r.value.Typed? && r.value.dtype == p.target.dtype && fresh(r.value.data))
      && Covers(old(Snapshot(p.inputs)), p.len)
      && calls == Calls(old(Snapshot(p.inputs)), p.len)
      && (r.value.Typed? || r.value.Array?)
      && Holds(r.value, Results(p.fcn, calls))
  {
    calls := [];
    var fixed := Fixed(l);
    ClassifyOk(l.inputs, fixed);
    var classified := ClassifyInputs(l.inputs, fixed);
    if classified.Throw? {
      return Throw(classified.thrown), [];
    }
    if classified.value.None? {
      return Throw(Error(NoTypedArray)), [];
    }
    var len := classified.value.value;
    var target: Target;
    if l.out.Some? {
      target := Supplied(l.out.value);
    } else {
      var ctor := Resolve(l.dtype);
      if ctor.None? {
        return Throw(Error(UnknownDtype)), [];
      }
      target := Allocate(ctor.value);
    }
    var out;
    assert Snapshot(l.inputs) == old(Snapshot(l.inputs));
    out, calls := Execute(Plan(l.fcn, target, l.inputs, len));
    r := Ok(out);
  }
}
