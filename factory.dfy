/** lib/factory.js: parses the construction arguments, resolves the output dtype once,
    specialises an apply function with `create`, and returns a function that checks
    every call's arguments, allocates the output and delegates to the specialised one. */
module Factory {
  import opened Js
  import opened Elementwise
  import opened Create

  /** The construction arguments as the source reads them (lib/factory.js:42-62). */
  datatype Parsed = Parsed(fcn: Option<Value>, types: Value, options: Option<Value>)

  /** `arguments[i]`, undefined past the end. */
  function Arg(cargs: seq<Value>, i: nat): Value {
    if i < |cargs| then cargs[i] else Undefined
  }

  /** One argument is `types`; two are `(fcn, types)` when the first is a function and
      `(types, options)` otherwise; any other count is `(fcn, types, options)`. */
  function Parse(cargs: seq<Value>): Parsed {
    if |cargs| == 1 then Parsed(None, cargs[0], None)
    else if |cargs| == 2 then
      if IsFunction(cargs[0]) then Parsed(Some(cargs[0]), cargs[1], None)
      else Parsed(None, cargs[0], Some(cargs[1]))
    else Parsed(Some(Arg(cargs, 0)), Arg(cargs, 1), Some(Arg(cargs, 2)))
  }

  /** The options after validation; the defaults when none were given. */
  function OptionsOf(p: Parsed): Result<Options> {
    if p.options.None? then Ok(Defaults) else Validate(p.options.value)
  }

  /** The checks that precede the descriptor's own validation all pass: `types` is an
      array, a given callback is a function, the options are valid and name a known dtype. */
  predicate Configured(p: Parsed) {
    && IsArray(p.types)
    && (p.fcn.Some? ==> IsFunction(p.fcn.value))
    && OptionsOf(p).Ok?
    && Resolve(DtypeName(OptionsOf(p).value)).Some?
  }

  /** Index of the first "array" role. */
  function FirstArray(roles: seq<Role>): (r: nat)
    requires ArrayRole in roles
    ensures r < |roles| && roles[r] == ArrayRole
    ensures forall k | 0 <= k < r :: roles[k] == NumberRole
  {
    if roles[0] == ArrayRole then 0 else 1 + FirstArray(roles[1..])
  }

  /** The first argument that does not suit its role, if any (lib/factory.js:131-143). */
  function CheckRoles(roles: seq<Role>, vals: seq<Value>): (e: Option<Thrown>)
    requires |roles| == |vals|
    ensures e.None? <==> forall j | 0 <= j < |roles| :: Fits(roles[j], vals[j])
  {
    if |roles| == 0 then None
    else if !Fits(roles[0], vals[0]) then Some(Misfit(roles[0]))
    else CheckRoles(roles[1..], vals[1..])
  }

  /** The role check reports the first argument that does not suit its role. */
  lemma {:induction false} CheckRolesReportsFirst(roles: seq<Role>, vals: seq<Value>, j: nat)
    requires |roles| == |vals| && j < |roles|
    requires forall k | 0 <= k < j :: Fits(roles[k], vals[k])
    requires !Fits(roles[j], vals[j])
    ensures CheckRoles(roles, vals) == Some(Misfit(roles[j]))
  {
    if j > 0 {
      assert Fits(roles[0], vals[0]);
      assert forall k | 0 <= k < j - 1 :: roles[1..][k] == roles[k + 1] && vals[1..][k] == vals[k + 1];
      CheckRolesReportsFirst(roles[1..], vals[1..], j - 1);
    }
  }

  function Misfit(role: Role): Thrown {
    if role == ArrayRole then TypeError(NotTypedArray) else TypeError(NotNumber)
  }

  /** The function `factory` returns: the state it captured at construction. */
  class Applier {
    const roles: seq<Role>
    const callback: Option<seq<Num> -> Num>
    const dtype: Dtype
    const generated: Specialized
    const num: nat
    const idx: nat

    /** `num` counts the runtime callback, and `idx` is the position in a call's
        arguments of the first array-role input, which gives the output length. */
    ghost predicate Valid() {
      && generated == Specialized(roles, callback)
      && ArrayRole in roles
      && num == Offset(generated) + |roles|
      && idx == Offset(generated) + FirstArray(roles)
    }

    constructor (roles: seq<Role>, callback: Option<seq<Num> -> Num>, dtype: Dtype, generated: Specialized, num: nat, idx: nat)
      requires generated == Specialized(roles, callback) && ArrayRole in roles
      requires num == Offset(generated) + |roles| && idx == Offset(generated) + FirstArray(roles)
      ensures Valid()
      ensures this.roles == roles && this.callback == callback && this.dtype == dtype
      ensures this.generated == generated && this.num == num && this.idx == idx
    {
      this.roles := roles;
      this.callback := callback;
      this.dtype := dtype;
      this.generated := generated;
      this.num := num;
      this.idx := idx;
    }

    /** What a call does, in the order the source checks: a runtime callback that is not
        a function (before the arity), the argument count, each argument's role, and,
        inside the specialised function, array-role inputs whose lengths differ from the
        first one's. */
    function CallPlan(args: seq<Value>): (r: Result<Plan>)
      requires Valid()
      ensures callback.None? && (|args| == 0 || !IsFunction(args[0])) ==> r == Throw(TypeError(CallbackNotFunction))
      ensures r.Ok? ==>
        && |args| == num
        && r.value.inputs == args[Offset(generated)..]
        && r.value.target == Allocate(dtype)
        && r.value.fcn == (if callback.Some? then callback.value else args[0].fn)
    {
      if callback.None? && (|args| == 0 || !IsFunction(args[0])) then Throw(TypeError(CallbackNotFunction))
      else if |args| != num then Throw(Error(ArityMismatch))
      else
        var vals := args[Offset(generated)..];
        match CheckRoles(roles, vals)
        case Some(e) => Throw(e)
        case None =>
          var len := Length(args[idx]);
          if exists j | 0 <= j < |roles| :: roles[j] == ArrayRole && Length(vals[j]) != len then
            Throw(Error(LengthMismatch))
          else
            Ok(Plan(if callback.Some? then callback.value else args[0].fn, Allocate(dtype), vals, len))
    }

    /** A call succeeds exactly when the callback is callable, the argument count is the
        one the descriptor implies, every argument suits its role and all array-role
        arguments are as long as the first; the output is then that long. */
    lemma CallSucceedsIff(args: seq<Value>)
      requires Valid()
      ensures CallPlan(args).Ok? <==>
        && (callback.Some? || (|args| >= 1 && IsFunction(args[0])))
        && |args| == num
        && (forall j | 0 <= j < |roles| :: Fits(roles[j], args[Offset(generated) + j]))
        && (forall j | 0 <= j < |roles| :: roles[j] == ArrayRole ==>
              Length(args[Offset(generated) + j]) == Length(args[Offset(generated) + FirstArray(roles)]))
      ensures CallPlan(args).Ok? ==> CallPlan(args).value.len == Length(args[Offset(generated) + FirstArray(roles)])
    {
      PlanChecks(args);
      if (callback.Some? || (|args| >= 1 && IsFunction(args[0]))) && |args| == num {
        var vals := args[Offset(generated)..];
        assert forall j | 0 <= j < |roles| :: vals[j] == args[Offset(generated) + j];
        if CheckRoles(roles, vals).None? {
          PlanAfterRoles(args);
        }
      }
    }

    /** The checks before the specialised function runs, in the order `apply` makes them. */
    lemma PlanChecks(args: seq<Value>)
      requires Valid()
      ensures callback.None? && (|args| == 0 || !IsFunction(args[0])) ==>
        CallPlan(args) == Throw(TypeError(CallbackNotFunction))
      ensures (callback.Some? || (|args| >= 1 && IsFunction(args[0]))) && |args| != num ==>
        CallPlan(args) == Throw(Error(ArityMismatch))
      ensures ((callback.Some? || (|args| >= 1 && IsFunction(args[0]))) && |args| == num &&
               CheckRoles(roles, args[Offset(generated)..]).Some?) ==>
        CallPlan(args) == Throw(CheckRoles(roles, args[Offset(generated)..]).value)
    {
    }

    /** The role loop ended without a misfit: every argument suits its role, and the
        first array-role argument, which sizes the output, is a typed array. */
    lemma RolesFit(args: seq<Value>)
      requires Valid() && |args| == num
      requires CheckRoles(roles, args[Offset(generated)..]).None?
      ensures forall j | 0 <= j < |roles| :: Fits(roles[j], args[Offset(generated) + j])
      ensures args[idx].Typed?
    {
      var vals := args[Offset(generated)..];
      assert forall j | 0 <= j < |roles| :: vals[j] == args[Offset(generated) + j];
      assert Fits(roles[FirstArray(roles)], vals[FirstArray(roles)]);
    }

    /** Once the arguments have passed the role check, the call plan is decided by the
        lengths of the array-role inputs alone. */
    lemma PlanAfterRoles(args: seq<Value>)
      requires Valid() && |args| == num
      requires callback.None? ==> |args| >= 1 && IsFunction(args[0])
      requires CheckRoles(roles, args[Offset(generated)..]).None?
      ensures args[idx].Typed?
      ensures CallPlan(args) ==
        var vals := args[Offset(generated)..];
        if exists j | 0 <= j < |roles| :: roles[j] == ArrayRole && Length(vals[j]) != Length(args[idx])
        then Throw(Error(LengthMismatch))
        else Ok(Plan(if callback.Some? then callback.value else args[0].fn, Allocate(dtype), vals, Length(args[idx])))
    {
      RolesFit(args);
    }

    /** The arguments `apply` hands to the specialised function, with the fresh output
        placed after the runtime callback, are the ones it is written for. */
    lemma PassOutput(args: seq<Value>, out: Value, full: seq<Value>)
      requires Valid() && |args| == num
      requires callback.None? ==> |args| >= 1 && IsFunction(args[0])
      requires CheckRoles(roles, args[Offset(generated)..]).None?
      requires out.Typed?
      requires full == if callback.None? then [args[0], out] + args[1..] else [out] + args
      ensures WellTyped(generated, full)
      ensures OutputOf(generated, full) == out
      ensures InputsOf(generated, full) == args[Offset(generated)..]
      ensures CallbackOf(generated, full) == if callback.Some? then callback.value else args[0].fn
    {
      assert InputsOf(generated, full) == args[Offset(generated)..];
      RolesFit(args);
    }

    /** `apply( [fcn,] ...value )`: on success a fresh typed array of the configured
        dtype, as long as the first array-role input, holding the callback's results. */
    method Apply(args: seq<Value>) returns (r: Result<Value>, ghost calls: seq<seq<Num>>)
      requires Valid()
      ensures CallPlan(args).Throw? ==> r == Throw(CallPlan(args).thrown) && calls == []
      ensures CallPlan(args).Ok? ==>
        var p := CallPlan(args).value;
        && r.Ok? && r.value.Typed? && r.value.dtype == dtype && fresh(r.value.data)
        && Covers(old(Snapshot(p.inputs)), p.len)
        && calls == Calls(old(Snapshot(p.inputs)), p.len)
        && Holds(r.value, Results(p.fcn, calls))
    {
      PlanChecks(args);
      calls := [];
      var nargs := |args|;
      var k := 0;
      if callback.None? {
        var fcn := if nargs >= 1 then args[0] else Undefined;
        k := 1;
        if !IsFunction(fcn) {
          return Throw(TypeError(CallbackNotFunction)), [];
        }
      }
      if nargs != num {
        return Throw(Error(ArityMismatch)), [];
      }
      assert k == Offset(generated);
      var misfit := CheckArgs(args, k);
      if misfit.Some? {
        return Throw(misfit.value), [];
      }
      ghost var vals := args[k..];
      assert Scalars(vals) by {
        assert forall j | 0 <= j < |roles| :: Fits(roles[j], vals[j]);
      }
      assert Snapshot(vals) == old(Snapshot(vals));
      r, calls := Evaluate(args);
    }

    /** The role loop of lib/factory.js:131-143: the first argument that does not suit
        its role, if any. */
    method CheckArgs(args: seq<Value>, k: nat) returns (e: Option<Thrown>)
      requires Valid() && |args| == num && k == Offset(generated)
      ensures e == CheckRoles(roles, args[k..])
    {
      ghost var vals := args[k..];
      var i := k;
      while i < |args|
        invariant k <= i <= |args|
        invariant forall j | 0 <= j < i - k :: Fits(roles[j], vals[j])
      {
        var j := i - k;
        var x := args[i];
        assert x == vals[j];
        if roles[j] == ArrayRole && !IsTypedArrayLike(x) {
          CheckRolesReportsFirst(roles, vals, j);
          return Some(TypeError(NotTypedArray));
        } else if roles[j] == NumberRole && (SelfEqual(x) && !IsNumber(x)) {
          CheckRolesReportsFirst(roles, vals, j);
          return Some(TypeError(NotNumber));
        }
        i := i + 1;
      }
      e := None;
    }

    /** The end of a call whose arguments passed the checks: allocate a zero-filled
        output as long as the first array-role input and run the specialised function,
        which may still throw on a length mismatch. */
    method Evaluate(args: seq<Value>) returns (r: Result<Value>, ghost calls: seq<seq<Num>>)
      requires Valid() && |args| == num
      requires callback.None? ==> |args| >= 1 && IsFunction(args[0])
      requires CheckRoles(roles, args[Offset(generated)..]).None?
      ensures CallPlan(args).Throw? ==> r == Throw(CallPlan(args).thrown) && calls == []
      ensures CallPlan(args).Ok? ==>
        var p := CallPlan(args).value;
        && r.Ok? && r.value.Typed? && r.value.dtype == dtype && fresh(r.value.data)
        && Covers(old(Snapshot(p.inputs)), p.len)
        && calls == Calls(old(Snapshot(p.inputs)), p.len)
        && Holds(r.value, Results(p.fcn, calls))
    {
      PlanAfterRoles(args);
      ghost var vals := args[Offset(generated)..];
      var data := new Num[Length(args[idx])](_ => Finite(0.0));
      var out := Typed(dtype, data);
      var full := if callback.None? then [args[0], out] + args[1..] else [out] + args;
      PassOutput(args, out, full);
      assert Snapshot(vals) == old(Snapshot(vals));
      r, calls := Invoke(generated, full);
    }
  }

  /** The scan for the first "array" entry finds the position of the first array role
      of a valid descriptor. */
  lemma FirstArrayEntry(entries: seq<Value>, first: Option<nat>)
    requires Descriptor(entries).Ok?
    requires first.None? ==> forall k | 0 <= k < |entries| :: RoleOf(entries[k]) != Some(ArrayRole)
    requires first.Some? ==>
      && first.value < |entries|
      && RoleOf(entries[first.value]) == Some(ArrayRole)
      && forall k | 0 <= k < first.value :: RoleOf(entries[k]) != Some(ArrayRole)
    ensures first == Some(FirstArray(Descriptor(entries).value))
  {
    var roles := Descriptor(entries).value;
    var f := FirstArray(roles);
    assert RoleOf(entries[f]) == Some(ArrayRole);
    assert first.Some? ==> RoleOf(entries[first.value]) == Some(roles[first.value]);
  }

  /** `factory( [fcn,] types[, options] )`. Construction fails, in this order, when
      `types` is not an array, a given callback is not a function, the options are
      invalid, the dtype has no constructor, and then as `create` fails on the descriptor. */
  method Factory(cargs: seq<Value>) returns (r: Result<Applier>)
    ensures var p := Parse(cargs);
      !IsArray(p.types) ==> r == Throw(TypeError(TypesNotArray))
    ensures var p := Parse(cargs);
      IsArray(p.types) && p.fcn.Some? && !IsFunction(p.fcn.value) ==> r == Throw(TypeError(CallbackNotFunction))
    ensures var p := Parse(cargs);
      (IsArray(p.types) && (p.fcn.Some? ==> IsFunction(p.fcn.value)) && OptionsOf(p).Throw?) ==>
        r == Throw(OptionsOf(p).thrown)
    ensures var p := Parse(cargs);
      (IsArray(p.types) && (p.fcn.Some? ==> IsFunction(p.fcn.value)) && OptionsOf(p).Ok? &&
       Resolve(DtypeName(OptionsOf(p).value)).None?) ==> r == Throw(Error(UnknownDtype))
    ensures var p := Parse(cargs);
      Configured(p) && Descriptor(p.types.items[..]).Throw? ==> r == Throw(Descriptor(p.types.items[..]).thrown)
    ensures var p := Parse(cargs);
      Configured(p) && Descriptor(p.types.items[..]).Ok? ==>
        && r.Ok? && r.value.Valid()
        && r.value.roles == Descriptor(p.types.items[..]).value
        && r.value.dtype == Resolve(DtypeName(OptionsOf(p).value)).value
        && r.value.callback == (if p.fcn.Some? then Some(p.fcn.value.fn) else None)
  {
    ghost var p := Parse(cargs);
    var fcn: Option<Value> := None;
    var types: Value;
    var options: Option<Value> := None;
    if |cargs| == 1 {
      types := cargs[0];
    } else if |cargs| == 2 {
      if IsFunction(cargs[0]) {
        fcn, types := Some(cargs[0]), cargs[1];
      } else {
        types, options := cargs[0], Some(cargs[1]);
      }
    } else {
      fcn, types, options := Some(Arg(cargs, 0)), Arg(cargs, 1), Some(Arg(cargs, 2));
    }
    if !IsArray(types) {
      return Throw(TypeError(TypesNotArray));
    }
    if fcn.Some? && !IsFunction(fcn.value) {
      return Throw(TypeError(CallbackNotFunction));
    }
    var opts := Defaults;
    if options.Some? {
      var v := Validate(options.value);
      if v.Throw? {
        return Throw(v.thrown);
      }
      opts := v.value;
    }
    // The position of the first "array" entry, before the descriptor is validated.
    var items := types.items;
    var first: Option<nat> := None;
    var i := 0;
    while i < items.Length
      invariant i <= items.Length
      invariant forall k | 0 <= k < i :: RoleOf(items[k]) != Some(ArrayRole)
    {
      if items[i].Str? && items[i].s == "array" {
        first := Some(i);
        break;
      }
      i := i + 1;
    }
    var ctor := Resolve(DtypeName(opts));
    if ctor.None? {
      return Throw(Error(UnknownDtype));
    }
    var cargs' := if fcn.None? then [types] else [fcn.value, types];
    var created := Create.Create(cargs');
    if created.Throw? {
      return Throw(created.thrown);
    }
    var s := created.value;
    FirstArrayEntry(items[..], first);
    assert s.roles == Descriptor(items[..]).value && s == Specialized(s.roles, s.fixed);
    var num := items.Length + Offset(s);
    var idx := first.value + Offset(s);
    var applier := new Applier(s.roles, s.fixed, ctor.value, s, num, idx);
    r := Ok(applier);
  }
}
