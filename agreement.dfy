/** How the entry points relate: a function built by `factory` computes what `apply`
    computes on the same arguments, and `apply.raw` computes what `apply` computes on the
    calls both accept, while `apply` rejects the unequal lengths that `apply.raw` lets through. */
module Agreement {
  import opened Js
  import Create
  import Factory
  import Apply
  import ApplyRaw

  /** A call that `factory`'s function (built without a callback or options) accepts is
      accepted by `apply` with the same plan: same callback, inputs and length, and an
      allocated float64 output. */
  lemma FactoryAgreesWithApply(a: Factory.Applier, args: seq<Value>)
    requires a.Valid() && a.callback.None? && a.dtype == Float64
    requires a.CallPlan(args).Ok?
    ensures Apply.ApplyPlan(args) == a.CallPlan(args)
  {
    a.CallSucceedsIff(args);
    var roles := a.roles;
    var inputs := args[1..];
    assert forall j | 0 <= j < |roles| :: inputs[j] == args[1 + j];
    var f := Factory.FirstArray(roles);
    assert Create.Fits(roles[|roles| - 1], inputs[|roles| - 1]);
    assert Apply.Last(args) == inputs[|roles| - 1];
    assert Apply.Peel(args) == Ok((Defaults, args));
    assert Apply.Arrange(args) == Ok(Apply.Layout(args[0].fn, None, "float64", inputs));
    RolesClassify(roles, inputs, Length(args[1 + f]));
  }

  /** Inputs that suit their roles, with some array role and all array-role inputs of
      length `len`, classify as `apply` requires, with that length. */
  lemma RolesClassify(roles: seq<Create.Role>, inputs: seq<Value>, len: nat)
    requires |roles| == |inputs| && Create.ArrayRole in roles
    requires forall j | 0 <= j < |roles| :: Create.Fits(roles[j], inputs[j])
    requires forall j | 0 <= j < |roles| :: roles[j] == Create.ArrayRole ==> inputs[j].Typed? && inputs[j].data.Length == len
    ensures Apply.Classify(inputs, None) == Ok(Some(len))
  {
    assert forall j | 0 <= j < |inputs| :: inputs[j].Typed? <==> roles[j] == Create.ArrayRole;
    assert Apply.Uniform(inputs, len);
    Apply.ClassifyOk(inputs, None);
  }

  /** `apply.raw` reads unvalidated options the way `apply` reads validated ones. */
  lemma OptionsAgree(args: seq<Value>)
    requires Apply.Peel(args).Ok?
    ensures !ApplyRaw.RawOptions(args).Null? && !ApplyRaw.RawOptions(args).Undefined?
    ensures var (opts, rest) := Apply.Peel(args).value;
      && ApplyRaw.Count(args) == |rest|
      && rest == args[..|rest|]
      && (ApplyRaw.OutMode(args) <==> opts.out)
      && Ctor(ApplyRaw.RawDtype(args)) == Resolve(DtypeName(opts))
  {
    var (opts, rest) := Apply.Peel(args).value;
    if IsOptionsCandidate(Apply.Last(args)) {
      var v := Apply.Last(args);
      assert Validate(v).Ok?;
      assert v.Object?;
      assert rest == args[..|args| - 1];
    }
  }

  /** On a call `apply` accepts whose inputs include a typed array and no NaN, `apply.raw`
      does not crash and computes the same plan. */
  lemma RawAgreesWithApply(args: seq<Value>)
    requires Apply.ApplyPlan(args).Ok?
    requires var p := Apply.ApplyPlan(args).value;
      && (forall j | 0 <= j < |p.inputs| :: IsNumber(p.inputs[j]) || p.inputs[j].Typed?)
      && Apply.HasTypedArray(p.inputs)
    ensures ApplyRaw.RawWellFormed(args)
    ensures ApplyRaw.RawPlan(args) == Apply.ApplyPlan(args)
  {
    var p := Apply.ApplyPlan(args).value;
    Apply.ApplyPlanShape(args);
    OptionsAgree(args);
    var (opts, rest) := Apply.Peel(args).value;
    var start := if opts.out then 2 else 1;
    assert p.inputs == rest[start..];
    assert ApplyRaw.Inputs(args) == p.inputs;
    var last := ApplyRaw.LastArray(p.inputs);
    assert last.Some?;
    assert Length(p.inputs[last.value]) == p.len;
  }

  /** Where two typed inputs differ in length, `apply` throws, whereas `apply.raw`, on
      the same well-formed call with a usable output, succeeds with the length of the
      last typed input. */
  lemma ApplyRejectsUnequalLengths(args: seq<Value>, j: nat, k: nat)
    requires Apply.Arrange(args).Ok?
    requires var inputs := Apply.Arrange(args).value.inputs;
      && j < |inputs| && k < |inputs| && inputs[j].Typed? && inputs[k].Typed?
      && inputs[j].data.Length != inputs[k].data.Length
    ensures Apply.ApplyPlan(args).Throw?
    ensures var l := Apply.Arrange(args).value;
      ApplyRaw.RawWellFormed(args) && (l.out.Some? || Resolve(l.dtype).Some?) ==>
        && ApplyRaw.RawPlan(args).Ok?
        && ApplyRaw.RawPlan(args).value.inputs == l.inputs
        && exists m | 0 <= m < |l.inputs| ::
             && l.inputs[m].Typed? && ApplyRaw.RawPlan(args).value.len == l.inputs[m].data.Length
             && forall q | m < q < |l.inputs| :: !l.inputs[q].Typed?
  {
    var l := Apply.Arrange(args).value;
    Apply.ClassifyOk(l.inputs, Apply.Fixed(l));
    if ApplyRaw.RawWellFormed(args) && (l.out.Some? || Resolve(l.dtype).Some?) {
      OptionsAgree(args);
      var (opts, rest) := Apply.Peel(args).value;
      var start := if opts.out then 2 else 1;
      assert l.inputs == rest[start..];
      assert ApplyRaw.Inputs(args) == l.inputs;
      ApplyRaw.RawPlanShape(args);
    }
  }
}
