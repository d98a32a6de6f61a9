/** lib/create.js: validates a shape descriptor (an ordered list of "array" and "number"
    roles) and specialises an apply function to it. The source builds the function as
    JavaScript text and compiles it; this module models what the generated function does. */
module Create {
  import opened Js
  import opened Elementwise

  datatype Role = ArrayRole | NumberRole

  /** One descriptor entry: only the strings "array" and "number" name a role. */
  function RoleOf(v: Value): Option<Role> {
    if v.Str? && v.s == "array" then Some(ArrayRole)
    else if v.Str? && v.s == "number" then Some(NumberRole)
    else None
  }

  /** The roles of the descriptor entries, read in order; an entry that names no role fails. */
  function ParseRoles(entries: seq<Value>): (r: Result<seq<Role>>)
    ensures r.Ok? <==> forall i | 0 <= i < |entries| :: RoleOf(entries[i]).Some?
    ensures r.Ok? ==> |r.value| == |entries|
    ensures r.Ok? ==> forall i | 0 <= i < |entries| :: RoleOf(entries[i]) == Some(r.value[i])
    ensures r.Throw? ==> r.thrown == TypeError(UnknownRole)
  {
    if |entries| == 0 then Ok([])
    else
      match RoleOf(entries[0])
      case None => Throw(TypeError(UnknownRole))
      case Some(role) =>
        match ParseRoles(entries[1..])
        case Ok(rest) => Ok([role] + rest)
        case Throw(e) => Throw(e)
  }

  /** Descriptor validation: an entry that is neither "array" nor "number" is a TypeError,
      whatever the other entries are; a descriptor without an "array" entry is an Error. */
  function Descriptor(entries: seq<Value>): (r: Result<seq<Role>>)
    ensures r.Ok? <==>
      && (forall i | 0 <= i < |entries| :: RoleOf(entries[i]).Some?)
      && (exists i | 0 <= i < |entries| :: RoleOf(entries[i]) == Some(ArrayRole))
    ensures r.Ok? ==> |r.value| == |entries| && ArrayRole in r.value
    ensures r.Ok? ==> forall i | 0 <= i < |entries| :: RoleOf(entries[i]) == Some(r.value[i])
    ensures (exists i | 0 <= i < |entries| :: RoleOf(entries[i]).None?) ==> r == Throw(TypeError(UnknownRole))
    ensures (forall i | 0 <= i < |entries| :: RoleOf(entries[i]) == Some(NumberRole)) ==> r == Throw(Error(NoArrayRole))
  {
    match ParseRoles(entries)
    case Throw(e) => Throw(e)
    case Ok(roles) =>
      if ArrayRole in roles then Ok(roles)
      else Throw(Error(NoArrayRole))
  }

  /** A generated apply function: the roles it was compiled for, and the callback bound
      to it (`apply._f`), or None when the callback is its first runtime argument. */
  datatype Specialized = Specialized(roles: seq<Role>, fixed: Option<seq<Num> -> Num>)

  /** create's signature (lib/create.js:30-41): one argument is the descriptor alone;
      with two or more, the first must be the callback to fix and the second is the descriptor. */
  predicate Recognised(cargs: seq<Value>) {
    |cargs| == 1 || (|cargs| >= 2 && IsFunction(cargs[0]))
  }

  function DescriptorArg(cargs: seq<Value>): Value
    requires Recognised(cargs)
  {
    if |cargs| == 1 then cargs[0] else cargs[1]
  }

  function FixedCallback(cargs: seq<Value>): Option<seq<Num> -> Num>
    requires Recognised(cargs)
  {
    if |cargs| == 1 then None else Some(cargs[0].fn)
  }

  /** `create( [fcn,] types )`. The descriptor's entries are scanned in order as in
      the source: the first entry naming no role throws. */
  method Create(cargs: seq<Value>) returns (r: Result<Specialized>)
    ensures !Recognised(cargs) ==> r == Throw(TypeError(CallbackNotFunction))
    ensures Recognised(cargs) && !IsArray(DescriptorArg(cargs)) ==> r == Throw(TypeError(TypesNotArray))
    ensures Recognised(cargs) && IsArray(DescriptorArg(cargs)) ==>
      var d := Descriptor(DescriptorArg(cargs).items[..]);
      r == if d.Throw? then Throw(d.thrown) else Ok(Specialized(d.value, FixedCallback(cargs)))
  {
    var types: Value;
    var fixed: Option<seq<Num> -> Num>;
    if |cargs| == 1 {
      types, fixed := cargs[0], None;
    } else if |cargs| >= 2 && IsFunction(cargs[0]) {
      types, fixed := cargs[1], Some(cargs[0].fn);
    } else {
      return Throw(TypeError(CallbackNotFunction));
    }
    if !IsArray(types) {
      return Throw(TypeError(TypesNotArray));
    }
    var items := types.items;
    var num := items.Length;
    var n: Option<nat> := None;  // index of the last "array" entry seen
    var roles: seq<Role> := [];
    var i := 0;
    while i < num
      invariant i <= num
      invariant |roles| == i
      invariant forall k | 0 <= k < i :: RoleOf(items[k]) == Some(roles[k])
      invariant n.None? <==> ArrayRole !in roles
      invariant n.Some? ==> n.value < i && roles[n.value] == ArrayRole
    {
      var t := items[i];
      if t.Str? && t.s == "array" {
        n := Some(i);
        roles := roles + [ArrayRole];
      } else if !(t.Str? && t.s == "number") {
        assert RoleOf(items[..][i]).None?;
        return Throw(TypeError(UnknownRole));
      } else {
        roles := roles + [NumberRole];
      }
      i := i + 1;
    }
    ghost var d := Descriptor(items[..]);
    if n.None? {
      assert forall k | 0 <= k < num :: RoleOf(items[..][k]) == Some(NumberRole);
      return Throw(Error(NoArrayRole));
    }
    assert RoleOf(items[..][n.value]) == Some(ArrayRole);
    assert d.Ok? && d.value == roles;
    r := Ok(Specialized(roles, fixed));
  }

  /** Number of leading arguments before the inputs: the runtime callback, if any. */
  function Offset(s: Specialized): nat {
    if s.fixed.None? then 1 else 0
  }

  /** `apply( [fcn,] o, v1, ..., vN )` */
  function Arity(s: Specialized): nat {
    Offset(s) + 1 + |s.roles|
  }

  /** An input suits its role: a typed array for "array", a number (NaN included) for "number". */
  predicate Fits(role: Role, v: Value) {
    if role == ArrayRole then v.Typed? else v.Number?
  }

  /** The calls the generated function is written for: its full arity, a callable runtime
      callback, an array output and inputs that suit their roles. Its caller, the
      factory, checks all of these before calling it. */
  predicate WellTyped(s: Specialized, args: seq<Value>) {
    && |args| == Arity(s)
    && (s.fixed.None? ==> IsFunction(args[0]))
    && (args[Offset(s)].Typed? || args[Offset(s)].Array?)
    && forall j | 0 <= j < |s.roles| :: Fits(s.roles[j], args[Offset(s) + 1 + j])
  }

  function CallbackOf(s: Specialized, args: seq<Value>): seq<Num> -> Num
    requires WellTyped(s, args)
  {
    if s.fixed.Some? then s.fixed.value else args[0].fn
  }

  function OutputOf(s: Specialized, args: seq<Value>): Value
    requires |args| == Arity(s)
  {
    args[Offset(s)]
  }

  function InputsOf(s: Specialized, args: seq<Value>): seq<Value>
    requires |args| == Arity(s)
  {
    args[Offset(s) + 1..]
  }

  /** The generated function: reads `len = o.length`, throws an Error before writing
      anything if an array-role input has another length, otherwise sets
      `o[i] = fcn(...)` for `i = 0 .. len-1` in ascending order and returns `o` itself.
      Only the output is written. */
  method Invoke(s: Specialized, args: seq<Value>) returns (r: Result<Value>, ghost calls: seq<seq<Num>>)
    requires WellTyped(s, args)
    modifies Storage(OutputOf(s, args))
    ensures r.Throw? <==>
      exists j | 0 <= j < |s.roles| :: s.roles[j] == ArrayRole && Length(InputsOf(s, args)[j]) != Length(OutputOf(s, args))
    ensures r.Throw? ==> r.thrown == Error(LengthMismatch) && calls == [] && unchanged(Storage(OutputOf(s, args)))
    ensures r.Ok? ==>
      && r.value == OutputOf(s, args)
      && Covers(old(Snapshot(InputsOf(s, args))), Length(OutputOf(s, args)))
      && calls == Calls(old(Snapshot(InputsOf(s, args))), Length(OutputOf(s, args)))
      && Holds(OutputOf(s, args), Results(CallbackOf(s, args), calls))
  {
    var o := args[Offset(s)];
    var vals := args[Offset(s) + 1..];
    var len := Length(o);
    var i := 0;
    while i < |vals|
      invariant i <= |vals|
      invariant forall j | 0 <= j < i :: s.roles[j] == ArrayRole ==> Length(vals[j]) == len
    {
      if s.roles[i] == ArrayRole && vals[i].data.Length != len {
        return Throw(Error(LengthMismatch)), [];
      }
      i := i + 1;
    }
    calls := Fill(o, CallbackOf(s, args), vals, len);
    r := Ok(o);
  }
}
