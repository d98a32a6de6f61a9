# typed-array-number-function, modelled in Dafny

The library applies a numeric callback element-wise across typed arrays and number
scalars. Every call picks, at each index `i`, element `i` of every typed-array input and
every scalar input unchanged, passes that list to the callback, and stores the result
in `out[i]`. It has four entry points, and this project models each of them:

- `create( [fcn,] types )` validates a shape descriptor, which is a list of `"array"` and
  `"number"` roles. It returns a specialised `apply( [fcn,] o, v1, ..., vN )` that checks
  that every array-role input is as long as `o`, fills `o` in place and returns `o`.
  (module `Create`, file `create.dfy`)
- `factory( [fcn,] types[, options] )` resolves the output dtype once, at construction.
  Its returned function checks the arity and each argument's role on every call. It then
  allocates an output as long as the first array-role argument and delegates to the
  specialised function. (module `Factory`, class `Factory.Applier`, file `factory.dfy`)
- `apply( fcn, ...value[, opts] )` infers the roles at call time. It accepts a trailing
  options object (`dtype`, or `out: true` for a caller-supplied output) and requires all
  typed arrays to share one length. A supplied output fixes that length; without one, at
  least one typed array is required. It then fills the output.
  (module `Apply`, file `apply.dfy`)
- The raw `apply` does the same without validation. It takes the length from the
  *last* input that is not a number primitive. (module `ApplyRaw`, file `apply_raw.dfy`)

How the model is built:

- Shared JavaScript vocabulary is in module `Js`, file `js.dfy`. It holds the values, the
  type predicates, the dtype registry and the two thrown error classes.
- The element-wise loop all entry points end in is module `Elementwise`, file
  `elementwise.dfy`.
- Lemmas relating the entry points to one another are in module `Agreement`, file
  `agreement.dfy`.
- Typed and generic arrays are heap arrays, so writing in place and returning the
  supplied output object itself are both modelled.
- Each entry point's checks are first stated as a pure plan function: `CallPlan`,
  `ApplyPlan` (`Arrange` then `Finish`) or `RawPlan`. It gives the error thrown, in the
  order the source checks, or the callback, inputs, output and length of a successful
  call. The imperative method is then proved to throw exactly that error, or to fill the
  output as the plan says.
- The callback is a total function `seq<Num> -> Num`. A ghost `calls` trace lists the
  argument lists it was invoked with, in invocation order. `Calls(Snapshot(inputs), len)`
  states that there are exactly `len` invocations, that invocation `i` receives column
  `i` of the inputs as they were on entry, and that they run in ascending index order.

## Model

| member | source | states |
|---|---|---|
| Create.ParseRoles | lib/create.js:46-53 | the descriptor parses exactly when every entry is "array" or "number"; the roles match the entries one for one; a bad entry is a TypeError |
| Create.Descriptor | lib/create.js:45-56 | accepted iff every entry names a role and some entry is "array"; any bad entry gives TypeError regardless of the others; an all-"number" descriptor gives Error |
| Create.Create | lib/create.js:30-56 | one argument: runtime-callback mode. Two or more whose first is a function: the callback is fixed. Otherwise TypeError; a non-array `types` gives TypeError; otherwise the result is exactly what `Descriptor` decides, scanned by a loop with invariants |
| Create.Invoke | lib/create.js:86-133 | throws Error iff some array-role input's length differs from `o.length`; then nothing is written and the callback is never called; otherwise returns `o` itself, holding `fcn(column i)` at every index, with exactly `o.length` calls in ascending order |
| Factory.FirstArray | lib/factory.js:80-85 | the index returned is an "array" role and every earlier role is "number" |
| Factory.CheckRoles | lib/factory.js:131-143 | no error iff every argument suits its role (typed array for "array", number or NaN for "number") |
| Factory.CheckRolesReportsFirst | lib/factory.js:131-143 | the error reported is that of the first argument that does not suit its role |
| Factory.FirstArrayEntry | lib/factory.js:79-85 | the breaking scan for the first "array" entry finds the first array role of the validated descriptor |
| Factory.Factory | lib/factory.js:26-98 | construction fails in the source's order: TypeError for non-array `types`, TypeError for a non-function callback in the three-argument form, the options error, Error for an unknown dtype (before `create`), then `create`'s descriptor error; otherwise a valid applier with the descriptor's roles, the resolved dtype and the fixed callback |
| Factory.Applier.constructor | lib/factory.js:91-108 | the applier holds the roles, callback, dtype, specialised function, arity and output-length index captured at construction, and they are consistent: the arity counts the runtime callback and the index is that of the first array-role argument |
| Factory.Applier.CallPlan | lib/factory.js:121-153 | in runtime-callback mode a non-function first argument is a TypeError before any other check; a successful call has the expected arity, a fresh output of the configured dtype and inputs that follow the callback |
| Factory.Applier.CallSucceedsIff | lib/factory.js:121-153 | a call succeeds iff the callback is callable, the arity is the roles' count (plus one in runtime-callback mode), every argument suits its role and every array-role argument is as long as the first; the output is then as long as the first array-role argument |
| Factory.Applier.PlanChecks | lib/factory.js:121-143 | the callback check comes before the arity check, and the arity check before the role check |
| Factory.Applier.RolesFit | lib/factory.js:131-144 | after the role check, the argument that sizes the output is a typed array |
| Factory.Applier.PlanAfterRoles | lib/factory.js:144-153 | after the role check, the only remaining failure is a length mismatch against the first array-role argument |
| Factory.Applier.PassOutput | lib/factory.js:144-153 | inserting the fresh output after the runtime callback gives the specialised function the call it is written for, with the same inputs and callback |
| Factory.Applier.CheckArgs | lib/factory.js:131-143 | the role loop returns exactly the error `CheckRoles` reports, or none |
| Factory.Applier.Apply | lib/factory.js:108-154 | throws exactly the error `CallPlan` names, without invoking the callback; on success returns a fresh typed array of the configured dtype holding the callback's results for each index, with the calls in ascending order |
| Factory.Applier.Evaluate | lib/factory.js:144-153 | allocation and delegation produce the outcome `CallPlan` describes, including the specialised function's length check, which throws before any callback invocation |
| Apply.Classify | lib/apply.js:74-92 | an input classification that succeeds keeps a length that was already fixed |
| Apply.ClassifyOk | lib/apply.js:74-95 | classification succeeds iff every input is a typed array or a number and all typed arrays share one length, which must be the supplied output's when there is one; the final length is present exactly when a length was fixed or some typed array exists |
| Apply.ClassifyReportsFirst | lib/apply.js:75-92 | the first offending input decides the error: an input that is neither a typed array nor a number gives TypeError, and a typed array whose length differs from the one already fixed (by the output or an earlier array) gives Error |
| Apply.ClassifyInputs | lib/apply.js:74-92 | the classification loop computes `Classify` |
| Apply.Arrange | lib/apply.js:45-73 | a laid-out call has at least one input, and a supplied output that is a typed or generic array (the four errors of these lines, in order, are stated by `Apply.ApplyChecks`) |
| Apply.Finish | lib/apply.js:74-103 | a successful call keeps the callback and inputs, and its inputs are numbers and typed arrays of the plan's length. A supplied output is the target and fixes that length. Otherwise some typed array exists and the output is allocated with the constructor the dtype name resolves to; a dtype naming no constructor fails |
| Apply.ApplyChecks | lib/apply.js:45-103 | the errors in the source's order: the options validator's error, TypeError for a non-function first argument, TypeError for a missing or non-array output in out mode, Error when no inputs remain, classification's error, Error when no output is supplied and every input is a number, Error when the dtype names no constructor |
| Apply.ApplySucceedsIff | lib/apply.js:45-103 | a call succeeds exactly when the callback is a function, a required output is an array, inputs remain, every input is a typed array or number, and the typed arrays share the supplied output's length, or else share one length, exist, and the dtype (`float64` by default) names a constructor, which the allocated output then has |
| Apply.ApplyPlanShape | lib/apply.js:63-103 | a successful call has inputs, all of them numbers or typed arrays of one length equal to the output's, and a typed array whenever the output is allocated |
| Apply.Apply | lib/apply.js:26-116 | throws exactly the error `ApplyPlan` names, without writing the supplied output or invoking the callback. On success it returns the supplied output itself, or a fresh typed array of the chosen dtype, holding the callback's result at every index below the common length, with the calls in ascending order |
| Apply.Run | lib/apply.js:74-115 | after the layout checks, throws what `Finish` names, with no callback invocation and the output untouched, or fills the output as `Finish`'s plan says |
| ApplyRaw.LastArray | lib/apply.raw.js:62-71 | the index returned is an input that is not a number primitive, and every later input is one; None means every input is a number primitive |
| ApplyRaw.FindLastArray | lib/apply.raw.js:62-70 | the classification loop computes `LastArray` |
| ApplyRaw.RawPlan | lib/apply.raw.js:42-80 | a well-formed call fails iff there is no supplied output and the dtype names no constructor, and the failure is an Error; otherwise an allocated output has the constructor the dtype names, `float64` when the options give no dtype |
| ApplyRaw.RawPlanShape | lib/apply.raw.js:53-71 | the length is that of the last typed input, and no later input is a typed array. Every input is readable up to it. The output is the second argument exactly in out mode |
| ApplyRaw.Prepare | lib/apply.raw.js:39-80 | the step-by-step argument handling computes `RawPlan` |
| ApplyRaw.ApplyRaw | lib/apply.raw.js:23-93 | throws what `RawPlan` names, without invoking the callback. On success it returns the supplied output itself, or a fresh typed array of the dtype, filled for each index below the last typed input's length, with the calls in ascending order. The elements of a longer supplied output keep their values |
| Elementwise.Gather | lib/apply.js:106-112 | the argument list at index `i` holds element `i` of each typed input and each scalar unchanged, in argument order |
| Elementwise.FillArray | lib/apply.js:105-114 | for every index below `len` the output holds the callback's result on that index's arguments, read as the inputs were on entry, even when the output is the same array as one of the inputs (views sharing a buffer at an offset are not modelled); elements beyond `len` are unchanged; the calls are exactly `len`, in ascending order |
| Elementwise.Fill | lib/create.js:106-130 | `o[i] = fcn(v1[i], ..., vN)` on a typed or generic output: the same per-element statement and trace as `FillArray`; when `len` is the output's length, the output holds exactly the results |
| Elementwise.Execute | lib/apply.js:96-115 | a supplied output is returned itself and filled. Otherwise a fresh zero-filled typed array of the dtype, of the plan's length, is returned holding exactly the callback's results |
| Agreement.FactoryAgreesWithApply | lib/factory.js:108-154 | a call that a factory-built function (runtime callback, float64) accepts is accepted by `apply` with the identical plan |
| Agreement.RolesClassify | lib/apply.js:74-92 | inputs that suit their roles, with equal-length array roles, classify successfully with that length |
| Agreement.OptionsAgree | lib/apply.raw.js:42-61 | the raw entry point finds the same options argument, input count, out mode and dtype constructor as the validating one, whenever the latter's options validate |
| Agreement.RawAgreesWithApply | lib/apply.raw.js:42-92 | on a call `apply` accepts whose inputs contain a typed array and no NaN, the raw entry point does not crash and computes the same plan |
| Agreement.ApplyRejectsUnequalLengths | lib/apply.js:77-83 | two typed inputs of different lengths make `apply` throw, while the raw entry point, on the same call when it is well formed and has a usable output, succeeds on the same inputs with the length of the last typed input |

## Left out

- Numeric conversion by the dtype constructors is not modelled: Float32 rounding, integer wrap-around and `uint8_clamped` saturation. A dtype is a name checked against the nine known constructors, and an output element stores the callback's number unchanged.
- Floating-point arithmetic is not modelled. A number is finite, an infinity or NaN, which is all the library inspects.
- lib/validate.js is not part of this model. `Js.Validate` stands in for it: the options must be a plain object, `dtype` a string and `out` a boolean.
- The type validators (`validate.io-typed-array-like`, `-function`, `-array`, `-number-primitive`) are predicates on the value datatype. Only a `Typed` value is typed-array-like; array-like objects with a `length` are not modelled.
- The JavaScript source text that `create` builds and compiles with `new Function` is not modelled. `Create.Invoke` states what the generated function does.
- lib/factory.raw.js and lib/index.js are not part of this model.
- Error message text is not modelled. A thrown value records its class (TypeError or Error) and which check failed.
- Copying `arguments` into `args`, and the `shift`/`unshift` rearrangement, appear as sequence slicing and concatenation.
- The `isArr`/`isArray` flag arrays are replaced by testing each input again.
- Callbacks are pure and total. A callback that throws, has side effects, or mutates the input or output arrays while the loop runs is not modelled.
- Create.Invoke: requires the full arity, a callable runtime callback, an array output, typed arrays in array roles and numbers in number roles. The generated function itself needs only `.length` and indexing, so it also runs on generic arrays in array roles and on any value in number roles. Callbacks are modelled over numbers only, so those calls are not modelled. `create` is exported and its function can be called directly; the factory's function always establishes these conditions first.
- ApplyRaw.ApplyRaw: the raw function guards against none of the following calls, and the precondition `ApplyRaw.RawWellFormed` excludes them all:
  - No input other than number primitives. The source reads `args[undefined].length` and throws a TypeError.
  - Null or undefined options. Reading `opts.out` throws a TypeError.
  - A non-function first argument. The source throws a TypeError at `fcn.apply` once the length is positive. It returns normally when the last typed input is empty, as in `apply.raw( 5, new Int8Array( 0 ) )`, which returns an empty float64 array. The callback is modelled as a total function value, which leaves no place for a non-callable one.
  - In out mode, an output that is neither a typed nor a generic array. A plain object or a function does not crash: it gets numeric properties and is returned. A primitive, null or undefined throws a TypeError at the first write when the length is positive. The model's outputs are arrays only, and a `Js.Value` object is an immutable map.
  - In out mode, a generic output shorter than the length. The source grows it, and the callback still receives numbers, but the model's arrays have a fixed size.
  - A generic array as an input, even one holding only numbers. The source indexes it like a typed array, so `apply.raw( add, [1,2,3], 1 )` returns `[2,3,4]`. `Elementwise.Read` and `Elementwise.Snapshot` read typed arrays only, because a generic array may hold any value and the callback is modelled over numbers.
  - NaN, a string, a boolean or an object as an input. The source treats it as an array and indexes it, so the callback receives `undefined` or single characters, not numbers. When such an input is the last array, its `.length` sets the length of the call.
  - A typed input shorter than the last typed input. Reading past its end yields `undefined`.
- ApplyRaw.RawDtype: an unvalidated `dtype` that is not a string names no constructor.
- Elementwise.FillArray: a generic output array shorter than the length would grow in JavaScript. The entry points never produce that case, because their generic outputs are never shorter than the length, so the model drops writes past the end as a typed array does.
- Typed arrays that are views over one shared buffer are not modelled: every `Typed` value owns its own array, so two views can only be identical or disjoint. The read-as-on-entry rule of `Elementwise.FillArray` therefore covers only an output that is exactly one of the inputs. When an output view overlaps an input view at an offset, for example `apply( f, x.subarray( 1, 4 ), x.subarray( 0, 3 ), { 'out': true } )`, the source's callback sees elements written earlier in the same call: index 1 receives `f( f( x[0] ) )`, not `f( x[1] )`. This applies to `apply` and the raw apply in out mode, and to `create`'s function when it is called directly.
- A descriptor array mutated after construction is not modelled. The roles are read once, when the function is constructed.
