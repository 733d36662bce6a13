# validateRequest: a verified model of the request-validation middleware

`validateRequest(validators)` builds an Express middleware from up to three
schema validators, one each for the request body, the path parameters and
the query string. The middleware validates the configured sections in the
fixed order body → params → query. It merges each validated result back
into its section in place with `Object.assign`. The first thrown value stops
processing: a `ZodError` becomes a 422 response carrying the error's issue
list, and anything else is passed to `next(err)`. If nothing is thrown the
middleware calls `next()`.

The repository holds two copies. `src/index.ts` is the current one, with
generic `ZodType` validators. `index.ts` is an earlier one, with `ZodObject`
validators. Their control flow is identical.

Files:

- `wrappers.dfy` (`Wrappers`): `Option`.
- `javascript.dfy` (`JavaScript`): JavaScript values and `Object.assign`
  (`Assign`). The source of an assign contributes its own enumerable
  properties (`OwnEntries`): an object's fields, an array's elements or a
  string's characters under the decimal keys "0", "1", …, and nothing for
  `undefined`, `null`, booleans and numbers.
- `schema.dfy` (`Schema`): what `parseAsync` produces. A `Verdict` is `Ok(value)`
  or `Threw(thrown)`, where `thrown` is `ZodError(issues)` or `Other(value)`.
  This tag replaces the runtime `instanceof ZodError` test.
- `express.dfy` (`Express`): the request as a class with three mutable
  `map` sections; the response as a class recording the status and JSON
  payload written to it; `next` as a class recording its calls.
- `middleware.dfy` (`Middleware`): the current middleware. `Step` is one
  `if (validators.x) { Object.assign(…) }` block. `Validate` is the three
  blocks in order followed by the catch clause. `Reference` describes the
  same behaviour part by part: which part fails first, which validators are
  called, what each section ends up as. The lemmas state the middleware's
  properties. `ValidateRequest` is the imperative middleware. Its
  straight-line body uses a labelled block with `break` where the source
  throws out of its `try`. It is proved to do what `Validate` says, and to
  call `next` or write the response exactly as the outcome requires.
- `legacy_middleware.dfy` (`LegacyMiddleware`): the earlier copy. An object
  schema is widened to a general validator (`Widen`). The earlier
  `ValidateRequest` has its own body and is proved to behave like `Validate`
  on the widened validators.
- `scenarios.dfy` (`Scenarios`): the three cases of `src/index.test.ts`,
  plus a coercion case and a later-failure case. Each is written as a client
  method whose assertions follow from `ValidateRequest`'s contract alone.

## Model

| member | source | states |
|---|---|---|
| `Middleware.ValidateRequest` | src/index.ts:45-85 | The request's sections, the validators called and the outcome are those of `Validate` on the sections as they arrived. `next()` is called once on success and `next(err)` once with the thrown value on a fault. Neither is called on a 422. The response gets status 422 and the issues on a 422 and is untouched otherwise. |
| `Middleware.Step` | src/index.ts:56-75 | One validate-and-merge block. After a throw nothing more happens. An unconfigured part is skipped. A configured part is recorded as invoked. When its validator returns x, that part's section becomes the old section overlaid with x; when it throws, the thrown value is what is caught. Only that part's section can change, and a throw leaves every section as it was. |
| `Middleware.Validate` | src/index.ts:55-83 | One invocation as a function of the arriving sections: the three blocks in order, then the catch clause. Only configured validators are invoked, at most three calls happen, a continuing run has invoked every configured validator, and a response always has status 422. |
| `Middleware.Catch` | src/index.ts:77-83 | A `ZodError` becomes a 422 response with exactly its issues. Any other thrown value becomes `next(err)` with exactly that value. Neither case continues. |
| `Middleware.FirstFailure` | src/index.ts:55-83 | The first part in body, params, query order whose validator throws. It is `None` exactly when every part passes. When some part fails, every earlier part passed. |
| `Middleware.FirstThrown` | src/index.ts:77 | What the catch clause receives. It is `None` exactly when every part passes. |
| `Middleware.ValidateMatchesReference` | src/index.ts:55-83 | The step-by-step middleware equals the part-by-part description. |
| `Middleware.NoValidatorsPassThrough` | src/index.ts:55-76 | With no validators configured, no validator is called, no section changes and the outcome is `next()`. |
| `Middleware.OutcomeIsFirstThrown` | src/index.ts:76-83 | Three iffs. The outcome is `next()` iff nothing was thrown. It is a 422 with issues `is` iff the first thrown value is a `ZodError` with issues `is`. It is `next(err)` iff the first thrown value is the non-`ZodError` value `err`. |
| `Middleware.ContinueIffEveryPartPasses` | src/index.ts:56-76 | `next()` is reached iff every configured validator returns a value. In that case exactly the configured validators have run. |
| `Middleware.CalledListInOrder` | src/index.ts:56-75 | The parts the reference says are called are in body, params, query order. A part is in the list iff it is configured and reached. Every call but the last passed. |
| `Middleware.InvokedInOrder` | src/index.ts:56-75 | Validators run in strictly increasing order body < params < query, each at most once. A validator runs iff it is configured and every earlier one returned a value. Every invocation but the last succeeded. |
| `Middleware.StructuredFailureResponds` | src/index.ts:77-80 | A `ZodError` from a reached part gives a 422 whose payload is the issue list unchanged. That part is the last one invoked. It and every later section stay as they arrived. |
| `Middleware.OtherFailureForwards` | src/index.ts:82 | Any other thrown value from a reached part is forwarded unchanged to `next`. That part is the last one invoked. It and every later section stay as they arrived. |
| `Middleware.MergeSurvives` | src/index.ts:56-83 | A reached part whose validator returns x ends as its old section overlaid with x. Keys of x overwrite; other keys keep their values. A later failure does not undo this (no rollback). |
| `Middleware.ConformingSectionUnchanged` | src/index.ts:57-60 | A validator may return an object already contained in its section, such as the section itself or the section with unknown keys stripped. The section is then unchanged. |
| `Middleware.NonObjectResultMerge` | src/index.ts:57-74 | A generic schema may return a non-object. A primitive result merges nothing. An array or string result lands under the keys "0", "1", …. |
| `Middleware.UntouchedSections` | src/index.ts:56-75 | A section stays as it arrived if it is not reached, has no validator, or has a validator that throws. |
| `JavaScript.Assign` | src/index.ts:57-60 | `Object.assign` onto a section. The keys are the union of both key sets. The source's entries win, and the target's other entries are kept. |
| `JavaScript.OwnEntries` | src/index.ts:59 | The properties `Object.assign` copies from a result. An object contributes its fields. An array or string contributes exactly the index keys 0..n-1. Any other value contributes nothing. |
| `JavaScript.ElementEntries` | src/index.ts:59 | An array contributes its elements under the index keys. Each element is stored under its own index. |
| `JavaScript.CharacterEntries` | src/index.ts:59 | A string contributes one-character strings under the index keys. |
| `JavaScript.IndexKey` | src/index.ts:59 | The property name of array or string index i: a non-empty string of decimal digits, one digit exactly when i < 10. |
| `JavaScript.ParseIndexKey` | src/index.ts:59 | Index keys read back as their index, so distinct elements never collide as properties. |
| `JavaScript.AssignPrimitiveIsNoOp` | src/index.ts:57-60 | Assigning from `undefined`, `null`, a boolean or a number leaves the target unchanged. |
| `JavaScript.AssignConformingIsNoOp` | src/index.ts:57-60 | Assigning an object whose every entry the target already holds leaves the target unchanged. |
| `Express.Request.Merge` | src/index.ts:57-60 | In-place merge of one section. That section becomes `Assign(old, result)`, and the other two are unchanged. |
| `Express.Sections.With` | src/index.ts:57-74 | Replacing one section leaves the other two as they were. |
| `Express.Response.Status` | src/index.ts:79 | `response.status(code)` records the code and leaves the payload alone. |
| `Express.Response.Json` | src/index.ts:79 | `response.json(issues)` records the payload and leaves the status alone. |
| `Express.Next.Call` | src/index.ts:76 | Each call of `next` appends exactly its argument to the record of calls. |
| `LegacyMiddleware.ValidateRequest` | index.ts:10-42 | The earlier copy. Its effect on the request, the validators it calls and its outcome are those of `Validate` on the widened object schemas. It makes exactly one of `next()`, a 422 response or `next(err)`, with the same side effects on `next` and the response as the current copy. |
| `LegacyMiddleware.Widen` | index.ts:4-8 | A `ZodObject` validator seen as a general one: an object it returns becomes that object as a value, and what it throws is thrown unchanged. |
| `LegacyMiddleware.WidenAll` | index.ts:4-8 | The earlier configuration widened section by section: a section has a validator after widening exactly when it had an object schema. |
| `LegacyMiddleware.CheckWidened` | index.ts:13-31 | What a widened object schema reports for a section is the object schema's verdict on that section, with the object wrapped as a value. |
| `LegacyMiddleware.NoValidatorsPassThrough` | index.ts:12-33 | With no schema configured, it calls `next()` and leaves the request unchanged. |
| `LegacyMiddleware.MergeKeepsUnlistedKeys` | index.ts:13-32 | A reached object schema returning `fields` leaves its section equal to the old section overlaid with `fields`. Keys not in `fields` keep their original values. |
| `LegacyMiddleware.FailuresAreSorted` | index.ts:34-39 | A `ZodError` from a reached section gives 422 with `err.issues`. Any other thrown value gives `next(err)`. |

## Left out

- Schema semantics (`parseAsync`, coercion, `.uuid()`, `.int().positive()`,
  stripping of unknown keys) belong to the validation library. Each
  validator is an arbitrary total function from the section to a `Verdict`.
- Express's plumbing and the JSON serialisation of the response are left
  out. The response is a recorded status and payload; `next` is a recorded
  list of calls.
- `async`/`await` is left out. The three awaits are strictly sequential, so
  they are modelled as ordinary sequential calls. Cancellation and timeouts
  do not exist in the source either.
- The type-level aliases `TypedBody`, `TypedParams`, `TypedQuery` and
  `InferRequest` (src/index.ts:13-43) have no runtime behaviour.
- Sections are always plain objects. A section can be `undefined` (a body
  with no body parser). An object schema, which is every validator of
  index.ts:4-8, rejects `undefined` with a `ZodError` before any merge, so
  that request gets a 422, which the model covers. Only a generic schema that
  accepts `undefined` reaches `Object.assign` with an `undefined` target.
  That throws a `TypeError`, which the catch clause forwards to `next`. That
  path is not modelled.
- `next()` is taken not to throw. In the source it is called inside the
  `try`, so an exception thrown by it would reach the catch clause. Express's
  router catches errors of later handlers itself.
- Object identity is not modelled. The in-place merge is a reassignment of
  the section field, so other references aliasing the same section object
  are not modelled.
- `Object.assign` details beyond own enumerable data properties are left
  out: setters, a `__proto__` key, symbol keys and property order.
- Numbers are reals, not IEEE doubles. The middleware never inspects them.
- `JavaScript.CharacterEntries` and `Middleware.NonObjectResultMerge` split
  a string result into Dafny characters (Unicode scalar values), not UTF-16
  code units. `Object.assign` splits a string into code units. For a
  character outside the Basic Multilingual Plane, such as "😀", JavaScript
  makes two keys, "0" and "1", each holding a lone surrogate. The model makes
  one key, "0", holding the whole character. A Dafny `char` cannot hold a
  lone surrogate.
