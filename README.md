# formio-submission-data-validator, modelled in Dafny

This project models the core of a server-side validator for Form.io
submissions. It covers three parts of the source:

- the extension-point registry (`src/util/hook.js`). This is a read-only
  table of `on`, `alter` and `settings` hooks, with the three dispatch
  operations `invoke`, `alter` and `settings`;
- the validation pipeline (`src/resources/Validator.js`). This is the
  `$elemMatch` query builder (`addPathQueryParams`), the data-table
  dereference, and `validate`. `validate` builds the processing context and
  its configuration, then runs the processing stage and the sandboxed
  evaluation stage. It then removes every fetched path from the submission
  data and reports through `next`. A run makes at most one `next` call. It
  makes none when an exception escapes `validate`: a nullish form, a
  nullish value thrown by a stage, or a failing `interpolateErrors`;
- the service facade (`src/index.js`). This covers the submission envelope,
  the options precedence, the empty registry built at load time, and the
  mapping of the `next` call (or of an escaping exception) to the result
  object.

## Files

- `json.dfy` (module `Json`): JavaScript values and the language rules the
  core relies on:
  - truthiness and `||`;
  - property reads, including the `TypeError` a read from `null` or
    `undefined` raises;
  - object spread;
  - `for…in` keys;
  - template-literal text;
  - lodash `_.get`, `_.set` and `_.unset` on key paths.
- `hook.dfy` (module `Hook`): the registry. A function value is a reference
  `Func(id)`. An environment `Env` says what calling it returns. Each
  dispatch returns its result together with the single call it made, if any.
- `path_query.dfy` (module `PathQuery`): JavaScript's `String.prototype.split`
  with the separator `/\[\d+\]?./`. A separator match is the longest match
  of the regex at a position, which is what its backtracking finds. The file
  also holds the `$elemMatch` chain and `addPathQueryParams`, which writes
  into a caller's `Query` object in place.
- `validator.dfy` (module `Validator`): the validator, the dereference, the
  context and configuration, the plan of `validate` up to the cleanup loop
  (`ValidatePlan`), and the cleanup loop (`RemoveFetched`). It also holds the
  final choice of the `next` call (`Finish`) and the imperative `Validate` on
  a `Submission` object.
- `facade.dfy` (module `Facade`): the service and `validateSubmission`,
  proved against the function `ExpectedResult`.

The foreign stages are fields of `Validator.Stages`:

- `process` and `evaluateProcess` from the processing libraries, and
  `interpolateErrors`, each return a normal value or an exception;
- lodash's parsing of a string path is a plain function from strings to
  key paths;
- what each hook function returns is a plain value, given by the `env`
  oracle (a hook that throws is not modelled).

The callback `next` is modelled by the datatype `Validator.Outcome`. It is
either the argument list of the `next` call a run makes, or the exception
that escapes `validate` without any `next` call.

Where the documentation and the code differ, the model follows the code.
`validateSubmission` is documented to take the URL of a form definition, but
the code hands its `form` argument to the validator unchanged. So with a
string argument, `form.config` and `form.components` read as `undefined`
(`Facade.CallValidator`).

## Model

| member | source | states |
|---|---|---|
| `Hook.Invoke` | src/util/hook.js:22-29 | An unregistered name gives `false` and calls nothing. A registered hook is called once with exactly the arguments after the name. The result is `false` exactly when the name is unregistered or the hook returns a defined falsy value. |
| `Hook.InvokeRegistered` | src/util/hook.js:25-26 | A registered hook that returns `undefined` counts as `true`. Any other return value gives its truthiness. |
| `Hook.TrailingCallback` | src/util/hook.js:32 | The callback is the last argument exactly when that argument is a function. With no arguments after the name, there is none. |
| `Hook.Alter` | src/util/hook.js:30-43 | A registered hook receives every argument after the name, and its result comes back verbatim. Unregistered with a trailing function: that function is called as `fn(null, default)` and its result returned. Otherwise the default comes back and nothing is called. |
| `Hook.AlterLoneFunction` | src/util/hook.js:32-38 | `alter(name, f)` with nothing registered calls `f(null, f)`, because `f` is both the default and the callback. |
| `Hook.AlterNoArguments` | src/util/hook.js:39-40 | `alter(name)` with nothing registered gives `undefined`. |
| `Hook.ConfiguredSettings` | src/util/hook.js:14 | The settings are `config.settings` when config and settings are both truthy, otherwise `{}`. The value is always truthy. |
| `Hook.Settings` | src/util/hook.js:13-21 | With a settings hook, it delegates `(settings, req, cb)` and returns the hook's result without calling `cb`. Without one, it calls `cb(null, settings)` and returns `undefined`. |
| `Hook.EmptyRegistry` | src/index.js:13-14 | The load-time registry has a hooks table with no `on`, no `alter` and no `settings` entry for any name. |
| `Hook.EmptyRegistryInvoke` | src/util/hook.js:22-29 | With the empty registry, `invoke` is `false` for every name and calls nothing. |
| `Hook.EmptyRegistryAlter` | src/util/hook.js:30-43 | With the empty registry, `alter` gives back its default. If there is a trailing callback, it is called with `(null, default)` instead. |
| `PathQuery.MatchLen` | src/resources/Validator.js:32 | The separator match at a position is the longest text there of the form `[`, digits, an optional `]`, one character that is not a line terminator (`MatchesAt`), or 0 when there is none. A match starts exactly where `[`, a digit and a non-line-terminator stand. |
| `PathQuery.Split` | src/resources/Validator.js:32 | The split yields at least one piece. The first piece is a prefix of the path, and no piece contains a separator. |
| `PathQuery.SplitHasManyPieces` | src/resources/Validator.js:32-33 | The path splits into more than one piece exactly when a separator occurs in it. This is the `needValuesInArray` test. |
| `PathQuery.SplitWithoutSeparator` | src/resources/Validator.js:32 | A path without a separator splits into itself alone. |
| `PathQuery.SplitHead` | src/resources/Validator.js:32-36 | The first piece, the key of `query` that is written, is the text before the first separator. The other pieces are the split of the text after that separator. |
| `PathQuery.SplitSeparated` | src/resources/Validator.js:32 | A key without `[`, then `[`, digits and `].`, then any rest: the key is the first piece, followed by the pieces of the rest. |
| `PathQuery.SplitDataPath` | src/resources/Validator.js:32-36 | A data-grid path `k0[i0].k1[i1]…kn` built from keys without `[` splits back into exactly those keys. |
| `PathQuery.SplitExample` | src/resources/Validator.js:32 | `a[0].b[1].c` splits into `a`, `b`, `c`. |
| `PathQuery.ChainStep` | src/resources/Validator.js:40-45 | One reduce step, which sets `$elemMatch['piece']` below the accumulated path, extends the `$elemMatch` chain by that piece. |
| `PathQuery.ChainLookup` | src/resources/Validator.js:38-48 | The params are found at the end of the chain's `$elemMatch, piece, …` path. |
| `PathQuery.ElemMatchChain` | src/resources/Validator.js:38-48 | The reduce loop builds the `$elemMatch` chain of the pieces in order, with `{}` above and the params innermost. |
| `PathQuery.AddPathQueryParams` | src/resources/Validator.js:31-53 | Without a separator, `query[path]` becomes the params. With one, `query[first piece]` becomes the chain of the other pieces. In both cases every other key of `query` is unchanged. |
| `Json.SetPathThenLookup` | src/resources/Validator.js:44 | After `_.set` along a key path, the value is found along that path. |
| `Json.UnsetRemovesBelow` | src/resources/Validator.js:157 | After `_.unset(data, p)`, nothing is found at `p` or anywhere below it. |
| `Json.UnsetKeepsOthers` | src/resources/Validator.js:157 | `_.unset(data, p)` leaves every path that is neither a prefix nor an extension of `p` as it was. |
| `Json.UnsetKeepsMissing` | src/resources/Validator.js:157 | A path that held nothing before `_.unset` holds nothing after it. |
| `Validator.NewValidator` | src/resources/Validator.js:23-29 | The constructor stores form, tokens, hook and options. `project` and `formModel` are never assigned. |
| `Validator.ResourceQuery` | src/resources/Validator.js:66-69 | The lookup query has exactly the keys `_id` (the resource id) and `deleted` (`null`). |
| `Validator.NotFoundError` | src/resources/Validator.js:70-72 | A miss rejects with an `Error`. |
| `Validator.NotFoundNamesResource` | src/resources/Validator.js:71 | The miss message names the resource id right after `Resource at `. |
| `Validator.DereferenceFromModel` | src/resources/Validator.js:55-74 | This is the dereference with an injected lookup. A lookup happens exactly when the component is not nullish and passes all four guard conditions. Otherwise the answer is `[]`, or a `TypeError` for a nullish component. The lookup uses the resource query. A miss rejects with the not-found error (and only a miss does), and a hit gives `components` or `[]`. |
| `Validator.DereferenceDataTableComponent` | src/resources/Validator.js:55-74 | This is the code as written. With no form model, a component that passes the guard rejects with the `TypeError` from reading `findOne`. Everything else is as in `DereferenceFromModel`. |
| `Validator.DereferenceNeverLooksUp` | src/resources/Validator.js:66 | No validator the constructor builds looks anything up. A guarded data table always rejects with the `TypeError` raised by reading `findOne` of `undefined`. |
| `Validator.DereferenceGuard` | src/resources/Validator.js:56-61 | A component that passes the guard is an object with `type` and `fetch` keys, whose `fetch` is an object with `dataSrc` and `resource` keys. |
| `Validator.ResourceTable` | src/resources/Validator.js:56-61 | A data table with `fetch.dataSrc` `resource` and a non-empty resource id passes the guard. |
| `Validator.ResourceTableLookedUpWithModel` | src/resources/Validator.js:65-69 | With a form model, that component is looked up by its resource id. |
| `Validator.ProjectConfig` | src/resources/Validator.js:95 | The project configuration is `project.config` when the project and its config are both truthy, and `{}` otherwise. It is always truthy. |
| `Validator.MergedConfig` | src/resources/Validator.js:95-96 | A project config key wins over a form config key of the same name. A form key without a project key is kept. No other key appears. |
| `Validator.TokenOf` | src/resources/Validator.js:110 | The token is the `x-jwt-token` entry of the token bag, or `undefined` for a missing bag. |
| `Validator.SelfValue` | src/resources/Validator.js:125 | The validator passed to the database hook is an object, not a function, so `alter` never takes it for the callback. Its `form`, `tokens`, `options` and `logger` fields are the constructor's. |
| `Validator.DefaultDatabase` | src/resources/Validator.js:114-124 | The default database capability holds the built-in `isUnique` and the bound dereference. |
| `Validator.DefaultIsUnique` | src/resources/Validator.js:116-122 | The default uniqueness check always passes. It documents the function behind `IsUniqueFn`; the stages' `env` is not tied to it. |
| `Validator.ContextConfig` | src/resources/Validator.js:106-127 | The context config holds the merged keys plus `server`, `token`, `tokens` and `database`. These four override same-named config keys, and every other merged key keeps its value. |
| `Validator.DatabaseHooks` | src/resources/Validator.js:112-126 | With no `validationDatabaseHooks` alter hook, the database capability is the default one (the validator is not a function, so no callback is called). With one, it is that hook's result on the default and the validator. |
| `Validator.Rules` | src/resources/Validator.js:132 | With no `serverRules` alter hook, the rules are the server rules, or the result of calling them as `(null, rules)` when they are a function. With one, they are that hook's result on the server rules. |
| `Validator.AdditionalDeps` | src/resources/Validator.js:136 | With no `dynamicVmDependencies` alter hook, the dependencies are `[]`, or the result of calling the form as `(null, [])` when it is a function. With one, they are that hook's result on `[]` and the form. |
| `Validator.ProcessContextKeys` | src/resources/Validator.js:98-132 | The context handed to `process` has exactly the keys `form`, `submission`, `components`, `data`, `processors`, `fetch`, `scope`, `config` and `rules`. |
| `Validator.ProcessContextFields` | src/resources/Validator.js:98-132 | The context holds the form, the submission, `form.components`, `submission.data`, the submission process targets, the fetch proxy, an empty `scope`, the context configuration and the altered server rules. |
| `Validator.EvaluateInputKeys` | src/resources/Validator.js:141-150 | The input of `evaluateProcess` has the merged configuration keys plus `form`, `submission`, `scope`, `token`, `tokens`, `timeout` and `additionalDeps`. Any other merged key keeps its configuration value. |
| `Validator.EvaluateInputFields` | src/resources/Validator.js:141-150 | The listed keys hold the form, the submission, the scope given, the `x-jwt-token` entry, the token bag, the timeout `vmTimeout` yields and the altered dependencies. |
| `Validator.VmTimeout` | src/resources/Validator.js:148 | The evaluation timeout is always truthy. It is the given `vmTimeout` when that is truthy, and 5000 otherwise. |
| `Validator.CatchOutcome` | src/resources/Validator.js:159-166 | A caught exception gives one `next` argument: its message if truthy, else the exception itself. A nullish exception escapes as a `TypeError`. |
| `Validator.HasErrors` | src/resources/Validator.js:169 | Nullish `scope.errors` means no errors. An array means errors exactly when it is non-empty, and a string exactly when it is not the empty string. |
| `Validator.ValidationErrorValue` | src/resources/Validator.js:170-173 | The reported error is named `ValidationError` and carries the interpolated details. |
| `Validator.ValidatePlan` | src/resources/Validator.js:84-158 | Falsy data gives `next()` with the submission untouched. A nullish form escapes with the `TypeError` from reading `config`. If `process` throws `e`, the run ends as the catch block says for `e`, with the submission untouched. If `evaluateProcess` throws `e`, it ends the same way with the processed data stored. A nullish evaluated scope ends in the catch block with the `TypeError` from reading `fetched`. Otherwise the cleanup is reached, with the evaluated data and scope stored in the submission. Every early end passes at most one argument. |
| `Validator.Finish` | src/resources/Validator.js:168-176 | Without errors the call is `next(null, data, form.components)`. With errors, it is `next` of a `ValidationError` carrying the interpolated details, or the exception `interpolateErrors` throws escapes. |
| `Validator.UnsetStep` | src/resources/Validator.js:157 | One more `_.unset` keeps every earlier removed path empty, and leaves unchanged every path that branches off all removed paths. |
| `Validator.UnsetKeys` | src/resources/Validator.js:156-158 | Unsetting a list of paths one after the other leaves nothing at any of them or below, and leaves every path that branches off all of them as it was. |
| `Validator.RemoveFetched` | src/resources/Validator.js:156-158 | The loop visits every key of `scope.fetched` exactly once, in some order, and the result is the data with those paths unset one by one in that order (`UnsetKeys`). So no fetched path leads to anything, and every path that branches off all of them is unchanged. |
| `Validator.CleanAndReport` | src/resources/Validator.js:155-176 | The submission's data becomes the data with every fetched path unset in the loop's order, and nothing else of it changes. The outcome is `Finish` on that data. |
| `Validator.Validate` | src/resources/Validator.js:84-177 | A run ends as `ValidatePlan` says when it ends early. Otherwise the submission's data is the evaluated data with every fetched path unset in the loop's order, the rest is as planned, and the outcome is `Finish`. |
| `Validator.EmptyRegistryDefaults` | src/resources/Validator.js:112-136 | With the load-time registry, the database hooks, the server rules and the dynamic sandbox dependencies all take their defaults. |
| `Validator.StageFailureReachesNext` | src/resources/Validator.js:131-165 | When `process` or `evaluateProcess` throws `e`, the run ends before any cleanup, as the catch block says for `e`. For a non-nullish `e` that is `next` of `e.message` when it is truthy, and of `e` itself otherwise. |
| `Validator.CleanupPrecedesOutcome` | src/resources/Validator.js:155-176 | A fetched path is absent from the cleaned data, and also from the data a successful `next` receives. |
| `Facade.DefaultOptions` | src/index.js:57 | A missing option bag (`undefined`) becomes `{}`. Any other value, `null` included, is kept. |
| `Facade.NewService` | src/index.js:21-45 | A `null` option bag throws reading `logger`. Otherwise the options are kept (`{}` when missing), and the sandbox timeout is the given `vmTimeout` if truthy, else 5000. |
| `Facade.Envelope` | src/index.js:64-67 | The envelope holds `data` and every metadata key. A metadata `data` replaces the submitted data. |
| `Facade.MergeOptions` | src/index.js:70 | A per-call option wins over the constructor option of the same name. Constructor-only options are kept. |
| `Facade.CallValidator` | src/index.js:70 | The validator gets the form as given, the call's `tokens`, the load-time registry and no project or form model. Its options hold the keys of both option bags, a per-call option winning over the service option of the same name. |
| `Facade.OnValidated` | src/index.js:74-81 | A truthy first argument is a failure with that argument as its errors. Anything else is a success with `errors` undefined. Success holds exactly when the errors are falsy. |
| `Facade.ConstructorName` | src/index.js:101 | An error reports its own constructor name, and a plain object reports `Object`. |
| `Facade.CaughtResult` | src/index.js:94-105 | A non-nullish exception becomes a runtime failure carrying its message, and its type is the exception's constructor name (`Object` for a plain object). A nullish one makes the catch block throw. |
| `Facade.ResultOf` | src/index.js:72-105 | A `next` call goes through the callback. An escaping exception goes through the outer catch. |
| `Facade.FinishResultIgnoresData` | src/index.js:74 | The result does not depend on the data `next` receives after its first argument. |
| `Facade.ValidateSubmission` | src/index.js:57-106 | The method computes `ExpectedResult`: default options, the envelope, a validator over the empty registry, `Validate`, then the callback or the catch. |
| `Facade.SuccessIffNoErrors` | src/index.js:89-93 | A completed result is a success exactly when its errors are undefined. |
| `Facade.NoDataSucceeds` | src/resources/Validator.js:88-93 | With falsy data (and no `data` in the metadata), the result is a success with no errors. |
| `Facade.NullOptionsFail` | src/index.js:66 | `null` options give a runtime failure of type `TypeError` that names `submissionMeta`. |
| `Facade.StageFailureReported` | src/index.js:74-81 | When either stage throws a non-nullish `e`, the caller gets the callback's result for `e.message` when that is truthy, and for `e` otherwise. When that argument is truthy, the result is a failure with it as its errors. |
| `Facade.ValidationErrorsReported` | src/resources/Validator.js:169-174 | Errors in the scope give a failed result whose errors are the `ValidationError` object. |
| `Facade.DefaultTimeouts` | src/index.js:44 | With no `vmTimeout` in either place, the sandbox configuration uses 5000, and so does the `timeout` in the input `evaluateProcess` receives for the validator `validateSubmission` builds. |

## Findings

| source | as written | input that shows it | evidently intended | confidence | as-written member | corrected member |
|---|---|---|---|---|---|---|
| src/resources/Validator.js:66 | `this.formModel.findOne(...)` reads a field that nothing assigns, so the dereference rejects with a `TypeError` before any lookup | any validator and `ResourceTable("r1")`: `{type: 'datatable', fetch: {dataSrc: 'resource', resource: 'r1'}}` | the resource is looked up by id, and its components or `[]` are returned | not executed; medium (the default database hooks are described as a simplified stand-in) | `Validator.DereferenceNeverLooksUp` | `Validator.DereferenceFromModel` |

## Left out

- Logging (`logger?.…`) is observational only and is not modelled.
- The `fetch` proxy is a network client. It appears only as an opaque function value in the context.
- The timestamp (`new Date().toISOString()`) reads the clock and is not part of `ServiceResult`.
- `configureVm` and `src/util/staticVmDependencies.js` are a foreign call and file reads at load time. Only the timeout the constructor computes for the sandbox is kept.
- `process`, `evaluateProcess`, `interpolateErrors`, `serverRules` and `ProcessTargets.submission` are foreign libraries, so they are opaque parameters. `process` is modelled as returning the context's new data and scope.
- Rule semantics, the sandbox, its isolation and its timeout are part of those foreign libraries and are not modelled.
- async/await is modelled as sequential calls. The pipeline has no concurrency.
- Aliasing of `submission` inside the context is not modelled. The stages receive a snapshot of the submission's fields.
- What the hook functions and the callback do, beyond their return value, is not modelled. A hook function that throws is not modelled. `this` inside a hook call is not modelled.
- Lodash's parsing of string paths is the `toPath` parameter.
- `Json.SetPath`: a step that holds an array or a function becomes `{}`, where lodash would keep it. A missing step becomes `{}`, never `[]`; lodash creates `[]` there when the next key is an array index (`0` or a digit string without a leading zero).
- `PathQuery.ElemMatchChain`: a piece after the first that is an array index makes lodash create the `$elemMatch` level above it as an array, with the params at that index. For `a[0].1` the source sets `query.a` to `{$elemMatch: [<hole>, params]}`, and the model gives `{$elemMatch: {"1": params}}`. Only pieces that are not array indexes are built as the source builds them.
- `PathQuery.AddPathQueryParams`: the same difference, for a path whose pieces after the first include an array index (as in `a[0].1`). A path without a separator, or whose later pieces are not array indexes, is modelled exactly.
- `PathQuery.MatchLen`: characters are Unicode scalar values, but JavaScript's `.` without the `u` flag matches one UTF-16 code unit. After a separator's `]`, a character outside the Basic Multilingual Plane is taken whole here, while JavaScript takes only its first surrogate. For `a[0]😀b` the model gives `["a", "b"]` and JavaScript gives `["a", "\uDE00b"]`.
- `Validator.DefaultIsUnique` documents the built-in `isUnique`. The function ids `FetchFn`, `IsUniqueFn` and `DereferenceFn` are references only, and the stages' `env` is not constrained to agree with these definitions.
- `Validator.SelfValue` leaves out the validator's `hook` field, because the registry is not a JavaScript value in this model.
- Indexing into a string inside a path is not modelled: `Json.Get` treats a string as holding no keys, so `Lookup({a: "xyz"}, ["a", "0"])` is `undefined` where lodash's `_.get` reads `"x"`. A fetched path that runs into a string is therefore counted as empty by `Cleaned`, while the source, which cannot unset a character, would still read it.
- `_.unset` is modelled on own object keys and array indices, and on values rather than shared references.
- A thrown `Error`'s own `constructor` key is not modelled. Nor are prototype-inherited property names or keys such as an array's `length` used inside a path.
- Object spread copies own keys of objects only. Spreading a string or an array is not modelled.
- `evaluateProcess` returning a non-object (so that destructuring it throws) is not modelled.
- The source ignores the value `process` resolves to and reads the context it mutated. `Validator.StageState` stands for the context's `data` and `scope` after that call.
- `ToJsString` renders a function value as `function`, not as its source text.
- `src/index.d.ts` contains type declarations only.
