/**
 * The validation pipeline of `src/resources/Validator.js`: the data-table
 * dereference, the assembly of the processing context and its configuration,
 * the two foreign stages (`process` and `evaluateProcess`), the removal of
 * fetched paths from the data, and the choice of the single call to `next`.
 *
 * The foreign stages, `interpolateErrors`, lodash's path parsing and the
 * functions the hooks call are fields of `Stages`.  `validate` changes the
 * submission object in place, so `Submission` is a class; the validator
 * itself never changes after construction and is a value.
 */
module Validator {
  import opened Json
  import opened Hook

  /** Function values the source itself creates and hands to foreign code.
      The foreign stages see only these references; `DefaultIsUnique` and
      `DereferenceDataTableComponent` say what the last two do, and the
      stages' `env` is not tied to them. */
  const FetchFn: FnId := 0
  const IsUniqueFn: FnId := 1
  const DereferenceFn: FnId := 2

  /** A `Validator` instance: the form, the token bag, the hook registry the
      constructor receives and the options.  `project` (read by `validate`)
      and `formModel` (read by the dereference) are never assigned, so they
      are `undefined` for every instance. */
  datatype Validator = Validator(
    form: Value,
    tokens: Value,
    hook: Formio,
    options: map<string, Value>,
    project: Value,
    formModel: Value)

  /** `new Validator(form, tokens, hook, options)`. */
  function NewValidator(form: Value, tokens: Value, hook: Formio, options: map<string, Value>): (v: Validator)
    ensures v.form == form && v.tokens == tokens && v.hook == hook && v.options == options
    ensures v.project == Undefined && v.formModel == Undefined
  {
    Validator(form, tokens, hook, options, Undefined, Undefined)
  }

  /** The validator object passed as `this` to the database hook: its data
      fields, `logger` being `options.logger`.  The `hook` field holds the
      registry, which is not a `Value`, and is left off. */
  function SelfValue(v: Validator): (self: Value)
    ensures self.Obj? && !IsFunction(self)
    ensures Get(self, "form") == v.form && Get(self, "tokens") == v.tokens
    ensures Get(self, "options") == Obj(v.options) && Get(self, "logger") == Get(Obj(v.options), "logger")
  {
    Obj(map["logger" := Get(Obj(v.options), "logger"), "form" := v.form, "tokens" := v.tokens,
            "options" := Obj(v.options)])
  }

  /** The data of the processing context and the scope, as a stage hands them back. */
  datatype StageState = StageState(data: Value, scope: Value)

  /** The collaborators the pipeline calls but does not define. */
  datatype Stages = Stages(
    env: Env,
    serverRules: Value,
    submissionTargets: Value,
    process: Value -> Completion<StageState>,
    evaluate: Value -> Completion<StageState>,
    interpolate: Value -> Completion<Value>,
    toPath: string -> Path)

  // ----- dereferenceDataTableComponent -----

  /** The four conditions under which a data table is dereferenced. */
  predicate DereferenceGuard(component: Value): (g: bool)
    ensures g ==> component.Obj? && "type" in component.fields && "fetch" in component.fields
    ensures g ==> var fetch := component.fields["fetch"];
      fetch.Obj? && "dataSrc" in fetch.fields && "resource" in fetch.fields
  {
    var fetch := Get(component, "fetch");
    && Get(component, "type") == Str("datatable")
    && Truthy(fetch)
    && Get(fetch, "dataSrc") == Str("resource")
    && Truthy(Get(fetch, "resource"))
  }

  function ResourceId(component: Value): Value {
    Get(Get(component, "fetch"), "resource")
  }

  /** The query handed to `formModel.findOne`. */
  function ResourceQuery(resourceId: Value): (q: Value)
    ensures q.Obj? && q.fields.Keys == {"_id", "deleted"}
    ensures q.fields["_id"] == resourceId && q.fields["deleted"] == Null
  {
    Obj(map["_id" := resourceId, "deleted" := Null])
  }

  function NotFoundError(resourceId: Value): (e: Value)
    ensures e.ErrorObj? && e.name == "Error"
  {
    ErrorObj("Error", "Resource at " + ToJsString(resourceId) + " not found for dereferencing")
  }

  /** A dereference together with the lookup it performed, if any. */
  datatype Dereference = Dereference(lookup: Option<Value>, result: Completion<Value>)

  /** The intended `dereferenceDataTableComponent(component)`, with a form
      model whose `findOne` behaves as `findOne`.  No lookup happens unless
      all four guard conditions hold, and then `[]` is the answer.  With the
      guard passed, one lookup is made by resource id and not deleted; a miss
      rejects with an error naming the resource, a hit gives the resource's
      components or `[]`. */
  function DereferenceFromModel(component: Value, findOne: Value -> Completion<Value>): (r: Dereference)
    ensures r.lookup.Some? <==> !IsNullish(component) && DereferenceGuard(component)
    ensures r.lookup.Some? ==> r.lookup.value == ResourceQuery(ResourceId(component))
    ensures IsNullish(component) ==> r.result == Throw(ReadError(component, "type"))
    ensures !IsNullish(component) && !DereferenceGuard(component) ==> r.result == Normal(Arr([]))
    ensures r.lookup.Some? ==>
      match findOne(r.lookup.value)
      case Throw(e) => r.result == Throw(e)
      case Normal(res) =>
        (!Truthy(res) <==> r.result == Throw(NotFoundError(ResourceId(component))))
        && (Truthy(res) ==> r.result == Normal(Or(Get(res, "components"), Arr([]))))
  {
    if IsNullish(component) then Dereference(None, Throw(ReadError(component, "type")))
    else if !DereferenceGuard(component) then Dereference(None, Normal(Arr([])))
    else
      var resourceId := ResourceId(component);
      var query := ResourceQuery(resourceId);
      match findOne(query)
      case Throw(e) => Dereference(Some(query), Throw(e))
      case Normal(resource) =>
        if !Truthy(resource) then Dereference(Some(query), Throw(NotFoundError(resourceId)))
        else Dereference(Some(query), Normal(Or(Get(resource, "components"), Arr([]))))
  }

  /** `dereferenceDataTableComponent(component)` as written: it reads
      `this.formModel.findOne`, so with no form model every component that
      passes the guard rejects with a `TypeError` and no lookup is made;
      everything else is as in `DereferenceFromModel`. */
  function DereferenceDataTableComponent(v: Validator, component: Value, findOne: Value -> Completion<Value>)
    : (r: Dereference)
    ensures IsNullish(v.formModel) && !IsNullish(component) && DereferenceGuard(component) ==>
              r == Dereference(None, Throw(ReadError(v.formModel, "findOne")))
    ensures !(IsNullish(v.formModel) && !IsNullish(component) && DereferenceGuard(component)) ==>
              r == DereferenceFromModel(component, findOne)
  {
    if IsNullish(v.formModel) && !IsNullish(component) && DereferenceGuard(component)
    then Dereference(None, Throw(ReadError(v.formModel, "findOne")))
    else DereferenceFromModel(component, findOne)
  }

  /** No validator the constructor builds can dereference a data table:
      the resource is never looked up and the call rejects. */
  lemma DereferenceNeverLooksUp(form: Value, tokens: Value, hook: Formio, options: map<string, Value>,
                                component: Value, findOne: Value -> Completion<Value>)
    requires !IsNullish(component) && DereferenceGuard(component)
    ensures var r := DereferenceDataTableComponent(NewValidator(form, tokens, hook, options), component, findOne);
      && r.lookup.None? && r.result.Throw?
      && r.result.exception == ReadError(Undefined, "findOne") && r.result.exception.name == "TypeError"
  {
  }

  /** A data-table component with a resource, the smallest one the guard admits. */
  function ResourceTable(resourceId: string): (c: Value)
    ensures !IsNullish(c) && (resourceId != "" ==> DereferenceGuard(c))
  {
    Obj(map["type" := Str("datatable"),
            "fetch" := Obj(map["dataSrc" := Str("resource"), "resource" := Str(resourceId)])])
  }

  /** With a form model, the same component is looked up by its resource id. */
  lemma ResourceTableLookedUpWithModel(resourceId: string, findOne: Value -> Completion<Value>)
    requires resourceId != ""
    ensures DereferenceFromModel(ResourceTable(resourceId), findOne).lookup
      == Some(ResourceQuery(Str(resourceId)))
  {
  }

  lemma PrefixOfConcat(s: string, t: string)
    ensures s <= (s + t)
  {
  }

  /** The not-found message starts with the text of the resource id after "Resource at ". */
  lemma NotFoundNamesResource(resourceId: Value)
    ensures var msg := NotFoundError(resourceId).message;
      |msg| >= 12 && msg[..12] == "Resource at "
      && ToJsString(resourceId) <= msg[12..]
  {
    var msg := NotFoundError(resourceId).message;
    var rest := ToJsString(resourceId) + " not found for dereferencing";
    assert msg == "Resource at " + rest;
    assert msg[12..] == rest;
    PrefixOfConcat(ToJsString(resourceId), " not found for dereferencing");
  }

  // ----- configuration and context -----

  /** `this.project ? this.project.config || {} : {}`. */
  function ProjectConfig(project: Value): (c: Value)
    ensures Truthy(c)
    ensures Truthy(project) && Truthy(Get(project, "config")) ==> c == Get(project, "config")
    ensures !(Truthy(project) && Truthy(Get(project, "config"))) ==> c == Obj(map[])
  {
    if Truthy(project) then Or(Get(project, "config"), Obj(map[])) else Obj(map[])
  }

  /** `{ ...(this.form.config || {}), ...projectConfig }`: project settings win. */
  function MergedConfig(v: Validator): (config: map<string, Value>)
    ensures forall k :: k in Spread(ProjectConfig(v.project)) ==>
      k in config && config[k] == Spread(ProjectConfig(v.project))[k]
    ensures forall k :: k !in Spread(ProjectConfig(v.project)) ==>
      (k in config <==> k in Spread(Or(Get(v.form, "config"), Obj(map[]))))
      && (k in config ==> config[k] == Spread(Or(Get(v.form, "config"), Obj(map[])))[k])
  {
    Spread(Or(Get(v.form, "config"), Obj(map[]))) + Spread(ProjectConfig(v.project))
  }

  /** `this.tokens?.['x-jwt-token']`. */
  function TokenOf(tokens: Value): (t: Value)
    ensures IsNullish(tokens) ==> t == Undefined
    ensures tokens.Obj? && "x-jwt-token" in tokens.fields ==> t == tokens.fields["x-jwt-token"]
  {
    if IsNullish(tokens) then Undefined else Get(tokens, "x-jwt-token")
  }

  /** The database capability `validate` installs when no hook replaces it. */
  function DefaultDatabase(): (db: Value)
    ensures db.Obj? && Get(db, "isUnique") == Func(IsUniqueFn)
    ensures Get(db, "dereferenceDataTableComponent") == Func(DereferenceFn)
  {
    Obj(map["isUnique" := Func(IsUniqueFn), "dereferenceDataTableComponent" := Func(DereferenceFn)])
  }

  /** The default `isUnique(context, value)`: with no datastore wired in,
      every value passes the uniqueness rule. */
  function DefaultIsUnique(context: Value, value: Value): (r: Completion<Value>)
    ensures r.Normal? && Truthy(r.value)
  {
    Normal(Bool(true))
  }

  /** `hook.alter('validationDatabaseHooks', defaults, this)`. */
  function DatabaseHooks(v: Validator, st: Stages): (db: Value)
    ensures AlterHook(v.hook, "validationDatabaseHooks").None? ==> db == DefaultDatabase()
    ensures AlterHook(v.hook, "validationDatabaseHooks").Some? ==>
              db == st.env(AlterHook(v.hook, "validationDatabaseHooks").value, [DefaultDatabase(), SelfValue(v)])
  {
    Alter(v.hook, st.env, "validationDatabaseHooks", [DefaultDatabase(), SelfValue(v)]).result
  }

  /** `hook.alter('serverRules', serverRules)`. */
  function Rules(v: Validator, st: Stages): (rules: Value)
    ensures AlterHook(v.hook, "serverRules").None? && !IsFunction(st.serverRules) ==> rules == st.serverRules
    ensures AlterHook(v.hook, "serverRules").None? && st.serverRules.Func? ==>
              rules == st.env(st.serverRules.id, [Null, st.serverRules])
    ensures AlterHook(v.hook, "serverRules").Some? ==>
              rules == st.env(AlterHook(v.hook, "serverRules").value, [st.serverRules])
  {
    Alter(v.hook, st.env, "serverRules", [st.serverRules]).result
  }

  /** `hook.alter('dynamicVmDependencies', [], this.form)`. */
  function AdditionalDeps(v: Validator, st: Stages): (deps: Value)
    ensures AlterHook(v.hook, "dynamicVmDependencies").None? && !IsFunction(v.form) ==> deps == Arr([])
    ensures AlterHook(v.hook, "dynamicVmDependencies").None? && v.form.Func? ==>
              deps == st.env(v.form.id, [Null, Arr([])])
    ensures AlterHook(v.hook, "dynamicVmDependencies").Some? ==>
              deps == st.env(AlterHook(v.hook, "dynamicVmDependencies").value, [Arr([]), v.form])
  {
    Alter(v.hook, st.env, "dynamicVmDependencies", [Arr([]), v.form]).result
  }

  /** The four keys `validate` writes over the merged configuration. */
  function ContextOverrides(v: Validator, st: Stages): (overrides: map<string, Value>)
    ensures overrides.Keys == {"server", "token", "tokens", "database"}
    ensures overrides["server"] == Bool(true) && overrides["token"] == TokenOf(v.tokens)
    ensures overrides["tokens"] == v.tokens && overrides["database"] == DatabaseHooks(v, st)
  {
    var overrides := map[
      "server" := Bool(true),
      "token" := TokenOf(v.tokens),
      "tokens" := v.tokens,
      "database" := DatabaseHooks(v, st)];
    assert overrides.Keys == {"server", "token", "tokens", "database"};
    overrides
  }

  /** `context.config`: the merged configuration with `server`, `token`,
      `tokens` and `database` written over any keys of the same name. */
  function ContextConfig(v: Validator, st: Stages): (config: map<string, Value>)
    ensures config.Keys == MergedConfig(v).Keys + {"server", "token", "tokens", "database"}
    ensures config["server"] == Bool(true)
    ensures config["token"] == TokenOf(v.tokens) && config["tokens"] == v.tokens
    ensures config["database"] == DatabaseHooks(v, st)
    ensures forall k :: (k in MergedConfig(v) && k !in {"server", "token", "tokens", "database"}) ==>
                          config[k] == MergedConfig(v)[k]
  {
    var merged := MergedConfig(v);
    var overrides := ContextOverrides(v, st);
    assert forall k :: k in overrides <==> k in {"server", "token", "tokens", "database"};
    merged + overrides
  }

  /** `this.options?.vmTimeout || 5000`. */
  function VmTimeout(options: Value): (t: Value)
    ensures Truthy(t)
    ensures options.Obj? && "vmTimeout" in options.fields && Truthy(options.fields["vmTimeout"])
      ==> t == options.fields["vmTimeout"]
    ensures !Truthy(if IsNullish(options) then Undefined else Get(options, "vmTimeout")) ==> t == Num(5000)
  {
    Or(if IsNullish(options) then Undefined else Get(options, "vmTimeout"), Num(5000))
  }

  /** The keys of the context `validate` hands to `process`. */
  const ContextKeys: set<string> :=
    {"form", "submission", "components", "data", "processors", "fetch", "scope", "config", "rules"}

  /** The keys `validate` sets over the merged configuration for `evaluateProcess`. */
  const EvaluateKeys: set<string> := {"form", "submission", "scope", "token", "tokens", "timeout", "additionalDeps"}

  /** The nine-key object `validate` builds as the context of `process`,
      over the values it puts at each key. */
  function ContextFields(form: Value, submission: Value, components: Value, data: Value, processors: Value,
                         fetch: Value, scope: Value, config: Value, rules: Value): map<string, Value>
  {
    map["form" := form, "submission" := submission, "components" := components, "data" := data,
        "processors" := processors, "fetch" := fetch, "scope" := scope, "config" := config, "rules" := rules]
  }

  /** The keys of the context and the value at each. */
  lemma ContextFieldsShape(form: Value, submission: Value, components: Value, data: Value, processors: Value,
                           fetch: Value, scope: Value, config: Value, rules: Value)
    ensures var m := ContextFields(form, submission, components, data, processors, fetch, scope, config, rules);
      && m.Keys == ContextKeys
      && m["form"] == form && m["submission"] == submission && m["components"] == components
      && m["data"] == data && m["processors"] == processors && m["fetch"] == fetch
      && m["scope"] == scope && m["config"] == config && m["rules"] == rules
  {
  }

  /** The context handed to `process`, once `processors` and `rules` are set. */
  function ProcessContext(v: Validator, st: Stages, submission: map<string, Value>): (context: Value)
    ensures context.Obj?
  {
    Obj(ContextFields(v.form, Obj(submission), Get(v.form, "components"), Get(Obj(submission), "data"),
      st.submissionTargets, Func(FetchFn), Obj(map[]), Obj(ContextConfig(v, st)), Rules(v, st)))
  }

  /** The seven keys `validate` sets over the merged configuration in the
      input of `evaluateProcess`, over the values it puts at each key. */
  function EvaluateFields(form: Value, submission: Value, scope: Value, token: Value, tokens: Value,
                          timeout: Value, additionalDeps: Value): map<string, Value>
  {
    map["form" := form, "submission" := submission, "scope" := scope, "token" := token,
        "tokens" := tokens, "timeout" := timeout, "additionalDeps" := additionalDeps]
  }

  /** The listed keys of the evaluation input and the value at each. */
  lemma EvaluateFieldsShape(form: Value, submission: Value, scope: Value, token: Value, tokens: Value,
                            timeout: Value, additionalDeps: Value)
    ensures var m := EvaluateFields(form, submission, scope, token, tokens, timeout, additionalDeps);
      && m.Keys == EvaluateKeys
      && m["form"] == form && m["submission"] == submission && m["scope"] == scope
      && m["token"] == token && m["tokens"] == tokens && m["timeout"] == timeout
      && m["additionalDeps"] == additionalDeps
  {
  }

  /** The argument of `evaluateProcess`: the merged configuration (not the
      context's) overridden by the listed keys. */
  function EvaluateInput(v: Validator, st: Stages, submission: map<string, Value>, scope: Value): (input: Value)
    ensures input.Obj?
  {
    Obj(MergedConfig(v) + EvaluateFields(v.form, Obj(submission), scope, TokenOf(v.tokens), v.tokens,
      VmTimeout(Obj(v.options)), AdditionalDeps(v, st)))
  }

  /** The context handed to `process` has exactly the nine keys the source
      lists. */
  lemma ProcessContextKeys(v: Validator, st: Stages, submission: map<string, Value>)
    ensures ProcessContext(v, st, submission).fields.Keys == ContextKeys
  {
    ContextFieldsShape(v.form, Obj(submission), Get(v.form, "components"), Get(Obj(submission), "data"),
      st.submissionTargets, Func(FetchFn), Obj(map[]), Obj(ContextConfig(v, st)), Rules(v, st));
  }

  /** What each key of the context holds: the submission's own `data`, an
      empty scope, the configuration with the context overrides and the
      altered server rules. */
  lemma ProcessContextFields(v: Validator, st: Stages, submission: map<string, Value>)
    ensures var c := ProcessContext(v, st, submission).fields;
      && c["form"] == v.form && c["submission"] == Obj(submission)
      && c["components"] == Get(v.form, "components")
      && c["data"] == Get(Obj(submission), "data")
      && c["processors"] == st.submissionTargets && c["fetch"] == Func(FetchFn)
      && c["scope"] == Obj(map[])
      && c["config"] == Obj(ContextConfig(v, st)) && c["rules"] == Rules(v, st)
  {
    ContextFieldsShape(v.form, Obj(submission), Get(v.form, "components"), Get(Obj(submission), "data"),
      st.submissionTargets, Func(FetchFn), Obj(map[]), Obj(ContextConfig(v, st)), Rules(v, st));
  }

  /** The input of `evaluateProcess` holds the merged configuration and the
      seven listed keys, which take precedence over it. */
  lemma EvaluateInputKeys(v: Validator, st: Stages, submission: map<string, Value>, scope: Value)
    ensures EvaluateInput(v, st, submission, scope).fields.Keys == MergedConfig(v).Keys + EvaluateKeys
    ensures forall k :: k in MergedConfig(v) && k !in EvaluateKeys ==>
                          EvaluateInput(v, st, submission, scope).fields[k] == MergedConfig(v)[k]
  {
    EvaluateFieldsShape(v.form, Obj(submission), scope, TokenOf(v.tokens), v.tokens,
      VmTimeout(Obj(v.options)), AdditionalDeps(v, st));
  }

  /** What each listed key of the evaluation input holds; in particular the
      timeout is the one `vmTimeout` option yields. */
  lemma EvaluateInputFields(v: Validator, st: Stages, submission: map<string, Value>, scope: Value)
    ensures var e := EvaluateInput(v, st, submission, scope).fields;
      && e["form"] == v.form && e["submission"] == Obj(submission)
      && e["scope"] == scope
      && e["token"] == TokenOf(v.tokens) && e["tokens"] == v.tokens
      && e["timeout"] == VmTimeout(Obj(v.options))
      && e["additionalDeps"] == AdditionalDeps(v, st)
  {
    EvaluateFieldsShape(v.form, Obj(submission), scope, TokenOf(v.tokens), v.tokens,
      VmTimeout(Obj(v.options)), AdditionalDeps(v, st));
  }

  // ----- outcome -----

  /** How `validate` ends: the arguments of its one call to `next`, or an
      exception that escapes it (from reading a property of a missing form,
      from the catch block itself, or from `interpolateErrors`). */
  datatype Outcome = Next(args: seq<Value>) | Escaped(exception: Value)

  /** The catch block: `next(err.message || err)`; if `err` itself is
      nullish, reading `err.message` throws out of `validate`. */
  function CatchOutcome(err: Value): (out: Outcome)
    ensures IsNullish(err) ==> out.Escaped? && out.exception.ErrorObj? && out.exception.name == "TypeError"
    ensures !IsNullish(err) ==>
              && out.Next? && |out.args| == 1
              && (Truthy(MessageOf(err)) ==> out.args[0] == MessageOf(err))
              && (!Truthy(MessageOf(err)) ==> out.args[0] == err)
    ensures err.ErrorObj? && err.message != "" ==> out == Next([Str(err.message)])
  {
    if IsNullish(err) then Escaped(ReadError(err, "message")) else Next([Or(MessageOf(err), err)])
  }

  /** `context.scope.errors && context.scope.errors.length`. */
  predicate HasErrors(scope: Value): (h: bool)
    ensures IsNullish(Get(scope, "errors")) ==> !h
    ensures Get(scope, "errors").Arr? ==> (h <==> |Get(scope, "errors").elems| > 0)
    ensures Get(scope, "errors").Str? ==> (h <==> Get(scope, "errors").s != "")
  {
    var errors := Get(scope, "errors");
    Truthy(errors) && Truthy(LengthOf(errors))
  }

  function ValidationErrorValue(details: Value): (e: Value)
    ensures Truthy(e) && Get(e, "name") == Str("ValidationError") && Get(e, "details") == details
  {
    Obj(map["name" := Str("ValidationError"), "details" := details])
  }

  /** Where `validate` stands before the cleanup loop: finished, with the
      outcome and the submission's fields, or about to remove the fetched
      paths from `data`, with the fields as they are then and the scope. */
  datatype Plan =
    | Done(out: Outcome, fields: map<string, Value>)
    | Clean(fields: map<string, Value>, data: Value, scope: Value)

  /** `validate` up to the cleanup loop, on the submission's fields. */
  function ValidatePlan(v: Validator, st: Stages, fields: map<string, Value>): (plan: Plan)
    ensures !Truthy(Get(Obj(fields), "data")) ==> plan == Done(Next([]), fields)
    ensures plan.Done? && plan.out.Next? ==> |plan.out.args| <= 1
    ensures plan.Clean? ==>
              && !IsNullish(plan.scope)
              && plan.fields == fields["data" := plan.data]["scope" := plan.scope]
    ensures Truthy(Get(Obj(fields), "data")) && IsNullish(v.form) ==>
              plan == Done(Escaped(ReadError(v.form, "config")), fields)
    ensures Truthy(Get(Obj(fields), "data")) && !IsNullish(v.form) ==>
              match st.process(ProcessContext(v, st, fields))
              case Throw(e) => plan == Done(CatchOutcome(e), fields)
              case Normal(pr) =>
                match st.evaluate(EvaluateInput(v, st, fields["data" := pr.data], pr.scope))
                case Throw(e) => plan == Done(CatchOutcome(e), fields["data" := pr.data])
                case Normal(ev) =>
                  && (IsNullish(ev.scope) ==>
                        plan == Done(CatchOutcome(ReadError(ev.scope, "fetched")),
                                     fields["data" := ev.data]["scope" := ev.scope]))
                  && (!IsNullish(ev.scope) ==>
                        plan == Clean(fields["data" := ev.data]["scope" := ev.scope], ev.data, ev.scope))
  {
    if !Truthy(Get(Obj(fields), "data")) then Done(Next([]), fields)
    else if IsNullish(v.form) then Done(Escaped(ReadError(v.form, "config")), fields)
    else
      match st.process(ProcessContext(v, st, fields))
      case Throw(e) => Done(CatchOutcome(e), fields)
      case Normal(processed) =>
        var afterProcess := fields["data" := processed.data];
        match st.evaluate(EvaluateInput(v, st, afterProcess, processed.scope))
        case Throw(e) => Done(CatchOutcome(e), afterProcess)
        case Normal(evaluated) =>
          var afterEvaluate := fields["data" := evaluated.data]["scope" := evaluated.scope];
          if IsNullish(evaluated.scope) then Done(CatchOutcome(ReadError(evaluated.scope, "fetched")), afterEvaluate)
          else Clean(afterEvaluate, evaluated.data, evaluated.scope)
  }

  /** After the cleanup: the validation error when the scope holds errors,
      otherwise success with the cleaned data and the form's components. */
  function Finish(v: Validator, st: Stages, scope: Value, cleaned: Value): (out: Outcome)
    ensures !HasErrors(scope) ==> out == Next([Null, cleaned, Get(v.form, "components")])
    ensures HasErrors(scope) && out.Next? ==>
      |out.args| == 1 && Get(out.args[0], "name") == Str("ValidationError")
    ensures HasErrors(scope) ==>
              match st.interpolate(Get(scope, "errors"))
              case Normal(details) => out == Next([ValidationErrorValue(details)])
              case Throw(e) => out == Escaped(e)
  {
    if HasErrors(scope) then
      match st.interpolate(Get(scope, "errors"))
      case Normal(details) => Next([ValidationErrorValue(details)])
      case Throw(e) => Escaped(e)
    else Next([Null, cleaned, Get(v.form, "components")])
  }

  // ----- cleanup -----

  /** The parsed paths listed as keys of `scope.fetched`. */
  ghost function FetchedPaths(fetched: Value, toPath: string -> Path): set<Path> {
    set k | k in ForInKeys(fetched) :: toPath(k)
  }

  /** `after` is `before` with the given paths removed: nothing is found at
      any of them, and every path that branches off all of them reads as it
      did before. */
  ghost predicate Cleaned(before: Value, paths: set<Path>, after: Value) {
    && (forall p :: p in paths ==> Lookup(after, p) == Undefined)
    && (forall q :: (forall p :: p in paths ==> !(p <= q) && !(q <= p)) ==> Lookup(after, q) == Lookup(before, q))
  }

  /** Removing one more path keeps the removal of the earlier ones. */
  lemma UnsetStep(data: Value, removed: set<Path>, before: Value, p: Path)
    requires Cleaned(data, removed, before)
    ensures Cleaned(data, removed + {p}, Unset(before, p))
  {
    var after := Unset(before, p);
    forall q | q in removed
      ensures Lookup(after, q) == Undefined
    {
      UnsetKeepsMissing(before, p, q);
    }
    UnsetRemovesBelow(before, p, p);
    forall q | (forall p' :: p' in removed + {p} ==> !(p' <= q) && !(q <= p'))
      ensures Lookup(after, q) == Lookup(data, q)
    {
      assert p in removed + {p};
      assert forall p' :: p' in removed ==> !(p' <= q) && !(q <= p');
      UnsetKeepsOthers(before, p, q);
    }
  }

  /** `order` lists every key of `keys` exactly once. */
  ghost predicate Enumerates(order: seq<string>, keys: set<string>) {
    && (forall k :: k in order <==> k in keys)
    && (forall i, j :: 0 <= i < j < |order| ==> order[i] != order[j])
  }

  /** `_.unset` of each key's path in turn, in the order given. */
  function UnsetKeys(v: Value, keys: seq<string>, toPath: string -> Path): (r: Value)
    ensures Cleaned(v, set k | k in keys :: toPath(k), r)
    decreases |keys|
  {
    if keys == [] then v
    else
      var prefix := keys[..|keys| - 1];
      var last := keys[|keys| - 1];
      var before := UnsetKeys(v, prefix, toPath);
      UnsetStep(v, set k | k in prefix :: toPath(k), before, toPath(last));
      assert keys == prefix + [last];
      assert (set k | k in keys :: toPath(k)) == (set k | k in prefix :: toPath(k)) + {toPath(last)};
      Unset(before, toPath(last))
  }

  /** `for (const path in scope.fetched) _.unset(data, path)`, on values.
      The keys are visited in some order that lists each of them once;
      the result is the data with their paths unset in that order. */
  method RemoveFetched(data: Value, fetched: Value, toPath: string -> Path)
    returns (r: Value, ghost order: seq<string>)
    ensures Enumerates(order, ForInKeys(fetched))
    ensures r == UnsetKeys(data, order, toPath)
    ensures Cleaned(data, FetchedPaths(fetched, toPath), r)
  {
    var keys := ForInKeys(fetched);
    order := [];
    r := data;
    while keys != {}
      invariant keys <= ForInKeys(fetched)
      invariant Enumerates(order, ForInKeys(fetched) - keys)
      invariant r == UnsetKeys(data, order, toPath)
      decreases keys
    {
      var k :| k in keys;
      r := Unset(r, toPath(k));
      assert (order + [k])[..|order|] == order;
      order := order + [k];
      keys := keys - {k};
    }
    assert (set k | k in order :: toPath(k)) == FetchedPaths(fetched, toPath);
  }

  // ----- validate -----

  /** The submission object: `data`, `scope` and whatever metadata the
      envelope carries, reassigned in place by `validate`. */
  class Submission {
    var fields: map<string, Value>

    constructor (fields: map<string, Value>)
      ensures this.fields == fields
    {
      this.fields := fields;
    }

    function Data(): Value
      reads this
    {
      Get(Obj(fields), "data")
    }
  }

  /** `validate(submission, next)`: returns the arguments `next` is called
      with (exactly one call per run) or the exception that escapes, and
      leaves the submission as `ValidatePlan` and the cleanup say.  The
      fetched paths are removed before the error check, so the submission's
      data is cleaned whether or not errors are reported. */
  method Validate(v: Validator, st: Stages, submission: Submission)
    returns (out: Outcome, ghost order: seq<string>)
    modifies submission
    ensures var plan := ValidatePlan(v, st, old(submission.fields));
      plan.Done? ==> out == plan.out && submission.fields == plan.fields
    ensures var plan := ValidatePlan(v, st, old(submission.fields));
      plan.Clean? ==>
      && "data" in submission.fields
      && submission.fields == plan.fields["data" := submission.fields["data"]]
      && Enumerates(order, ForInKeys(Get(plan.scope, "fetched")))
      && submission.fields["data"] == UnsetKeys(plan.data, order, st.toPath)
      && Cleaned(plan.data, FetchedPaths(Get(plan.scope, "fetched"), st.toPath), submission.fields["data"])
      && out == Finish(v, st, plan.scope, submission.fields["data"])
  {
    order := [];
    ghost var initial := submission.fields;
    ghost var plan := ValidatePlan(v, st, initial);
    if !Truthy(submission.Data()) {
      out := Next([]);
      return;
    }
    if IsNullish(v.form) {
      out := Escaped(ReadError(v.form, "config"));
      return;
    }
    var context := ProcessContext(v, st, submission.fields);
    var processed := st.process(context);
    if processed.Throw? {
      out := CatchOutcome(processed.exception);
      return;
    }
    submission.fields := submission.fields["data" := processed.value.data];
    var evaluated := st.evaluate(EvaluateInput(v, st, submission.fields, processed.value.scope));
    if evaluated.Throw? {
      assert plan == Done(CatchOutcome(evaluated.exception), submission.fields);
      out := CatchOutcome(evaluated.exception);
      return;
    }
    var scope := evaluated.value.scope;
    submission.fields := submission.fields["data" := evaluated.value.data];
    submission.fields := submission.fields["scope" := scope];
    UpdateTwice(initial, "data", processed.value.data, evaluated.value.data);
    assert submission.fields == initial["data" := evaluated.value.data]["scope" := scope];
    if IsNullish(scope) {
      out := CatchOutcome(ReadError(scope, "fetched"));
      return;
    }
    assert plan == Clean(submission.fields, evaluated.value.data, scope);
    out, order := CleanAndReport(v, st, submission, evaluated.value.data, scope);
  }

  /** The end of `validate`: the fetched paths leave the data, then `next`
      hears of the errors in the scope or of success. */
  method CleanAndReport(v: Validator, st: Stages, submission: Submission, data: Value, scope: Value)
    returns (out: Outcome, ghost order: seq<string>)
    modifies submission
    ensures "data" in submission.fields
    ensures submission.fields == old(submission.fields)["data" := submission.fields["data"]]
    ensures Enumerates(order, ForInKeys(Get(scope, "fetched")))
    ensures submission.fields["data"] == UnsetKeys(data, order, st.toPath)
    ensures Cleaned(data, FetchedPaths(Get(scope, "fetched"), st.toPath), submission.fields["data"])
    ensures out == Finish(v, st, scope, submission.fields["data"])
  {
    var cleaned;
    cleaned, order := RemoveFetched(data, Get(scope, "fetched"), st.toPath);
    submission.fields := submission.fields["data" := cleaned];
    if HasErrors(scope) {
      var details := st.interpolate(Get(scope, "errors"));
      if details.Throw? {
        out := Escaped(details.exception);
      } else {
        out := Next([ValidationErrorValue(details.value)]);
      }
    } else {
      out := Next([Null, cleaned, Get(v.form, "components")]);
    }
  }

  /** Writing a key twice keeps only the second write. */
  lemma UpdateTwice<K, V>(m: map<K, V>, k: K, a: V, b: V)
    ensures m[k := a][k := b] == m[k := b]
  {
  }

  // ----- properties -----

  /** With the registry `src/index.js` builds, every `alter` in the pipeline
      returns its default: the built-in database, the server rules and no
      additional sandbox dependencies (defaults that are not themselves the
      trailing function of their call). */
  lemma EmptyRegistryDefaults(v: Validator, st: Stages)
    requires v.hook == EmptyRegistry()
    requires !IsFunction(st.serverRules) && !IsFunction(v.form)
    ensures DatabaseHooks(v, st) == DefaultDatabase()
    ensures Rules(v, st) == st.serverRules
    ensures AdditionalDeps(v, st) == Arr([])
    ensures ContextConfig(v, st)["database"] == DefaultDatabase()
  {
  }

  /** The processing stage throws `e`, or it returns and the evaluation
      stage, run on the processed data, throws `e`. */
  predicate StageThrows(v: Validator, st: Stages, fields: map<string, Value>, e: Value) {
    match st.process(ProcessContext(v, st, fields))
    case Throw(x) => x == e
    case Normal(pr) => st.evaluate(EvaluateInput(v, st, fields["data" := pr.data], pr.scope)) == Throw(e)
  }

  /** A failure of either stage is reported through `next` with the error's
      message (or the thrown value itself), and the cleanup is never reached. */
  lemma StageFailureReachesNext(v: Validator, st: Stages, fields: map<string, Value>, e: Value)
    requires Truthy(Get(Obj(fields), "data")) && !IsNullish(v.form)
    requires StageThrows(v, st, fields, e)
    ensures var plan := ValidatePlan(v, st, fields);
      && plan.Done? && plan.out == CatchOutcome(e)
      && (!IsNullish(e) ==> plan.out == Next([Or(MessageOf(e), e)]))
  {
    var plan := ValidatePlan(v, st, fields);
    match st.process(ProcessContext(v, st, fields))
    case Throw(x) =>
      assert plan == Done(CatchOutcome(e), fields);
    case Normal(pr) =>
      assert plan == Done(CatchOutcome(e), fields["data" := pr.data]);
  }

  /** After a run that reaches the cleanup, no fetched path is left in the
      data, in both the error and the success outcome. */
  lemma CleanupPrecedesOutcome(v: Validator, st: Stages, scope: Value, before: Value, cleaned: Value, k: string)
    requires Cleaned(before, FetchedPaths(Get(scope, "fetched"), st.toPath), cleaned)
    requires k in ForInKeys(Get(scope, "fetched"))
    ensures Lookup(cleaned, st.toPath(k)) == Undefined
    ensures Finish(v, st, scope, cleaned).Next? && !HasErrors(scope) ==>
      Lookup(Finish(v, st, scope, cleaned).args[1], st.toPath(k)) == Undefined
  {
    assert st.toPath(k) in FetchedPaths(Get(scope, "fetched"), st.toPath);
  }
}
