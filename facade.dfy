/**
 * The public entry point of `src/index.js`: the service object, the
 * submission envelope, the precedence of per-call options over constructor
 * options, and the mapping of the validator's single `next` call (or the
 * exception that escapes it) to the result object the caller receives.
 *
 * The registry every validator receives is the empty one built when the
 * module loads.  The timestamp, the logger and the sandbox configuration
 * call are not modelled; the sandbox timeout the constructor configures is
 * kept as a field.
 */
module Facade {
  import opened Json
  import opened Hook
  import opened Validator

  /** The object `validateSubmission` resolves to, without its timestamp:
      a completed validation, or a runtime failure with the message and the
      constructor name of what was thrown. */
  datatype ServiceResult =
    | Completed(success: bool, errors: Value)
    | RuntimeFailure(message: Value, errorType: string)

  /** A service instance: its options and the sandbox timeout it configured. */
  datatype Service = Service(options: Value, vmTimeout: Value)

  /** `options = {}`: only a missing argument takes the default. */
  function DefaultOptions(options: Value): (o: Value)
    ensures options.Undefined? ==> o == Obj(map[])
    ensures !options.Undefined? ==> o == options
  {
    if options.Undefined? then Obj(map[]) else options
  }

  /** `new FormioSubmissionDataValidator(options)`: reading `options.logger`
      throws when `null` is passed; otherwise the sandbox is configured with
      `options.vmTimeout || 5000`. */
  function NewService(options: Value): (r: Completion<Service>)
    ensures options.Null? <==> r.Throw?
    ensures r.Throw? ==> r.exception == ReadError(Null, "logger")
    ensures r.Normal? ==> r.value.options == DefaultOptions(options) && Truthy(r.value.vmTimeout)
    ensures r.Normal? && !Truthy(Get(DefaultOptions(options), "vmTimeout")) ==> r.value.vmTimeout == Num(5000)
    ensures r.Normal? && Truthy(Get(DefaultOptions(options), "vmTimeout")) ==>
              r.value.vmTimeout == Get(options, "vmTimeout")
  {
    var opts := DefaultOptions(options);
    if IsNullish(opts) then Throw(ReadError(opts, "logger"))
    else Normal(Service(opts, Or(Get(opts, "vmTimeout"), Num(5000))))
  }

  /** `{ data: submissionData, ...submissionMeta }`: a `data` key in the
      metadata replaces the submission data, and every other metadata key
      is copied. */
  function Envelope(submissionData: Value, submissionMeta: Value): (fields: map<string, Value>)
    ensures fields.Keys == {"data"} + Spread(submissionMeta).Keys
    ensures "data" in Spread(submissionMeta) ==> fields["data"] == Spread(submissionMeta)["data"]
    ensures "data" !in Spread(submissionMeta) ==> fields["data"] == submissionData
    ensures forall k :: k in Spread(submissionMeta) ==> fields[k] == Spread(submissionMeta)[k]
  {
    map["data" := submissionData] + Spread(submissionMeta)
  }

  /** `{ ...this.options, ...options }`: a per-call option wins over the
      constructor option of the same name. */
  function MergeOptions(serviceOptions: Value, callOptions: Value): (m: map<string, Value>)
    ensures m.Keys == Spread(serviceOptions).Keys + Spread(callOptions).Keys
    ensures forall k :: k in Spread(callOptions) ==> m[k] == Spread(callOptions)[k]
    ensures forall k :: (k in Spread(serviceOptions) && k !in Spread(callOptions)) ==>
                          m[k] == Spread(serviceOptions)[k]
  {
    Spread(serviceOptions) + Spread(callOptions)
  }

  /** The callback handed to `validate`: a truthy first argument is a
      failure whose errors it is; anything else is a success with no errors. */
  function OnValidated(args: seq<Value>): (r: ServiceResult)
    ensures r.Completed?
    ensures r.success <==> !Truthy(r.errors)
    ensures r.success ==> r.errors == Undefined
    ensures !r.success ==> |args| > 0 && r.errors == args[0]
    ensures |args| == 0 || !Truthy(args[0]) ==> r.success
  {
    var err := if |args| > 0 then args[0] else Undefined;
    if Truthy(err) then Completed(false, err) else Completed(true, Undefined)
  }

  /** `error.constructor.name` of a thrown value that is not nullish. */
  function ConstructorName(e: Value): (name: string)
    requires !IsNullish(e)
    ensures e.ErrorObj? ==> name == e.name
    ensures e.Obj? ==> name == "Object"
  {
    match e
    case ErrorObj(n, _) => n
    case Obj(_) => "Object"
    case Arr(_) => "Array"
    case Str(_) => "String"
    case Num(_) => "Number"
    case Bool(_) => "Boolean"
    case Func(_) => "Function"
  }

  /** The outer catch block: the message and type of what was thrown;
      a nullish exception makes the catch block itself throw. */
  function CaughtResult(e: Value): (r: Completion<ServiceResult>)
    ensures IsNullish(e) <==> r.Throw?
    ensures r.Throw? ==> r.exception == ReadError(e, "message")
    ensures r.Normal? ==> r.value.RuntimeFailure? && r.value.message == MessageOf(e)
    ensures r.Normal? ==> r.value.errorType == ConstructorName(e)
    ensures e.ErrorObj? ==> r == Normal(RuntimeFailure(Str(e.message), e.name))
  {
    if IsNullish(e) then Throw(ReadError(e, "message"))
    else Normal(RuntimeFailure(MessageOf(e), ConstructorName(e)))
  }

  /** What the caller receives once `validate` has ended with `out`. */
  function ResultOf(out: Outcome): (r: Completion<ServiceResult>)
    ensures out.Next? ==> r == Normal(OnValidated(out.args))
    ensures out.Escaped? ==> r == CaughtResult(out.exception)
  {
    match out
    case Next(args) => Normal(OnValidated(args))
    case Escaped(e) => CaughtResult(e)
  }

  /** The validator `validateSubmission` builds: the `form` argument as it
      is, the call's tokens, the load-time registry and the merged options. */
  function CallValidator(service: Service, form: Value, options: Value): (v: Validator)
    requires !IsNullish(options)
    ensures v.form == form && v.tokens == Get(options, "tokens") && v.hook == EmptyRegistry()
    ensures v.project == Undefined && v.formModel == Undefined
    ensures v.options.Keys == Spread(service.options).Keys + Spread(options).Keys
    ensures forall k :: k in Spread(options) ==> v.options[k] == Spread(options)[k]
    ensures forall k :: k in Spread(service.options) && k !in Spread(options) ==>
                          v.options[k] == Spread(service.options)[k]
  {
    NewValidator(form, Get(options, "tokens"), EmptyRegistry(), MergeOptions(service.options, options))
  }

  /** The result `validateSubmission(form, submissionData, options)` resolves
      to (or the exception it rejects with), in terms of the pipeline. */
  function ExpectedResult(service: Service, st: Stages, form: Value, submissionData: Value, options: Value)
    : Completion<ServiceResult>
  {
    var opts := DefaultOptions(options);
    if IsNullish(opts) then CaughtResult(ReadError(opts, "submissionMeta"))
    else
      var v := CallValidator(service, form, opts);
      match ValidatePlan(v, st, Envelope(submissionData, Get(opts, "submissionMeta")))
      case Done(out, _) => ResultOf(out)
      case Clean(_, data, scope) => ResultOf(Finish(v, st, scope, data))
  }

  /** The result of a run does not depend on the cleaned data: the callback
      ignores everything after its first argument. */
  lemma FinishResultIgnoresData(v: Validator, st: Stages, scope: Value, d1: Value, d2: Value)
    ensures ResultOf(Finish(v, st, scope, d1)) == ResultOf(Finish(v, st, scope, d2))
  {
  }

  /** `validateSubmission(form, submissionData, options)`. */
  method ValidateSubmission(service: Service, st: Stages, form: Value, submissionData: Value, options: Value)
    returns (r: Completion<ServiceResult>)
    ensures r == ExpectedResult(service, st, form, submissionData, options)
  {
    var opts := DefaultOptions(options);
    if IsNullish(opts) {
      return CaughtResult(ReadError(opts, "submissionMeta"));
    }
    var submission := new Submission(Envelope(submissionData, Get(opts, "submissionMeta")));
    var validator := CallValidator(service, form, opts);
    ghost var plan := ValidatePlan(validator, st, submission.fields);
    var out, order := Validate(validator, st, submission);
    if plan.Clean? {
      FinishResultIgnoresData(validator, st, plan.scope, plan.data, submission.fields["data"]);
    }
    r := ResultOf(out);
  }

  // ----- properties -----

  /** A validation outcome is a success exactly when it carries no errors,
      and a completed run always comes from the callback. */
  lemma SuccessIffNoErrors(service: Service, st: Stages, form: Value, submissionData: Value, options: Value)
    ensures var r := ExpectedResult(service, st, form, submissionData, options);
      r.Normal? && r.value.Completed? ==> (r.value.success <==> r.value.errors == Undefined)
  {
    var r := ExpectedResult(service, st, form, submissionData, options);
    if r.Normal? && r.value.Completed? {
      var opts := DefaultOptions(options);
      var v := CallValidator(service, form, opts);
      var plan := ValidatePlan(v, st, Envelope(submissionData, Get(opts, "submissionMeta")));
      var out := if plan.Done? then plan.out else Finish(v, st, plan.scope, plan.data);
      assert r == ResultOf(out);
      assert out.Next?;
    }
  }

  /** Submitting no data (and no `data` in the metadata) succeeds without
      running any stage. */
  lemma NoDataSucceeds(service: Service, st: Stages, form: Value, submissionData: Value, options: Value)
    requires !Truthy(submissionData) && !options.Null?
    requires "data" !in Spread(Get(DefaultOptions(options), "submissionMeta"))
    ensures ExpectedResult(service, st, form, submissionData, options) == Normal(Completed(true, Undefined))
  {
  }

  /** Passing `null` as the options is reported as a runtime failure of
      type `TypeError`, not as a rejection. */
  lemma NullOptionsFail(service: Service, st: Stages, form: Value, submissionData: Value)
    ensures ExpectedResult(service, st, form, submissionData, Null)
      == Normal(RuntimeFailure(Str(ReadError(Null, "submissionMeta").message), "TypeError"))
  {
  }

  /** A failure thrown by either stage reaches the caller as the errors of
      a failed validation: the error's message, or the thrown value itself
      when that message is falsy. */
  lemma StageFailureReported(service: Service, st: Stages, form: Value, submissionData: Value, options: Value, e: Value)
    requires !IsNullish(DefaultOptions(options)) && !IsNullish(form) && !IsNullish(e)
    requires var opts := DefaultOptions(options);
      var fields := Envelope(submissionData, Get(opts, "submissionMeta"));
      && Truthy(Get(Obj(fields), "data"))
      && StageThrows(CallValidator(service, form, opts), st, fields, e)
    ensures ExpectedResult(service, st, form, submissionData, options) == Normal(OnValidated([Or(MessageOf(e), e)]))
    ensures Truthy(Or(MessageOf(e), e)) ==> ExpectedResult(service, st, form, submissionData, options) == Normal(Completed(false, Or(MessageOf(e), e)))
  {
    var opts := DefaultOptions(options);
    var fields := Envelope(submissionData, Get(opts, "submissionMeta"));
    var v := CallValidator(service, form, opts);
    StageFailureReachesNext(v, st, fields, e);
    var plan := ValidatePlan(v, st, fields);
    assert ExpectedResult(service, st, form, submissionData, options) == ResultOf(plan.out);
  }

  /** When the scope after evaluation reports errors, the caller receives
      a failed validation whose errors are the `ValidationError` object. */
  lemma ValidationErrorsReported(service: Service, st: Stages, form: Value, submissionData: Value, options: Value)
    requires !IsNullish(DefaultOptions(options))
    requires var v := CallValidator(service, form, DefaultOptions(options));
      var plan := ValidatePlan(v, st, Envelope(submissionData, Get(DefaultOptions(options), "submissionMeta")));
      && plan.Clean? && HasErrors(plan.scope)
      && st.interpolate(Get(plan.scope, "errors")).Normal?
    ensures var v := CallValidator(service, form, DefaultOptions(options));
      var plan := ValidatePlan(v, st, Envelope(submissionData, Get(DefaultOptions(options), "submissionMeta")));
      ExpectedResult(service, st, form, submissionData, options)
        == Normal(Completed(false, ValidationErrorValue(st.interpolate(Get(plan.scope, "errors")).value)))
  {
  }

  /** Without a `vmTimeout` in either place, the service and every
      evaluation use a timeout of 5000 milliseconds. */
  lemma DefaultTimeouts(serviceOptions: Value, callOptions: Value, form: Value, st: Stages,
                        submission: map<string, Value>, scope: Value)
    requires !serviceOptions.Null? && !IsNullish(DefaultOptions(callOptions))
    requires !Truthy(Get(DefaultOptions(serviceOptions), "vmTimeout"))
    requires "vmTimeout" !in Spread(DefaultOptions(serviceOptions)) && "vmTimeout" !in Spread(DefaultOptions(callOptions))
    ensures NewService(serviceOptions).value.vmTimeout == Num(5000)
    ensures VmTimeout(Obj(MergeOptions(NewService(serviceOptions).value.options, DefaultOptions(callOptions)))) == Num(5000)
    ensures var v := CallValidator(NewService(serviceOptions).value, form, DefaultOptions(callOptions));
      Get(EvaluateInput(v, st, submission, scope), "timeout") == Num(5000)
  {
    var v := CallValidator(NewService(serviceOptions).value, form, DefaultOptions(callOptions));
    EvaluateInputFields(v, st, submission, scope);
  }
}
