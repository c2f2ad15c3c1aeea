/**
 * The extension-point registry of `src/util/hook.js`: a read-only table of
 * named hooks (`on` for predicate hooks, `alter` for transform hooks, and a
 * single `settings` hook) with the three dispatch operations `invoke`,
 * `alter` and `settings`.  Each operation makes at most one call; the call it
 * makes is part of its result, and what the called function returns comes
 * from an environment `Env`.
 */
module Hook {
  import opened Json

  /** `formio.hooks`: each table and the settings hook may be missing. */
  datatype Hooks = Hooks(
    on: Option<map<string, FnId>>,
    alter: Option<map<string, FnId>>,
    settings: Option<FnId>)

  /** The `formio` object the registry closes over. */
  datatype Formio = Formio(config: Value, hooks: Option<Hooks>)

  /** What calling a function value with some arguments returns. */
  type Env = (FnId, seq<Value>) -> Value

  /** One call made by a dispatch operation. */
  datatype Call = Call(fn: FnId, args: seq<Value>)

  /** The result of a dispatch together with the call it made, if any. */
  datatype Dispatch<T> = Dispatch(call: Option<Call>, result: T)

  /** `formio.hooks.on[name]`, when the whole chain is present. */
  function OnHook(f: Formio, name: string): Option<FnId> {
    if f.hooks.Some? && f.hooks.value.on.Some? && name in f.hooks.value.on.value
    then Some(f.hooks.value.on.value[name]) else None
  }

  /** `formio.hooks.alter[name]`, when the whole chain is present. */
  function AlterHook(f: Formio, name: string): Option<FnId> {
    if f.hooks.Some? && f.hooks.value.alter.Some? && name in f.hooks.value.alter.value
    then Some(f.hooks.value.alter.value[name]) else None
  }

  /** `formio.hooks.settings`, when present. */
  function SettingsHook(f: Formio): Option<FnId> {
    if f.hooks.Some? then f.hooks.value.settings else None
  }

  /** `invoke(name, ...args)`: calls the predicate hook registered under
      `name` with exactly `args` and coerces its result to a boolean, where a
      hook that returns `undefined` counts as `true`; an unregistered name
      gives `false` without calling anything. */
  function Invoke(f: Formio, env: Env, name: string, args: seq<Value>): (r: Dispatch<bool>)
    ensures OnHook(f, name).None? ==> r == Dispatch(None, false)
    ensures OnHook(f, name).Some? ==> r.call == Some(Call(OnHook(f, name).value, args))
    ensures !r.result <==>
      (OnHook(f, name).None? ||
       (!env(OnHook(f, name).value, args).Undefined? && !Truthy(env(OnHook(f, name).value, args))))
  {
    match OnHook(f, name)
    case None => Dispatch(None, false)
    case Some(h) =>
      var ret := env(h, args);
      Dispatch(Some(Call(h, args)), if ret != Undefined then Truthy(ret) else true)
  }

  /** A registered predicate hook that returns nothing counts as `true`,
      and one that returns a value gives that value's truthiness. */
  lemma InvokeRegistered(f: Formio, env: Env, name: string, args: seq<Value>)
    requires OnHook(f, name).Some?
    ensures var ret := env(OnHook(f, name).value, args);
      && (ret.Undefined? ==> Invoke(f, env, name, args).result)
      && (!ret.Undefined? ==> Invoke(f, env, name, args).result == Truthy(ret))
  {
  }

  /** The trailing callback of `alter(name, ...args)`: the last argument of the
      whole call, if it is a function.  With no arguments after the name the
      last argument is the name, a string. */
  function TrailingCallback(args: seq<Value>): (cb: Option<FnId>)
    ensures cb.Some? <==> |args| > 0 && args[|args| - 1].Func?
    ensures cb.Some? ==> args[|args| - 1] == Func(cb.value)
  {
    if |args| > 0 && IsFunction(args[|args| - 1]) then Some(args[|args| - 1].id) else None
  }

  /** `arguments[1]` of `alter(name, ...args)`: the default value. */
  function DefaultOf(args: seq<Value>): Value {
    if |args| > 0 then args[0] else Undefined
  }

  /** `alter(name, ...args)`: a registered transform hook receives every
      argument after the name (the default, further arguments and any
      trailing callback) and its result is returned verbatim.  Otherwise a
      trailing function argument is called as `fn(null, default)` and its
      result returned; with no trailing function the default itself comes
      back and nothing is called. */
  function Alter(f: Formio, env: Env, name: string, args: seq<Value>): (r: Dispatch<Value>)
    ensures AlterHook(f, name).Some? ==>
      r == Dispatch(Some(Call(AlterHook(f, name).value, args)), env(AlterHook(f, name).value, args))
    ensures AlterHook(f, name).None? && TrailingCallback(args).Some? ==>
      var cb := TrailingCallback(args).value;
      r == Dispatch(Some(Call(cb, [Null, DefaultOf(args)])), env(cb, [Null, DefaultOf(args)]))
    ensures AlterHook(f, name).None? && TrailingCallback(args).None? ==>
      r == Dispatch(None, DefaultOf(args))
  {
    var fn := TrailingCallback(args);
    match AlterHook(f, name)
    case Some(h) => Dispatch(Some(Call(h, args)), env(h, args))
    case None =>
      match fn
      case Some(cb) => Dispatch(Some(Call(cb, [Null, DefaultOf(args)])), env(cb, [Null, DefaultOf(args)]))
      case None => Dispatch(None, DefaultOf(args))
  }

  /** `(formio.config && formio.config.settings) || {}`. */
  function ConfiguredSettings(f: Formio): (s: Value)
    ensures Truthy(s)
    ensures Truthy(f.config) && Truthy(Get(f.config, "settings")) ==> s == Get(f.config, "settings")
    ensures !(Truthy(f.config) && Truthy(Get(f.config, "settings"))) ==> s == Obj(map[])
  {
    Or(if Truthy(f.config) then Get(f.config, "settings") else f.config, Obj(map[]))
  }

  /** `settings(req, cb)`: with a settings hook, delegates to it with
      `(settings, req, cb)` and returns what it returns, leaving `cb` to the
      hook; without one, calls `cb(null, settings)` itself and returns
      `undefined`. */
  function Settings(f: Formio, env: Env, req: Value, cb: FnId): (r: Dispatch<Value>)
    ensures SettingsHook(f).Some? ==>
      r.call == Some(Call(SettingsHook(f).value, [ConfiguredSettings(f), req, Func(cb)]))
      && r.result == env(SettingsHook(f).value, [ConfiguredSettings(f), req, Func(cb)])
    ensures SettingsHook(f).None? ==>
      r == Dispatch(Some(Call(cb, [Null, ConfiguredSettings(f)])), Undefined)
  {
    var s := ConfiguredSettings(f);
    match SettingsHook(f)
    case Some(h) => Dispatch(Some(Call(h, [s, req, Func(cb)])), env(h, [s, req, Func(cb)]))
    case None => Dispatch(Some(Call(cb, [Null, s])), Undefined)
  }

  /** The registry `src/index.js` builds at load time: `{ hooks: {} }`. */
  function EmptyRegistry(): (f: Formio)
    ensures f.hooks.Some? && f.config.Undefined?
    ensures forall name :: OnHook(f, name).None? && AlterHook(f, name).None?
    ensures SettingsHook(f).None?
  {
    Formio(Undefined, Some(Hooks(None, None, None)))
  }

  /** With nothing registered, `invoke` is `false` for every name and calls nothing. */
  lemma EmptyRegistryInvoke(env: Env, name: string, args: seq<Value>)
    ensures Invoke(EmptyRegistry(), env, name, args) == Dispatch(None, false)
  {
  }

  /** With nothing registered, `alter` is a pass-through: the default comes
      back unchanged, or goes to the trailing callback as `(null, default)`. */
  lemma EmptyRegistryAlter(env: Env, name: string, args: seq<Value>)
    ensures TrailingCallback(args).None? ==>
      Alter(EmptyRegistry(), env, name, args) == Dispatch(None, DefaultOf(args))
    ensures TrailingCallback(args).Some? ==>
      Alter(EmptyRegistry(), env, name, args).call ==
        Some(Call(TrailingCallback(args).value, [Null, DefaultOf(args)]))
  {
  }

  /** `alter(name, f)` with nothing registered under `name`: `f` is both the
      default and the trailing callback, so it is called as `f(null, f)`. */
  lemma AlterLoneFunction(f: Formio, env: Env, name: string, g: FnId)
    requires AlterHook(f, name).None?
    ensures Alter(f, env, name, [Func(g)]) == Dispatch(Some(Call(g, [Null, Func(g)])), env(g, [Null, Func(g)]))
  {
  }

  /** `alter(name)` with nothing registered and no default: `undefined`. */
  lemma AlterNoArguments(f: Formio, env: Env, name: string)
    requires AlterHook(f, name).None?
    ensures Alter(f, env, name, []) == Dispatch(None, Undefined)
  {
  }
}
