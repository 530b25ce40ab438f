/**
 * The invocation adapter: the process-wide environment is swapped for the
 * configured one while a function runs, and the saved environment is put
 * back when the function's completion fires, before the response is written.
 */
module Invocation {
  import opened Wrappers
  import opened Js
  import opened Responses
  import opened Dispatch

  type Env = map<string, string>

  /** What the handler does to the process, in the order it does it. */
  datatype Event =
    | Loaded(modulePath: string)
    | Installed(env: Env)
    | Applied(call: seq<Arg>)
    | Restored(env: Env)
    | WroteHead(status: int, headers: Option<Headers>)
    | Ended(body: Body)

  /** The environment the completion callback's closure saved (`oldenv`). */
  datatype Pending = Pending(saved: Env)

  /** The result of starting a call: the function is running, or the call threw after the swap. */
  datatype Started =
    | Running(pending: Pending, call: seq<Arg>)
    | ThrewAfterSwap(reason: string)

  /** What the resolution callback leaves behind once it returns. */
  datatype Handled =
    | Uncaught(reason: string)
    | Wrote(response: Response)
    | Invoked(started: Started)

  const ArgsNotSpreadable := "TypeError: params.args cannot be applied as an argument list"

  /** The events that write a response. */
  function Written(r: Response): seq<Event> {
    [WroteHead(r.status, r.headers), Ended(r.body)]
  }

  /** The process whose global environment the handler swaps. */
  class Process {
    var env: Env
    var trace: seq<Event>
    const overrideEnv: Env

    constructor (processEnv: Env, overrideEnv: Env)
      ensures env == processEnv && this.overrideEnv == overrideEnv && trace == []
    {
      env := processEnv;
      this.overrideEnv := overrideEnv;
      trace := [];
    }

    /**
     * Load the function, save the environment, install the override, and
     * apply the function to `args.concat(kwargs, callback)`. When `args` is
     * not an array the call throws after the override is installed, and
     * no completion will ever restore the saved environment.
     */
    method Invoke(modulePath: string, args: JsValue, kwargs: JsValue) returns (s: Started)
      modifies this
      ensures env == overrideEnv
      ensures s.Running? <==> args.Array?
      ensures s.Running? ==>
        && s.pending.saved == old(env)
        && s.call == CallList(args.items, kwargs)
        && trace == old(trace) + [Loaded(modulePath), Installed(overrideEnv), Applied(s.call)]
      ensures s.ThrewAfterSwap? ==> trace == old(trace) + [Loaded(modulePath), Installed(overrideEnv)]
    {
      trace := trace + [Loaded(modulePath)];
      var saved := env;
      env := overrideEnv;
      trace := trace + [Installed(overrideEnv)];
      if args.Array? {
        var call := CallList(args.items, kwargs);
        trace := trace + [Applied(call)];
        s := Running(Pending(saved), call);
      } else {
        s := ThrewAfterSwap(ArgsNotSpreadable);
      }
    }

    /** The completion callback: restore the saved environment, then write the response. */
    method Complete(p: Pending, c: Completion, stringify: JsValue -> Option<string>) returns (r: Response)
      modifies this
      ensures env == p.saved
      ensures r == Marshal(c, stringify)
      ensures trace == old(trace) + [Restored(p.saved)] + Written(r)
    {
      env := p.saved;
      trace := trace + [Restored(p.saved)];
      r := Marshal(c, stringify);
      trace := trace + Written(r);
    }

    /**
     * The resolution callback `response(err, params)` run against this
     * process: a throw at the logging line touches nothing, an error is
     * written as a 400, and otherwise the function is invoked.
     */
    method HandleResolved(pathname: string, err: Option<string>, params: JsValue) returns (h: Handled)
      modifies this
      ensures (params.Undefined? || params.Null?) <==> h.Uncaught?
      ensures h.Uncaught? ==> env == old(env) && trace == old(trace)
      ensures h.Wrote? <==> err.Some? && !(params.Undefined? || params.Null?)
      ensures h.Wrote? ==>
        && err.Some? && env == old(env) && h.response == ErrorResponse(err.value)
        && trace == old(trace) + Written(h.response)
      ensures h.Invoked? ==> env == overrideEnv && err.None?
      ensures h.Invoked? ==>
        (h.started.Running? <==> params.Object? && "args" in params.fields && params.fields["args"].Array?)
      ensures h.Invoked? && h.started.ThrewAfterSwap? ==>
        trace == old(trace) + [Loaded(ModulePath(pathname)), Installed(overrideEnv)]
      ensures h.Invoked? && h.started.Running? ==>
        && params.Object?
        && h.started.pending.saved == old(env)
        && h.started.call == CallList(params.fields["args"].items,
                                      if "kwargs" in params.fields then params.fields["kwargs"] else Undefined)
        && trace == old(trace) + [Loaded(ModulePath(pathname)), Installed(overrideEnv), Applied(h.started.call)]
    {
      var d := OnResolved(pathname, err, params);
      match d
      case Threw(reason) =>
        h := Uncaught(reason);
      case Replied(response) =>
        trace := trace + Written(response);
        h := Wrote(response);
      case Invoke(modulePath, args, kwargs) =>
        var started := Invoke(modulePath, args, kwargs);
        h := Invoked(started);
    }

    /**
     * One invocation whose completion fires with `c`: the function runs
     * under the override and the environment ends as it began.
     */
    method InvokeOnce(modulePath: string, args: seq<JsValue>, kwargs: JsValue, c: Completion, stringify: JsValue -> Option<string>)
      returns (call: seq<Arg>, r: Response)
      modifies this
      ensures env == old(env)
      ensures call == CallList(args, kwargs) && r == Marshal(c, stringify)
      ensures trace == old(trace) + [Loaded(modulePath), Installed(overrideEnv), Applied(call), Restored(old(env))] + Written(r)
    {
      var s := Invoke(modulePath, Array(args), kwargs);
      call := s.call;
      assert env == overrideEnv;
      r := Complete(s.pending, c, stringify);
    }
  }

  /** A reply `{}` (no `args`) leaves the process on the override, with no way back. */
  method MissingArgsLeaveOverride(proc: Process, pathname: string)
    requires proc.env != proc.overrideEnv
    modifies proc
    ensures proc.env == proc.overrideEnv && proc.env != old(proc.env)
  {
    var h := proc.HandleResolved(pathname, None, Object(map[]));
    assert h.Invoked? && h.started.ThrewAfterSwap?;
  }

  /**
   * The shared-environment hazard: when a second invocation starts before
   * the first completes and the first completes first, the second saves the
   * override as its `oldenv`, and the process is left on the override.
   */
  method OverlappingInvocations(proc: Process, c1: Completion, c2: Completion, stringify: JsValue -> Option<string>)
    requires proc.env != proc.overrideEnv
    modifies proc
    ensures proc.env == proc.overrideEnv && proc.env != old(proc.env)
  {
    var first := proc.Invoke("./first", Array([]), Undefined);
    var second := proc.Invoke("./second", Array([]), Undefined);
    var r1 := proc.Complete(first.pending, c1, stringify);
    var r2 := proc.Complete(second.pending, c2, stringify);
  }
}
