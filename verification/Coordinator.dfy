/**
 * The profiling-session coordinator: `CPUProfileWebpackPlugin` as a class
 * whose constructor connects the inspector session, whose `Apply` resolves
 * the destination and posts `Profiler.enable` (chaining `Profiler.start` on
 * it), and whose `Done` is the `done.tapPromise` handler. The outcomes of the
 * native and filesystem calls are parameters; everything the plugin does is
 * appended to `trace`.
 */
module Coordinator {
  import opened Wrappers
  import opened PluginOptions
  import opened Trace

  /** How far the enable-then-start chain (`profileStartPromise`) has got. */
  datatype Chain = Unposted | Pending | Settled(ok: bool)

  /** Where the plugin instance stands; the last four mean a `done` handler is registered. */
  datatype Phase = Constructed | ApplyThrew | Profiling | Written | Failed | Escaped

  /** How `Profiler.stop` settles: rejected, or resolved with a falsy (`None`) or truthy result. */
  datatype StopOutcome = StopRejected | StopResolved(result: Option<Profile>)

  predicate Registered(phase: Phase) {
    !(phase == Constructed || phase == ApplyThrew)
  }

  /** What `apply` does once a destination is known: the start line, then `Profiler.enable`. */
  function ApplyActions(profileName: string): seq<Action> {
    [Info(Starting(profileName)), Post(Enable)]
  }

  /** The chain after the handler's `await`: a pending chain settles, a settled one stays. */
  function SettledChain(chain: Chain, enableOk: bool, startOk: bool): (r: Chain)
    ensures chain != Unposted ==> r.Settled?
    ensures r == Settled(true) <==> chain == Settled(true) || (chain == Pending && enableOk && startOk)
  {
    if chain == Pending then Settled(enableOk && startOk) else chain
  }

  /** What a pending chain does until it settles: start is posted only if enable resolved. */
  function SettleActions(chain: Chain, enableOk: bool, startOk: bool): (r: seq<Action>)
    ensures Post(Start) in r <==> chain == Pending && enableOk
    ensures Resolved(Start) in r <==> chain == Pending && enableOk && startOk
    ensures forall i :: 0 <= i < |r| ==> !IsWrite(r[i]) && !IsOutcomeLog(r[i]) && r[i] != Post(Stop)
  {
    if chain != Pending then []
    else if !enableOk then [Rejected(Enable)]
    else [Resolved(Enable), Post(Start), if startOk then Resolved(Start) else Rejected(Start)]
  }

  /**
   * The body of the `done` handler after its `await`: nothing if the chain was
   * rejected (the rejection leaves the handler); otherwise stop, then either an
   * error line, or the write followed by the success or the error line.
   */
  function HandlerActions(chain: Chain, stop: StopOutcome, writeOk: bool, path: string): (r: seq<Action>)
    ensures r == [] <==> chain != Settled(true)
    ensures r != [] ==> r[0] == Post(Stop)
    ensures forall a :: a in r && a.Write? ==> a.path == path && stop.StopResolved? && stop.result.Some? && a.data == stop.result.value.json
  {
    if chain != Settled(true) then []
    else
      match stop
      case StopRejected => [Post(Stop), Rejected(Stop), Error(StopFailed)]
      case StopResolved(None) => [Post(Stop), Resolved(Stop), Error(NoProfileInformation)]
      case StopResolved(Some(p)) => [Post(Stop), Resolved(Stop)] + WriteActions(path, p, writeOk)
  }

  /** The write of a truthy stop result, then the success line or the caught write error. */
  function WriteActions(path: string, profile: Profile, writeOk: bool): seq<Action> {
    [Write(path, profile.json), if writeOk then Info(WrittenTo(path)) else Error(WriteFailed)]
  }

  function HandlerPhase(chain: Chain, stop: StopOutcome, writeOk: bool): Phase {
    if chain != Settled(true) then Escaped
    else if stop.StopResolved? && stop.result.Some? && writeOk then Written
    else Failed
  }

  class Plugin {
    const options: Options
    const profileName: string
    var trace: seq<Action>
    var outputPath: Option<string>
    var chain: Chain
    var phase: Phase

    ghost predicate Valid()
      reads this
    {
      && Ordered(trace)
      && trace != [] && trace[0] == Connect
      && (!Registered(phase) ==> chain == Unposted && outputPath == None)
      && (Registered(phase) ==> chain != Unposted && outputPath.Some? && outputPath.value != "")
      && (chain != Unposted ==> Post(Enable) in trace)
      && (chain == Settled(true) ==> Resolved(Start) in trace)
    }

    /** The session is connected before any option is looked at. */
    constructor (options: Options)
      ensures Valid() && phase == Constructed
      ensures this.options == options && profileName == ResolveProfileName(options.profileName)
      ensures trace == [Connect]
    {
      this.options := options;
      profileName := ResolveProfileName(options.profileName);
      trace := [Connect];
      outputPath := None;
      chain := Unposted;
      phase := Constructed;
    }

    /** Appends one action whose prerequisites have happened. */
    method Emit(a: Action)
      requires Ordered(trace) && Ready(trace, a)
      modifies this`trace
      ensures trace == old(trace) + [a] && Ordered(trace)
    {
      OrderedSnoc(trace, a);
      trace := trace + [a];
    }

    /**
     * `apply(compiler)`: resolves the destination first and throws (here:
     * returns the error) before logging, posting or registering anything;
     * otherwise logs the start line, posts `Profiler.enable` with start chained
     * on it, and registers the `done` handler.
     */
    method Apply(compilerOutputPath: Option<string>) returns (error: Option<ConfigError>)
      requires Valid() && phase == Constructed
      modifies this
      ensures Valid()
      ensures var r := ResolveOutputPath(options.outputPath, compilerOutputPath);
        if r.Err? then
          && error == Some(r.error) && phase == ApplyThrew
          && trace == old(trace) && chain == Unposted && outputPath == None
        else
          && error == None && phase == Profiling && outputPath == Some(r.value)
          && chain == Pending && trace == old(trace) + ApplyActions(profileName)
    {
      var resolved := ResolveOutputPath(options.outputPath, compilerOutputPath);
      if resolved.Err? {
        phase := ApplyThrew;
        return Some(resolved.error);
      }
      outputPath := Some(resolved.value);
      Emit(Info(Starting(profileName)));
      Emit(Post(Enable));
      chain := Pending;
      phase := Profiling;
      error := None;
    }

    /**
     * The `done` handler. It first awaits the chain, so stop is never posted
     * before start has resolved; a rejected chain leaves the handler
     * (`escaped`). Failures of stop and of the write are caught and logged
     * once. The handler may fire again (watch mode); the chain settles once.
     */
    method Done(enableOk: bool, startOk: bool, stop: StopOutcome, writeOk: bool) returns (escaped: bool)
      requires Valid() && Registered(phase)
      modifies this
      ensures Valid() && Registered(phase)
      ensures outputPath == old(outputPath)
      ensures chain == SettledChain(old(chain), enableOk, startOk)
      ensures trace == old(trace) + SettleActions(old(chain), enableOk, startOk)
                       + HandlerActions(chain, stop, writeOk, outputPath.value)
      ensures escaped <==> chain == Settled(false)
      ensures phase == HandlerPhase(chain, stop, writeOk)
    {
      AwaitChain(enableOk, startOk);
      if chain == Settled(false) {
        phase := Escaped;
        return true;
      }
      escaped := false;
      StopAndWrite(stop, writeOk);
    }

    /** `await profileStartPromise`: a pending chain settles here at the latest. */
    method AwaitChain(enableOk: bool, startOk: bool)
      requires Valid() && Registered(phase)
      modifies this`trace, this`chain
      ensures Valid()
      ensures chain == SettledChain(old(chain), enableOk, startOk)
      ensures trace == old(trace) + SettleActions(old(chain), enableOk, startOk)
    {
      if chain == Pending {
        if enableOk {
          StartAfterEnable(startOk);
        } else {
          Emit(Rejected(Enable));
        }
        chain := Settled(enableOk && startOk);
      }
    }

    /** Enable resolved: the `.then` posts `Profiler.start`, which then settles. */
    method StartAfterEnable(startOk: bool)
      requires Ordered(trace) && Post(Enable) in trace
      modifies this`trace
      ensures Ordered(trace)
      ensures trace == old(trace) + [Resolved(Enable), Post(Start), if startOk then Resolved(Start) else Rejected(Start)]
    {
      Emit(Resolved(Enable));
      Emit(Post(Start));
      Emit(if startOk then Resolved(Start) else Rejected(Start));
    }

    /** The `try` block of the handler and its `catch`, after the chain resolved. */
    method StopAndWrite(stop: StopOutcome, writeOk: bool)
      requires Valid() && Registered(phase) && chain == Settled(true)
      modifies this`trace, this`phase
      ensures Valid() && Registered(phase)
      ensures trace == old(trace) + HandlerActions(chain, stop, writeOk, outputPath.value)
      ensures phase == HandlerPhase(chain, stop, writeOk)
    {
      var path := outputPath.value;
      Emit(Post(Stop));
      match stop
      case StopRejected =>
        LogStopFailure(Rejected(Stop), StopFailed);
      case StopResolved(None) =>
        LogStopFailure(Resolved(Stop), NoProfileInformation);
      case StopResolved(Some(profile)) =>
        Emit(Resolved(Stop));
        WriteProfile(path, profile, writeOk);
        assert trace == old(trace) + [Post(Stop), Resolved(Stop)] + WriteActions(path, profile, writeOk);
    }

    /** Stop settled without a truthy result: the `throw`/rejection is caught and logged once. */
    method LogStopFailure(settled: Action, cause: Cause)
      requires Ordered(trace) && Post(Stop) in trace
      requires settled == Resolved(Stop) || settled == Rejected(Stop)
      modifies this`trace, this`phase
      ensures Ordered(trace) && trace == old(trace) + [settled, Error(cause)]
      ensures phase == Failed
    {
      Emit(settled);
      Emit(Error(cause));
      phase := Failed;
    }

    /** `writeFile` of a truthy stop result, then the success line or the caught error. */
    method WriteProfile(path: string, profile: Profile, writeOk: bool)
      requires Ordered(trace) && Resolved(Stop) in trace
      modifies this`trace, this`phase
      ensures Ordered(trace)
      ensures trace == old(trace) + WriteActions(path, profile, writeOk)
      ensures phase == (if writeOk then Written else Failed)
    {
      Emit(Write(path, profile.json));
      if writeOk {
        Emit(Info(WrittenTo(path)));
        phase := Written;
      } else {
        Emit(Error(WriteFailed));
        phase := Failed;
      }
    }
  }

  /** How one build ends for the plugin. */
  datatype Outcome = ConfigurationError | HandlerRejected | HandlerResolved

  datatype Observation = Observation(trace: seq<Action>, outcome: Outcome)

  /**
   * One webpack build with the plugin: construct, apply, and fire `done` once.
   * The arguments after the compiler's `output.path` are the outcomes of
   * `Profiler.enable`, `Profiler.start`, `Profiler.stop` and `writeFile`.
   */
  function Run(options: Options, compilerOutputPath: Option<string>,
               enableOk: bool, startOk: bool, stop: StopOutcome, writeOk: bool): (obs: Observation)
    ensures obs.trace != [] && obs.trace[0] == Connect
    ensures obs.outcome == ConfigurationError <==> ResolveOutputPath(options.outputPath, compilerOutputPath).Err?
    ensures obs.outcome == HandlerRejected <==>
      ResolveOutputPath(options.outputPath, compilerOutputPath).Ok? && !(enableOk && startOk)
    ensures Post(Stop) in obs.trace <==> obs.outcome == HandlerResolved
  {
    match ResolveOutputPath(options.outputPath, compilerOutputPath)
    case Err(_) => Observation([Connect], ConfigurationError)
    case Ok(path) =>
      var chain := SettledChain(Pending, enableOk, startOk);
      Observation(
        [Connect] + ApplyActions(ResolveProfileName(options.profileName))
          + SettleActions(Pending, enableOk, startOk) + HandlerActions(chain, stop, writeOk, path),
        if chain == Settled(false) then HandlerRejected else HandlerResolved)
  }

  /** Drives a `Plugin` through one build; what it observes is exactly `Run`. */
  method RunBuild(options: Options, compilerOutputPath: Option<string>,
                  enableOk: bool, startOk: bool, stop: StopOutcome, writeOk: bool) returns (obs: Observation)
    ensures obs == Run(options, compilerOutputPath, enableOk, startOk, stop, writeOk)
  {
    var plugin := new Plugin(options);
    var error := plugin.Apply(compilerOutputPath);
    if error.Some? {
      return Observation(plugin.trace, ConfigurationError);
    }
    var escaped := plugin.Done(enableOk, startOk, stop, writeOk);
    obs := Observation(plugin.trace, if escaped then HandlerRejected else HandlerResolved);
  }
}
