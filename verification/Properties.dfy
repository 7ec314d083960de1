/**
 * What one build with the plugin guarantees, over every combination of
 * outcomes of `Profiler.enable`, `Profiler.start`, `Profiler.stop` and the
 * file write.
 */
module Properties {
  import opened Wrappers
  import opened PluginOptions
  import opened Trace
  import opened Coordinator

  /** The part of a build's trace before the `done` handler's `try` block. */
  function Prelude(options: Options, enableOk: bool, startOk: bool): seq<Action> {
    [Connect] + ApplyActions(ResolveProfileName(options.profileName)) + SettleActions(Pending, enableOk, startOk)
  }

  /** The apply step and a settling chain keep a trace ordered. */
  lemma PreludeOrdered(options: Options, enableOk: bool, startOk: bool)
    ensures Ordered(Prelude(options, enableOk, startOk))
    ensures enableOk && startOk ==> Resolved(Start) in Prelude(options, enableOk, startOk)
  {
    var t := [Connect];
    OrderedSnoc([], Connect);
    assert [] + [Connect] == t;
    OrderedSnoc(t, Info(Starting(ResolveProfileName(options.profileName))));
    t := t + [Info(Starting(ResolveProfileName(options.profileName)))];
    OrderedSnoc(t, Post(Enable));
    t := t + [Post(Enable)];
    if enableOk {
      OrderedSnoc(t, Resolved(Enable));
      t := t + [Resolved(Enable)];
      OrderedSnoc(t, Post(Start));
      t := t + [Post(Start)];
      var last := if startOk then Resolved(Start) else Rejected(Start);
      OrderedSnoc(t, last);
      t := t + [last];
    } else {
      OrderedSnoc(t, Rejected(Enable));
      t := t + [Rejected(Enable)];
    }
    assert t == Prelude(options, enableOk, startOk);
  }

  /** The handler's `try` block keeps an ordered trace ordered. */
  lemma HandlerOrdered(t: seq<Action>, chain: Chain, stop: StopOutcome, writeOk: bool, path: string)
    requires Ordered(t)
    requires chain == Settled(true) ==> Resolved(Start) in t
    ensures Ordered(t + HandlerActions(chain, stop, writeOk, path))
  {
    if chain != Settled(true) {
      assert t + [] == t;
    } else {
      OrderedSnoc(t, Post(Stop));
      var u := t + [Post(Stop)];
      match stop {
        case StopRejected =>
          ErrorAfterStopOrdered(u, Rejected(Stop), StopFailed);
          assert t + HandlerActions(chain, stop, writeOk, path) == u + [Rejected(Stop), Error(StopFailed)];
        case StopResolved(None) =>
          ErrorAfterStopOrdered(u, Resolved(Stop), NoProfileInformation);
          assert t + HandlerActions(chain, stop, writeOk, path) == u + [Resolved(Stop), Error(NoProfileInformation)];
        case StopResolved(Some(p)) =>
          OrderedSnoc(u, Resolved(Stop));
          WriteOrdered(u + [Resolved(Stop)], path, p, writeOk);
          assert t + HandlerActions(chain, stop, writeOk, path) == u + [Resolved(Stop)] + WriteActions(path, p, writeOk);
      }
    }
  }

  /** Stop settles once it was posted, and the error line may follow anything. */
  lemma ErrorAfterStopOrdered(u: seq<Action>, settled: Action, cause: Cause)
    requires Ordered(u) && Post(Stop) in u
    requires settled == Resolved(Stop) || settled == Rejected(Stop)
    ensures Ordered(u + [settled, Error(cause)])
  {
    OrderedSnoc(u, settled);
    OrderedSnoc(u + [settled], Error(cause));
    assert u + [settled] + [Error(cause)] == u + [settled, Error(cause)];
  }

  /** After a resolved stop, the write and the line that follows it keep the trace ordered. */
  lemma WriteOrdered(u: seq<Action>, path: string, profile: Profile, writeOk: bool)
    requires Ordered(u) && Resolved(Stop) in u
    ensures Ordered(u + WriteActions(path, profile, writeOk))
  {
    var w := Write(path, profile.json);
    OrderedSnoc(u, w);
    var line := if writeOk then Info(WrittenTo(path)) else Error(WriteFailed);
    assert Ready(u + [w], line);
    OrderedSnoc(u + [w], line);
    assert u + [w] + [line] == u + WriteActions(path, profile, writeOk);
  }

  /**
   * Every build's trace is ordered: start only after enable resolved, stop
   * only after start resolved, the write only after stop resolved, the
   * success line right after the write of the file it names.
   */
  lemma RunOrdered(options: Options, c: Option<string>, enableOk: bool, startOk: bool, stop: StopOutcome, writeOk: bool)
    ensures Ordered(Run(options, c, enableOk, startOk, stop, writeOk).trace)
  {
    match ResolveOutputPath(options.outputPath, c)
    case Err(_) =>
      OrderedSnoc([], Connect);
      assert [] + [Connect] == [Connect];
    case Ok(path) =>
      PreludeOrdered(options, enableOk, startOk);
      HandlerOrdered(Prelude(options, enableOk, startOk), Settled(enableOk && startOk), stop, writeOk, path);
  }

  /**
   * `Profiler.stop` is posted only once the enable-then-start chain has
   * resolved, however soon `done` fires; and it is posted exactly when a
   * destination was found and both enable and start resolved.
   */
  lemma StopOnlyAfterChain(options: Options, c: Option<string>, enableOk: bool, startOk: bool, stop: StopOutcome, writeOk: bool, i: nat)
    requires var t := Run(options, c, enableOk, startOk, stop, writeOk).trace; i < |t| && t[i] == Post(Stop)
    ensures var t := Run(options, c, enableOk, startOk, stop, writeOk).trace;
      Resolved(Enable) in t[..i] && Post(Start) in t[..i] && Resolved(Start) in t[..i]
    ensures ResolveOutputPath(options.outputPath, c).Ok? && enableOk && startOk
  {
    var t := Run(options, c, enableOk, startOk, stop, writeOk).trace;
    RunOrdered(options, c, enableOk, startOk, stop, writeOk);
    ChainResolvedBeforeStop(t, i);
    assert t[i] in t[..i + 1];
    assert Resolved(Start) in t;
  }

  /**
   * Without a truthy `outputPath` option and without webpack's `output.path`,
   * `apply` throws after the session was connected but before the start line,
   * before `Profiler.enable` and without registering a handler.
   */
  lemma MissingPathFailsFast(options: Options, c: Option<string>, enableOk: bool, startOk: bool, stop: StopOutcome, writeOk: bool)
    requires !Truthy(options.outputPath) && !Truthy(c)
    ensures Run(options, c, enableOk, startOk, stop, writeOk) == Observation([Connect], ConfigurationError)
  {
  }

  /**
   * A truthy `outputPath` option is the only destination: webpack's
   * `output.path` does not change the build, and every write and success line
   * names the option's path.
   */
  lemma ExplicitPathIsOnlyDestination(options: Options, c1: Option<string>, c2: Option<string>,
                                      enableOk: bool, startOk: bool, stop: StopOutcome, writeOk: bool)
    requires Truthy(options.outputPath)
    ensures Run(options, c1, enableOk, startOk, stop, writeOk) == Run(options, c2, enableOk, startOk, stop, writeOk)
    ensures forall a :: a in Run(options, c1, enableOk, startOk, stop, writeOk).trace ==>
      (a.Write? ==> a.path == options.outputPath.value) &&
      (a.Info? && a.line.WrittenTo? ==> a.line.path == options.outputPath.value)
  {
    WritesNameDestination(options, c1, enableOk, startOk, stop, writeOk);
  }

  /**
   * Every write and every success line of a build names the destination
   * `apply` resolved.
   */
  lemma WritesNameDestination(options: Options, c: Option<string>, enableOk: bool, startOk: bool, stop: StopOutcome, writeOk: bool)
    ensures var r := ResolveOutputPath(options.outputPath, c);
      forall a :: a in Run(options, c, enableOk, startOk, stop, writeOk).trace ==>
        (a.Write? ==> r.Ok? && a.path == r.value) &&
        (a.Info? && a.line.WrittenTo? ==> r.Ok? && a.line.path == r.value)
  {
    var r := ResolveOutputPath(options.outputPath, c);
    if r.Ok? {
      var pre := Prelude(options, enableOk, startOk);
      var post := HandlerActions(Settled(enableOk && startOk), stop, writeOk, r.value);
      assert Run(options, c, enableOk, startOk, stop, writeOk).trace == pre + post;
      forall a | a in pre
        ensures !a.Write? && !(a.Info? && a.line.WrittenTo?)
      {
      }
    }
  }

  /** The start line names the profile name chosen in the constructor and precedes enable. */
  lemma StartLineNamesProfile(options: Options, c: Option<string>, enableOk: bool, startOk: bool, stop: StopOutcome, writeOk: bool)
    requires ResolveOutputPath(options.outputPath, c).Ok?
    ensures var t := Run(options, c, enableOk, startOk, stop, writeOk).trace;
      |t| >= 3 && t[0] == Connect && t[1] == Info(Starting(ResolveProfileName(options.profileName))) && t[2] == Post(Enable)
  {
  }

  /** How many writes, error lines and success lines the handler's `try` block produces. */
  lemma HandlerCounts(chain: Chain, stop: StopOutcome, writeOk: bool, path: string)
    ensures var h := HandlerActions(chain, stop, writeOk, path);
      var reached := chain == Settled(true);
      var written := reached && stop.StopResolved? && stop.result.Some?;
      && CountWhere(h, IsWrite) == (if written then 1 else 0)
      && CountWhere(h, IsSuccessLog) == (if written && writeOk then 1 else 0)
      && CountWhere(h, IsErrorLog) == (if reached && !(written && writeOk) then 1 else 0)
      && CountWhere(h, IsOutcomeLog) == (if reached then 1 else 0)
  {
    var h := HandlerActions(chain, stop, writeOk, path);
    if chain == Settled(true) {
      var last := h[|h| - 1];
      assert h == h[..|h| - 1] + [last];
      CountWhereAppend(h[..|h| - 1], [last], IsWrite);
      CountWhereAppend(h[..|h| - 1], [last], IsSuccessLog);
      CountWhereAppend(h[..|h| - 1], [last], IsErrorLog);
      CountWhereAppend(h[..|h| - 1], [last], IsOutcomeLog);
      if stop.StopResolved? && stop.result.Some? {
        var w := h[..|h| - 1];
        assert w == w[..2] + [w[2]];
        CountWhereAppend(w[..2], [w[2]], IsWrite);
        CountWhereAppend(w[..2], [w[2]], IsSuccessLog);
        CountWhereAppend(w[..2], [w[2]], IsErrorLog);
        CountWhereAppend(w[..2], [w[2]], IsOutcomeLog);
      }
    }
  }

  /**
   * How many writes, error lines and success lines a build produces, and how
   * its handler ends, once `apply` found a destination.
   */
  lemma RunCounts(options: Options, c: Option<string>, enableOk: bool, startOk: bool, stop: StopOutcome, writeOk: bool)
    requires ResolveOutputPath(options.outputPath, c).Ok?
    ensures var t := Run(options, c, enableOk, startOk, stop, writeOk).trace;
      var reached := enableOk && startOk;
      var written := reached && stop.StopResolved? && stop.result.Some?;
      && CountWhere(t, IsWrite) == (if written then 1 else 0)
      && CountWhere(t, IsSuccessLog) == (if written && writeOk then 1 else 0)
      && CountWhere(t, IsErrorLog) == (if reached && !(written && writeOk) then 1 else 0)
      && CountWhere(t, IsOutcomeLog) == (if reached then 1 else 0)
  {
    var pre := Prelude(options, enableOk, startOk);
    var chain := Settled(enableOk && startOk);
    var h := HandlerActions(chain, stop, writeOk, ResolveOutputPath(options.outputPath, c).value);
    assert Run(options, c, enableOk, startOk, stop, writeOk).trace == pre + h;
    assert forall i :: 0 <= i < |pre| ==> !IsOutcomeLog(pre[i]) && !IsWrite(pre[i]);
    CountWhereNone(pre, h, IsWrite);
    CountWhereNone(pre, h, IsErrorLog);
    CountWhereNone(pre, h, IsSuccessLog);
    CountWhereNone(pre, h, IsOutcomeLog);
    HandlerCounts(chain, stop, writeOk, ResolveOutputPath(options.outputPath, c).value);
  }

  /**
   * A falsy stop result: nothing is written, exactly one error line is
   * logged, and no success line.
   */
  lemma FalsyStopResult(options: Options, c: Option<string>, writeOk: bool)
    requires ResolveOutputPath(options.outputPath, c).Ok?
    ensures var obs := Run(options, c, true, true, StopResolved(None), writeOk);
      && obs.outcome == HandlerResolved
      && CountWhere(obs.trace, IsWrite) == 0
      && CountWhere(obs.trace, IsErrorLog) == 1
      && CountWhere(obs.trace, IsSuccessLog) == 0
      && obs.trace[|obs.trace| - 1] == Error(NoProfileInformation)
  {
    RunCounts(options, c, true, true, StopResolved(None), writeOk);
  }

  /** A rejected stop is caught: one error line, no write, no success line. */
  lemma StopRejectionCaught(options: Options, c: Option<string>, writeOk: bool)
    requires ResolveOutputPath(options.outputPath, c).Ok?
    ensures var obs := Run(options, c, true, true, StopRejected, writeOk);
      && obs.outcome == HandlerResolved
      && CountWhere(obs.trace, IsWrite) == 0
      && CountWhere(obs.trace, IsErrorLog) == 1
      && CountWhere(obs.trace, IsSuccessLog) == 0
  {
    RunCounts(options, c, true, true, StopRejected, writeOk);
  }

  /**
   * A truthy stop result is written exactly once, to the resolved destination.
   * A successful write is followed by exactly one success line naming it and
   * no error line; a failed write by exactly one error line and no success
   * line. Either way the handler does not reject.
   */
  lemma ProfileWrittenOnce(options: Options, c: Option<string>, profile: Profile, writeOk: bool)
    requires ResolveOutputPath(options.outputPath, c).Ok?
    ensures var obs := Run(options, c, true, true, StopResolved(Some(profile)), writeOk);
      var path := ResolveOutputPath(options.outputPath, c).value;
      var t := obs.trace;
      && obs.outcome == HandlerResolved
      && CountWhere(t, IsWrite) == 1
      && |t| >= 2 && t[|t| - 2] == Write(path, profile.json)
      && (writeOk ==> CountWhere(t, IsSuccessLog) == 1 && CountWhere(t, IsErrorLog) == 0
                      && t[|t| - 1] == Info(WrittenTo(path)))
      && (!writeOk ==> CountWhere(t, IsSuccessLog) == 0 && CountWhere(t, IsErrorLog) == 1
                       && t[|t| - 1] == Error(WriteFailed))
  {
    RunCounts(options, c, true, true, StopResolved(Some(profile)), writeOk);
  }

  /**
   * A rejection of enable or start is awaited outside the `try`: the handler
   * rejects, stop is never posted, nothing is written and nothing is logged
   * after the start line; a rejected enable also means start is never posted.
   */
  lemma ChainRejectionEscapes(options: Options, c: Option<string>, enableOk: bool, startOk: bool, stop: StopOutcome, writeOk: bool)
    requires ResolveOutputPath(options.outputPath, c).Ok?
    requires !(enableOk && startOk)
    ensures var obs := Run(options, c, enableOk, startOk, stop, writeOk);
      && obs.outcome == HandlerRejected
      && Post(Stop) !in obs.trace
      && CountWhere(obs.trace, IsWrite) == 0
      && CountWhere(obs.trace, IsOutcomeLog) == 0
      && (!enableOk ==> Post(Start) !in obs.trace)
  {
    RunCounts(options, c, enableOk, startOk, stop, writeOk);
  }

  /**
   * Exactly one outcome line (success or error) is logged when the handler
   * reaches its `try` block, and none otherwise.
   */
  lemma ExactlyOneOutcomeLine(options: Options, c: Option<string>, enableOk: bool, startOk: bool, stop: StopOutcome, writeOk: bool)
    ensures var obs := Run(options, c, enableOk, startOk, stop, writeOk);
      CountWhere(obs.trace, IsOutcomeLog) == if obs.outcome == HandlerResolved then 1 else 0
  {
    if ResolveOutputPath(options.outputPath, c).Ok? {
      RunCounts(options, c, enableOk, startOk, stop, writeOk);
    }
  }
}
