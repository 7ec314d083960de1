# CPUProfileWebpackPlugin, modelled in Dafny

`CPUProfileWebpackPlugin` is a webpack plugin. It records a V8 CPU profile of
a whole webpack build and writes it to a `.cpuprofile` file. Its constructor
connects a Node `inspector` session and picks the profile name. Its `apply`
method does three things:

- picks the destination file;
- logs a start line;
- posts `Profiler.enable` with `Profiler.start` chained on it.

It also registers a `done` handler. That handler awaits the chain, posts
`Profiler.stop`, checks the result, writes the file and logs the outcome.

The model has five modules:

- `Wrappers`: `Option` (JavaScript `undefined`/`null` as `None`) and `Result`.
- `PluginOptions`: the pure part. It covers the `??` default of the profile
  name, JavaScript truthiness of an optional string, joining webpack's
  `output.path` with `webpack.cpuprofile`, and the choice of destination,
  including the error `apply` throws.
- `Trace`: what the plugin does, as a sequence of actions:
  - the session connection;
  - each `Profiler.*` command posted, and how it settled;
  - the file write;
  - the info and error lines.

  `Ordered` says that every action found its prerequisites earlier in the
  trace. For example, start is posted only after enable resolved, and stop
  only after start resolved.
- `Coordinator`: the plugin as a class, `Plugin`. Its constructor, `Apply`
  and `Done` append to `trace` and advance `chain` (the state of the
  enable-then-start promise) and `phase`. Its invariant `Valid` includes
  `Ordered(trace)`. The outcomes of enable, start, stop and the file write are
  parameters of `Done`. `Run` is the same build as a function: construct,
  apply, fire `done` once. `RunBuild` drives a `Plugin` through a build and
  is proved to observe exactly `Run`.
- `Properties`: lemmas over `Run` for every combination of outcomes. They
  cover ordering, destinations, fail-fast configuration errors and "exactly
  one outcome line".

The model follows the code at three points where a stricter design might differ:

- The inspector session is connected in the constructor, before the
  destination is checked. A configuration error therefore leaves a connected
  session behind.
- A rejection of `Profiler.enable` or `Profiler.start` is awaited outside the
  handler's `try`. It leaves the `done` handler instead of being logged.
- The error line for a failed write adds nothing of its own to the host's
  error text. The model's `WriteFailed` therefore carries no path.

## Model

| member | source | states |
|---|---|---|
| `PluginOptions.Truthy` | src/CPUProfileWebpackPlugin.ts:34-37 | the `!outputPath` / `!compilationOutputPath` test: an optional string is truthy exactly when it is neither undefined/null nor the empty string |
| `PluginOptions.ResolveProfileName` | src/CPUProfileWebpackPlugin.ts:21 | a given name, even the empty string, is kept; the result is `"webpack"` exactly when the option is undefined/null or is itself `"webpack"` |
| `PluginOptions.Join` | src/CPUProfileWebpackPlugin.ts:44 | the joined path starts with the directory and ends with `/` followed by the file name |
| `PluginOptions.ResolveOutputPath` | src/CPUProfileWebpackPlugin.ts:33-45 | a destination exists exactly when the explicit path or webpack's `output.path` is truthy; a truthy explicit path wins; otherwise `output.path` joined with `webpack.cpuprofile`; a resolved destination is never empty |
| `PluginOptions.ExplicitPathIgnoresCompiler` | src/CPUProfileWebpackPlugin.ts:33-34 | with a truthy explicit path, webpack's `output.path` does not affect the destination |
| `PluginOptions.DerivedPathShape` | src/CPUProfileWebpackPlugin.ts:34-44 | without a truthy explicit path, a non-empty `output.path` yields a destination inside that directory ending in `webpack.cpuprofile` |
| `PluginOptions.DerivedPathExample` | src/CPUProfileWebpackPlugin.ts:44 | `/dist` and `/dist/` both give `/dist/webpack.cpuprofile`; an empty explicit path falls back to `output.path` |
| `Trace.Ready` | src/CPUProfileWebpackPlugin.ts:70-91 | the prerequisite of each action; with nothing before it, only the connection, `Profiler.enable`, the start line or an error line may happen |
| `Trace.Ordered` | src/CPUProfileWebpackPlugin.ts:70-91 | every action found its prerequisite earlier; an ordered trace cannot begin with start, stop, a settlement, a write or a success line |
| `Trace.CountWhereAppend` | src/CPUProfileWebpackPlugin.ts:78-90 | counts of log lines and writes add up over consecutive parts of a trace |
| `Trace.OrderedSnoc` | src/CPUProfileWebpackPlugin.ts:70-90 | a trace stays ordered when the appended action's prerequisites are already in it |
| `Trace.ChainResolvedBeforeStop` | src/CPUProfileWebpackPlugin.ts:70-80 | in an ordered trace, before each `Profiler.stop` post, enable resolved, start was posted and start resolved |
| `Coordinator.SettledChain` | src/CPUProfileWebpackPlugin.ts:70-76 | after the handler's `await` a posted chain is settled; it has succeeded exactly when it had already succeeded or was pending and both enable and start resolve |
| `Coordinator.SettleActions` | src/CPUProfileWebpackPlugin.ts:70-72 | while the chain settles, start is posted exactly when the chain was pending and enable resolved, start resolves exactly when both succeed, and nothing is written, logged as an outcome, or stopped |
| `Coordinator.HandlerActions` | src/CPUProfileWebpackPlugin.ts:76-90 | the handler does something after its `await` exactly when the chain succeeded, and then begins with the stop post; any write goes to the destination and carries the payload of a truthy stop result |
| `Coordinator.Run` | src/CPUProfileWebpackPlugin.ts:18-91 | a build's trace begins with the connection; it ends in a configuration error exactly when no destination resolves, the handler rejects exactly when a destination resolves but enable or start rejects, and stop is posted exactly when the handler resolves |
| `Coordinator.Plugin.StartAfterEnable` | src/CPUProfileWebpackPlugin.ts:70-72 | once enable resolved, start is posted and then settles, keeping the trace ordered |
| `Coordinator.Plugin.constructor` | src/CPUProfileWebpackPlugin.ts:18-22 | the session is connected first (trace `[Connect]`); the profile name is the defaulted option; nothing is resolved or registered yet |
| `Coordinator.Plugin.Apply` | src/CPUProfileWebpackPlugin.ts:24-75 | without a destination: the error is returned, the trace is unchanged, no handler is registered and no chain exists; otherwise the destination is stored, the start line then `Profiler.enable` are appended, the chain is pending and the handler is registered |
| `Coordinator.Plugin.Done` | src/CPUProfileWebpackPlugin.ts:75-91 | the chain settles at most once; the trace grows by the settling actions and then the handler's actions; the handler rejects exactly when the chain was rejected; the invariant, including ordering, is kept on every firing |
| `Coordinator.Plugin.AwaitChain` | src/CPUProfileWebpackPlugin.ts:70-76 | a pending chain settles: start is posted only after enable resolved; the chain succeeds only if both resolved; a settled chain is left alone |
| `Coordinator.Plugin.StopAndWrite` | src/CPUProfileWebpackPlugin.ts:78-90 | after the chain resolved: stop is posted; a rejected or falsy stop gives one error line; a truthy one is written, then logged; the phase records the outcome |
| `Coordinator.Plugin.LogStopFailure` | src/CPUProfileWebpackPlugin.ts:80-89 | a stop that rejected or resolved falsy is followed by exactly one error line, and the phase becomes failed |
| `Coordinator.Plugin.WriteProfile` | src/CPUProfileWebpackPlugin.ts:86-89 | the payload is written to the destination, followed by the success line naming it or by one error line |
| `Coordinator.RunBuild` | src/CPUProfileWebpackPlugin.ts:18-91 | constructing the plugin, applying it and firing `done` once observes exactly the trace and outcome of `Run` |
| `Properties.PreludeOrdered` | src/CPUProfileWebpackPlugin.ts:48-72 | the connection, start line, enable and settling chain form an ordered trace, which contains start's resolution when both calls succeed |
| `Properties.HandlerOrdered` | src/CPUProfileWebpackPlugin.ts:78-90 | the handler's actions keep an ordered trace ordered |
| `Properties.ErrorAfterStopOrdered` | src/CPUProfileWebpackPlugin.ts:80-89 | stop settling and an error line after a posted stop keep the trace ordered |
| `Properties.WriteOrdered` | src/CPUProfileWebpackPlugin.ts:86-87 | the write after a resolved stop, and the line after it, keep the trace ordered |
| `Properties.RunOrdered` | src/CPUProfileWebpackPlugin.ts:70-91 | every build's trace is ordered |
| `Properties.StopOnlyAfterChain` | src/CPUProfileWebpackPlugin.ts:70-80 | a stop post is preceded by enable's resolution, start's post and start's resolution; it happens only if a destination exists and enable and start both resolved |
| `Properties.MissingPathFailsFast` | src/CPUProfileWebpackPlugin.ts:18-48 | with neither a truthy explicit path nor `output.path`, the build's trace is only the connection and `apply` throws: no start line, no enable, no handler |
| `Properties.WritesNameDestination` | src/CPUProfileWebpackPlugin.ts:33-87 | every write and every success line names the destination `apply` resolved |
| `Properties.ExplicitPathIsOnlyDestination` | src/CPUProfileWebpackPlugin.ts:33-87 | with a truthy explicit path, webpack's `output.path` does not change the build, and every write and success line names the explicit path |
| `Properties.StartLineNamesProfile` | src/CPUProfileWebpackPlugin.ts:19-50 | after a successful apply, the trace begins with the connection, the start line naming the resolved profile name, then `Profiler.enable` |
| `Properties.HandlerCounts` | src/CPUProfileWebpackPlugin.ts:78-90 | the handler's actions hold one write iff stop gave a truthy result, one success line iff that write succeeded, and otherwise one error line |
| `Properties.RunCounts` | src/CPUProfileWebpackPlugin.ts:75-91 | over a whole build: writes, success lines, error lines and outcome lines, as functions of the four outcomes |
| `Properties.FalsyStopResult` | src/CPUProfileWebpackPlugin.ts:82-89 | a falsy stop result: no write, exactly one error line (the last action), no success line, and the handler resolves |
| `Properties.StopRejectionCaught` | src/CPUProfileWebpackPlugin.ts:78-90 | a rejected stop: no write, exactly one error line, no success line, and the handler resolves |
| `Properties.ProfileWrittenOnce` | src/CPUProfileWebpackPlugin.ts:86-89 | a truthy stop result: exactly one write, to the destination; on success it is followed by exactly one success line naming it and no error line; on failure by exactly one error line and no success line; the handler resolves |
| `Properties.ChainRejectionEscapes` | src/CPUProfileWebpackPlugin.ts:76-78 | if enable or start rejects, the handler rejects; stop is never posted; nothing is written or logged as an outcome; a rejected enable also means start is never posted |
| `Properties.ExactlyOneOutcomeLine` | src/CPUProfileWebpackPlugin.ts:75-91 | a build logs exactly one outcome line (success or error) when its handler resolves, and none when apply threw or the handler rejected |

## Left out

- `inspector.Session` and the DevTools protocol (lines 19-20, 49-68) are not modelled. Connecting, posting and the `promisify` bindings become trace actions. How each command settles is a parameter. A failing `session.connect()` is not modelled.
- The profile payload and `JSON.stringify(profile.profile)` (line 86) are kept abstract. The payload is its serialized text (`Profile.json`), and the write carries that text unchanged.
- `path.resolve` (line 44) is reduced to `Join`, which adds one separator unless the directory already ends in `/`. Working-directory resolution and normalisation of `.`/`..` are not modelled.
- Webpack is reduced to a few parameters and one phase. Compiler typing, `outputFileSystem`, `getInfrastructureLogger` and `hooks.done.tapPromise` (lines 25-31, 75) are not modelled. A registered handler is the `Registered` phase. A missing `output` and a missing `output.path` are one `None`.
- Asynchrony is reduced to one sequential trace. In the code the chain may settle any time after `apply`. In the model it settles at the handler's `await` at the latest. Only the chain's own actions can happen in that interval, so the order of the trace is the same.
- Log wording is reduced to structured lines: the start line carries the profile name, and the success line carries the path. An error line carries only which failure it reports. Formatting an error object (`${e}`) is up to the host.
- `Coordinator.Plugin.constructor` keeps a copy of the options. The code keeps the caller's options object by reference (line 18). It reads `profileName` in the constructor (line 21) but `outputPath` only in `apply` (line 33). Changing the options object between construction and `apply` therefore changes the destination in the code but not in the model.
- An early rejection of the enable-then-start chain is not modelled as an event of its own. Nothing handles `profileStartPromise` until the `done` handler awaits it (lines 70-76). A chain that rejects before `done` fires is first an unhandled promise rejection in the host runtime, and what the runtime then does (a warning or ending the process) is not modelled.
- `Coordinator.Plugin.Apply` requires a freshly constructed plugin, so a second `apply` on the same instance is not modelled. The code has no guard: a second `apply` would post `Profiler.enable` again and register a second `done` handler.
- Option values that are not strings are not modelled, because the options interface types both fields as optional strings.
