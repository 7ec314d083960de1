/**
 * Option resolution of CPUProfileWebpackPlugin: the profile name chosen in the
 * constructor and the destination of the profile file chosen when the plugin
 * is applied to a webpack compiler.
 */
module PluginOptions {
  import opened Wrappers

  /** The profile name used when the option is undefined or null. */
  const DefaultProfileName: string := "webpack"

  /** The file name joined with webpack's `output.path` when no explicit path is given. */
  const ProfileFileName: string := "webpack.cpuprofile"

  /** The plugin's constructor options (`CPUProfileWebpackPluginOptions`). */
  datatype Options = Options(profileName: Option<string>, outputPath: Option<string>)

  /** The error `apply` throws when no destination can be found. */
  datatype ConfigError = MissingOutputPath

  /** JavaScript truthiness of a `string | undefined` value: undefined, null and "" are falsy. */
  predicate Truthy(s: Option<string>): (r: bool)
    ensures r <==> s != None && s != Some("")
  {
    s.Some? && s.value != ""
  }

  /**
   * `options.profileName ?? "webpack"`: only undefined and null are replaced;
   * any string, the empty one included, is kept as given.
   */
  function ResolveProfileName(name: Option<string>): (r: string)
    ensures name.Some? ==> r == name.value
    ensures r == DefaultProfileName <==> name.None? || name.value == DefaultProfileName
  {
    match name
    case Some(n) => n
    case None => DefaultProfileName
  }

  /**
   * `path.resolve(dir, name)` for a non-empty directory and a plain file name,
   * reduced to a join that adds one separator unless the directory already
   * ends in `/`.
   */
  function Join(dir: string, name: string): (r: string)
    ensures dir <= r
    ensures |r| > |name| && r[|r| - |name|..] == name && r[|r| - |name| - 1] == '/'
  {
    if dir != [] && dir[|dir| - 1] == '/' then dir + name else dir + "/" + name
  }

  /**
   * The destination chosen at the top of `apply`: a truthy explicit path wins;
   * otherwise webpack's truthy `output.path` joined with the fixed file name;
   * otherwise `apply` throws. A resolved destination is never empty, which is
   * what the later `outputPath!` relies on.
   */
  function ResolveOutputPath(explicit: Option<string>, compilerOutputPath: Option<string>): (r: Result<string, ConfigError>)
    ensures r.Ok? <==> Truthy(explicit) || Truthy(compilerOutputPath)
    ensures Truthy(explicit) ==> r == Ok(explicit.value)
    ensures !Truthy(explicit) && Truthy(compilerOutputPath) ==> r == Ok(Join(compilerOutputPath.value, ProfileFileName))
    ensures r.Ok? ==> r.value != ""
  {
    if Truthy(explicit) then Ok(explicit.value)
    else if Truthy(compilerOutputPath) then Ok(Join(compilerOutputPath.value, ProfileFileName))
    else Err(MissingOutputPath)
  }

  /** An explicit destination makes webpack's `output.path` irrelevant. */
  lemma ExplicitPathIgnoresCompiler(explicit: Option<string>, c1: Option<string>, c2: Option<string>)
    requires Truthy(explicit)
    ensures ResolveOutputPath(explicit, c1) == ResolveOutputPath(explicit, c2) == Ok(explicit.value)
  {
  }

  /** A derived destination lies inside webpack's output directory and names the fixed file. */
  lemma DerivedPathShape(explicit: Option<string>, dir: string)
    requires !Truthy(explicit) && dir != ""
    ensures ResolveOutputPath(explicit, Some(dir)).Ok?
    ensures var p := ResolveOutputPath(explicit, Some(dir)).value;
      dir <= p && p[|p| - |ProfileFileName|..] == ProfileFileName
  {
  }

  /** Output directory `/dist` with no explicit path gives `/dist/webpack.cpuprofile`. */
  lemma DerivedPathExample()
    ensures ResolveOutputPath(None, Some("/dist")) == Ok("/dist/webpack.cpuprofile")
    ensures ResolveOutputPath(Some(""), Some("/dist/")) == Ok("/dist/webpack.cpuprofile")
  {
    var dir, slashed := "/dist", "/dist/";
    assert dir[|dir| - 1] == 't' && slashed[|slashed| - 1] == '/';
    assert dir + "/" + ProfileFileName == slashed + ProfileFileName == "/dist/webpack.cpuprofile";
  }
}
