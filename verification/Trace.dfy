/**
 * The observable actions of one plugin instance, in the order they happen:
 * the inspector session's connection, the DevTools `Profiler.*` commands it
 * posts and how each settles, the file write and the log lines.
 */
module Trace {

  /** The three `Profiler.*` commands the plugin posts on its inspector session. */
  datatype Command = Enable | Start | Stop

  /** The payload of a truthy `Profiler.stop` result, kept as its serialized text. */
  datatype Profile = Profile(json: string)

  /** Info-level lines: the start line names the profile, the success line the file. */
  datatype InfoLine = Starting(profileName: string) | WrittenTo(path: string)

  /** What the single error line of the `done` handler reports. */
  datatype Cause = NoProfileInformation | StopFailed | WriteFailed

  datatype Action =
    | Connect                          // `session.connect()`
    | Post(command: Command)           // `session.post("Profiler.<command>")`
    | Resolved(resolved: Command)      // that command's promise resolved
    | Rejected(rejected: Command)      // that command's promise rejected
    | Write(path: string, data: string) // `writeFile(path, data)` issued
    | Info(line: InfoLine)             // `logger.info`
    | Error(cause: Cause)              // `logger.error`

  predicate IsWrite(a: Action) { a.Write? }
  predicate IsErrorLog(a: Action) { a.Error? }
  predicate IsSuccessLog(a: Action) { a.Info? && a.line.WrittenTo? }
  predicate IsOutcomeLog(a: Action) { IsErrorLog(a) || IsSuccessLog(a) }

  /** The number of actions in `t` that satisfy `p`. */
  function CountWhere(t: seq<Action>, p: Action -> bool): (n: nat)
    ensures n <= |t|
    ensures n == 0 <==> forall i :: 0 <= i < |t| ==> !p(t[i])
  {
    if t == [] then 0 else (if p(t[0]) then 1 else 0) + CountWhere(t[1..], p)
  }

  lemma {:induction false} CountWhereAppend(s: seq<Action>, t: seq<Action>, p: Action -> bool)
    ensures CountWhere(s + t, p) == CountWhere(s, p) + CountWhere(t, p)
  {
    if s == [] {
      assert s + t == t;
    } else {
      assert (s + t)[0] == s[0];
      assert (s + t)[1..] == s[1..] + t;
      CountWhereAppend(s[1..], t, p);
    }
  }

  /**
   * What must already be in the trace before `a` may happen: a command settles
   * only after it was posted; `Profiler.start` is posted only once enable has
   * resolved and `Profiler.stop` only once start has resolved; the file is
   * written only once stop has resolved, and the success line immediately
   * follows the write of the file it names.
   */
  predicate Ready(before: seq<Action>, a: Action): (r: bool)
    ensures before == [] ==> (r <==> a == Connect || a == Post(Enable) || a.Error? || (a.Info? && a.line.Starting?))
  {
    match a
    case Post(Start) => Resolved(Enable) in before
    case Post(Stop) => Resolved(Start) in before
    case Resolved(c) => Post(c) in before
    case Rejected(c) => Post(c) in before
    case Write(_, _) => Resolved(Stop) in before
    case Info(WrittenTo(p)) => before != [] && before[|before| - 1].Write? && before[|before| - 1].path == p
    case _ => true
  }

  /** Every action of `t` found its prerequisites earlier in `t`. */
  predicate Ordered(t: seq<Action>): (r: bool)
    ensures r && t != [] ==> Ready([], t[0])
    decreases |t|
  {
    t == [] || (Ordered(t[..|t| - 1]) && Ready(t[..|t| - 1], t[|t| - 1]))
  }

  lemma OrderedSnoc(t: seq<Action>, a: Action)
    ensures Ordered(t + [a]) <==> Ordered(t) && Ready(t, a)
  {
    assert (t + [a])[..|t|] == t;
  }

  /** In an ordered trace, every action found its prerequisites before it. */
  lemma {:induction false} OrderedAt(t: seq<Action>, i: nat)
    requires Ordered(t) && i < |t|
    ensures Ready(t[..i], t[i])
  {
    if i < |t| - 1 {
      var u := t[..|t| - 1];
      OrderedAt(u, i);
      assert u[..i] == t[..i] && u[i] == t[i];
    }
  }

  /**
   * In an ordered trace, `Profiler.stop` is posted only after the whole
   * enable-then-start chain has resolved.
   */
  lemma ChainResolvedBeforeStop(t: seq<Action>, i: nat)
    requires Ordered(t) && i < |t| && t[i] == Post(Stop)
    ensures Resolved(Start) in t[..i] && Post(Start) in t[..i] && Resolved(Enable) in t[..i]
  {
    OrderedAt(t, i);
    var j :| 0 <= j < i && t[j] == Resolved(Start);
    OrderedAt(t, j);
    var k :| 0 <= k < j && t[k] == Post(Start);
    OrderedAt(t, k);
    var m :| 0 <= m < k && t[m] == Resolved(Enable);
    assert t[..i][j] == t[j] && t[..i][k] == t[k] && t[..i][m] == t[m];
  }

  /** Actions none of which satisfies `p` add nothing to its count. */
  lemma CountWhereNone(s: seq<Action>, t: seq<Action>, p: Action -> bool)
    requires forall i :: 0 <= i < |s| ==> !p(s[i])
    ensures CountWhere(s + t, p) == CountWhere(t, p)
  {
    CountWhereAppend(s, t, p);
  }
}
