/**
 * One `cowboy(...)` or `cattle(...)` call from the arguments to the spawn:
 * resolve the optional arguments, open a temporary file, write the config to
 * it, then spawn the binary with the assembled vector. A failure of either
 * file step goes to the resolved callback and nothing is spawned. The file
 * system and the spawn are outside the model: the two file steps enter as
 * their outcomes, and the spawn is the answer.
 */
module Invocation {
  import opened Wrappers
  import opened JsValues
  import opened Overloads
  import opened ArgVector

  /** The error a file step hands its callback. */
  datatype IoError = IoError(code: nat)

  /** What `temp.open` hands its callback: the new file's path, or an error. */
  datatype TempFile = Opened(path: string) | OpenFailed(err: IoError)

  /** How a call ends on the orchestrator's side. */
  datatype Outcome =
    | CallbackError(callback: Option<nat>, err: IoError)        // `return callback(err)`; None: the no-op
    | Spawn(binary: Value, args: seq<string>, callback: Option<nat>)

  /**
   * A `cowboy(...)` call, given what `temp.open` and `fs.writeFile` report
   * (`written` is the write's error, if any) and the cowboy path stored when
   * the write completes.
   */
  function Cowboy(args: seq<Value>, temp: TempFile, written: Option<IoError>, cowboyPath: Value): (o: Outcome)
    ensures o.Spawn? <==> temp.Opened? && written.None?
    ensures o.callback == ResolveCowboy(args).0.callback
    ensures o.CallbackError? ==> o.err == (if temp.OpenFailed? then temp.err else written.value)
  {
    var p := ResolveCowboy(args).0;
    match temp
    case OpenFailed(err) => CallbackError(p.callback, err)
    case Opened(path) =>
      if written.Some? then CallbackError(p.callback, written.value)
      else Spawn(cowboyPath, CowboyVector(p.argv, path, p.command, p.commandArgv), p.callback)
  }

  /** A `cattle(...)` call, likewise. */
  function Cattle(args: seq<Value>, temp: TempFile, written: Option<IoError>, cattlePath: Value): (o: Outcome)
    ensures o.Spawn? <==> temp.Opened? && written.None?
    ensures o.callback == ResolveCattle(args).0.callback
    ensures o.CallbackError? ==> o.err == (if temp.OpenFailed? then temp.err else written.value)
  {
    var p := ResolveCattle(args).0;
    match temp
    case OpenFailed(err) => CallbackError(p.callback, err)
    case Opened(path) =>
      if written.Some? then CallbackError(p.callback, written.value)
      else Spawn(cattlePath, CattleVector(p.argv, path), p.callback)
  }

  /**
   * `cowboy` spawns exactly when both file steps succeed, with the vector
   * assembled from the resolved argv, command and command args around the
   * config pair naming the written file; on a failure the first error goes to
   * the resolved callback instead.
   */
  lemma CowboySpawnsOnlyWithConfig(args: seq<Value>, temp: TempFile, written: Option<IoError>, cowboyPath: Value)
    ensures var o := Cowboy(args, temp, written, cowboyPath);
      var p := ResolveCowboy(args).0;
      && (o.Spawn? <==> temp.Opened? && written.None?)
      && (o.Spawn? ==>
            && o.binary == cowboyPath && o.callback == p.callback
            && o.args == CowboyVector(p.argv, temp.path, p.command, p.commandArgv)
            && o.args[..|p.argv|] == p.argv
            && o.args[|p.argv|] == ConfigFlag && o.args[|p.argv| + 1] == temp.path
            && ParseCowboyVector(o.args, |p.argv|).Some?)
      && (o.CallbackError? ==>
            && o.callback == p.callback
            && o.err == (if temp.OpenFailed? then temp.err else written.value))
  {
    var o := Cowboy(args, temp, written, cowboyPath);
    var p := ResolveCowboy(args).0;
    if o.Spawn? {
      if p.command == Some(Delimiter) && p.commandArgv != [] {
        assert ParseCowboyVector(o.args, |p.argv|) == Some(CowboyLine(p.argv, temp.path, None, [Delimiter] + p.commandArgv));
      } else {
        ParseInvertsCowboyVector(p.argv, temp.path, p.command, p.commandArgv);
      }
    }
  }

  /** `cattle` spawns exactly when both file steps succeed, and its vector is argv followed by the config pair. */
  lemma CattleSpawnsOnlyWithConfig(args: seq<Value>, temp: TempFile, written: Option<IoError>, cattlePath: Value)
    ensures var o := Cattle(args, temp, written, cattlePath);
      var p := ResolveCattle(args).0;
      && (o.Spawn? <==> temp.Opened? && written.None?)
      && (o.Spawn? ==>
            && o.binary == cattlePath && o.callback == p.callback
            && o.args == p.argv + [ConfigFlag, temp.path])
      && (o.CallbackError? ==>
            && o.callback == p.callback
            && o.err == (if temp.OpenFailed? then temp.err else written.value))
  {
  }
}
