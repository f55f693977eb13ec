/**
 * The argument vector handed to the spawned binary. The caller's argv comes
 * first, then `--config <path>`; `cowboy` adds the command when it is truthy
 * and, when the command arguments are not empty, a `--` delimiter followed by
 * them. Both build on a copy (`argv.slice()`); here sequences are values, so
 * the caller's argv is never altered.
 */
module ArgVector {
  import opened Wrappers

  const ConfigFlag := "--config"
  const Delimiter := "--"

  /** `if (command)`: the command slot holds null or a string, and the empty string is falsy. */
  predicate CommandGiven(command: Option<string>)
  {
    command.Some? && command.value != ""
  }

  /**
   * The vector `cowboy` spawns with: argv unchanged in front, the config pair
   * right after it, the command only when truthy, and a `--` only when there
   * are command arguments to follow it.
   */
  function CowboyVector(argv: seq<string>, configPath: string, command: Option<string>, commandArgv: seq<string>): (v: seq<string>)
    ensures |v| == |argv| + 2 + (if CommandGiven(command) then 1 else 0)
                             + (if commandArgv == [] then 0 else 1 + |commandArgv|)
    ensures v[..|argv|] == argv
    ensures v[|argv|] == ConfigFlag && v[|argv| + 1] == configPath
    ensures CommandGiven(command) ==> v[|argv| + 2] == command.value
    ensures commandArgv != [] ==> v[|v| - |commandArgv| - 1] == Delimiter && v[|v| - |commandArgv|..] == commandArgv
  {
    argv + [ConfigFlag, configPath]
    + (if CommandGiven(command) then [command.value] else [])
    + (if commandArgv != [] then [Delimiter] + commandArgv else [])
  }

  /** The vector `cattle` spawns with: argv unchanged in front, then the config pair and nothing else. */
  function CattleVector(argv: seq<string>, configPath: string): (v: seq<string>)
    ensures |v| == |argv| + 2 && v[..|argv|] == argv
    ensures v[|argv|] == ConfigFlag && v[|argv| + 1] == configPath
  {
    argv + [ConfigFlag, configPath]
  }

  /** The parts of a cowboy vector, as a parser of the vector would find them. */
  datatype CowboyLine = CowboyLine(argv: seq<string>, configPath: string, command: Option<string>, commandArgv: seq<string>)

  /**
   * Reads a vector back, given how many leading entries are the caller's
   * argv: the reference reading of the layout the worker parses positionally.
   */
  function ParseCowboyVector(v: seq<string>, argvLength: nat): Option<CowboyLine>
  {
    if |v| < argvLength + 2 || v[argvLength] != ConfigFlag then None
    else
      var argv, path, tail := v[..argvLength], v[argvLength + 1], v[argvLength + 2..];
      if tail == [] then Some(CowboyLine(argv, path, None, []))
      else if tail[0] == Delimiter && |tail| >= 2 then Some(CowboyLine(argv, path, None, tail[1..]))
      else if tail[0] == "" then None
      else if |tail| == 1 then Some(CowboyLine(argv, path, Some(tail[0]), []))
      else if tail[1] == Delimiter && |tail| >= 3 then Some(CowboyLine(argv, path, Some(tail[0]), tail[2..]))
      else None
  }

  /** The command as the vector carries it: dropped when falsy. */
  function Emitted(command: Option<string>): Option<string>
  {
    if CommandGiven(command) then command else None
  }

  /**
   * Assembly is read back exactly, the command normalised by truthiness,
   * unless the command is itself "--" with command arguments after it (the
   * one layout two different calls share).
   */
  lemma ParseInvertsCowboyVector(argv: seq<string>, configPath: string, command: Option<string>, commandArgv: seq<string>)
    requires !(command == Some(Delimiter) && commandArgv != [])
    ensures ParseCowboyVector(CowboyVector(argv, configPath, command, commandArgv), |argv|)
      == Some(CowboyLine(argv, configPath, Emitted(command), commandArgv))
  {
    var v := CowboyVector(argv, configPath, command, commandArgv);
    var tail := v[|argv| + 2..];
    assert v[..|argv|] == argv;
    assert tail == (if CommandGiven(command) then [command.value] else [])
      + (if commandArgv != [] then [Delimiter] + commandArgv else []);
    if CommandGiven(command) && commandArgv != [] {
      assert tail[2..] == commandArgv;
    } else if commandArgv != [] {
      assert tail[1..] == commandArgv;
    }
  }

  /** Conversely, whatever the parser accepts is exactly the vector assembled from what it read. */
  lemma ParsedVectorsAreAssembled(v: seq<string>, argvLength: nat)
    requires ParseCowboyVector(v, argvLength).Some?
    ensures var l := ParseCowboyVector(v, argvLength).value;
      CowboyVector(l.argv, l.configPath, l.command, l.commandArgv) == v && |l.argv| == argvLength
  {
    var l := ParseCowboyVector(v, argvLength).value;
    var tail := v[argvLength + 2..];
    assert v == v[..argvLength] + [v[argvLength], v[argvLength + 1]] + tail;
    if tail != [] && !(tail[0] == Delimiter && |tail| >= 2) && |tail| >= 3 {
      assert tail == [tail[0]] + [tail[1]] + tail[2..];
    } else if tail != [] && tail[0] == Delimiter && |tail| >= 2 {
      assert tail == [tail[0]] + tail[1..];
    }
  }

  /** The cattle vector is the cowboy vector with no command and no command arguments. */
  lemma CattleVectorIsBareCowboyVector(argv: seq<string>, configPath: string)
    ensures CattleVector(argv, configPath) == CowboyVector(argv, configPath, None, [])
    ensures ParseCowboyVector(CattleVector(argv, configPath), |argv|) == Some(CowboyLine(argv, configPath, None, []))
  {
    ParseInvertsCowboyVector(argv, configPath, None, []);
  }

  /** The boundary cases: an empty or null command and empty command arguments emit no token at all. */
  lemma CowboyVectorBoundaries(argv: seq<string>, configPath: string, commandArgv: seq<string>)
    ensures CowboyVector(argv, configPath, None, []) == argv + [ConfigFlag, configPath]
    ensures CowboyVector(argv, configPath, Some(""), commandArgv) == CowboyVector(argv, configPath, None, commandArgv)
    ensures CowboyVector([], configPath, None, []) == [ConfigFlag, configPath]
    ensures CowboyVector(["-x"], configPath, Some("ping"), ["a", "b"]) == ["-x", ConfigFlag, configPath, "ping", Delimiter, "a", "b"]
    ensures CowboyVector([], configPath, Some("ping"), []) == [ConfigFlag, configPath, "ping"]
  {
  }

  /** Builds the cowboy vector as `cowboy` does: copy argv, then push. */
  method AssembleCowboyArgs(argv: seq<string>, configPath: string, command: Option<string>, commandArgv: seq<string>)
    returns (args: seq<string>)
    ensures args == CowboyVector(argv, configPath, command, commandArgv)
  {
    // Start with the cowboy argv
    args := argv;
    // Push the custom config
    args := args + [ConfigFlag, configPath];
    // Push the command if specified
    if CommandGiven(command) {
      args := args + [command.value];
    }
    // Push the command args if specified
    if commandArgv != [] {
      args := args + [Delimiter];
      args := args + commandArgv;
    }
  }

  /** Builds the cattle vector as `cattle` does: copy argv, then push the config pair. */
  method AssembleCattleArgs(argv: seq<string>, configPath: string) returns (args: seq<string>)
    ensures args == CattleVector(argv, configPath)
  {
    args := argv;
    args := args + [ConfigFlag, configPath];
  }
}
