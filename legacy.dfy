/** The older front end: `config` and `build` without mode, export or reset. */
module Legacy {
  import opened Paths
  import opened CMakeProtocol

  /** The argument vector the older `config` hands to CMake. */
  function ConfigureCommand(params: seq<string>, src: Path, build: Path): (cmd: seq<string>)
    ensures |cmd| == 5 + |params|
    ensures cmd[..5] == ["cmake", "-S", Render(src), "-B", Render(build)]
    ensures cmd[5..] == params
    // the front end itself adds no build-type or export token; any such token is a passthrough parameter
    ensures forall i :: 0 <= i < |cmd| && (IsBuildTypeToken(cmd[i]) || cmd[i] == ExportCompileCommands) ==> 5 <= i
  {
    var head := ["cmake", "-S", Render(src), "-B", Render(build)];
    assert forall i :: 0 <= i < 5 ==> !IsBuildTypeToken(head[i]) && head[i] != ExportCompileCommands by {
      FlagsAreDistinct(Render(src));
      FlagsAreDistinct(Render(build));
    }
    assert (head + params)[..5] == head;
    head + params
  }

  /** The older `config`, with the command grown by `+=`. */
  method Config(params: seq<string>, src: Path, build: Path) returns (command: seq<string>)
    ensures command == ConfigureCommand(params, src, build)
  {
    command := ["cmake", "-S", Render(src), "-B", Render(build)];
    if params != [] {
      command := command + params;
    }
  }

  /** The argument vector the older `build` hands to CMake. */
  function BuildCommand(target: string, build: Path): (cmd: seq<string>)
    ensures |cmd| == 3 || |cmd| == 5
    ensures cmd[..3] == ["cmake", "--build", Render(build)]
    ensures cmd[3..] == if target != "all" then ["-t", target] else []
  {
    ["cmake", "--build", Render(build)] + (if target != "all" then ["-t", target] else [])
  }

  /** The older `build`, with the command grown by `+=`. */
  method Build(target: string, build: Path) returns (command: seq<string>)
    ensures command == BuildCommand(target, build)
  {
    command := ["cmake", "--build", Render(build)];
    if target != "all" {
      command := command + ["-t", target];
    }
  }
}
