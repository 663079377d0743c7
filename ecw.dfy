/** `ecw`: the CMake wrapper's `config` and `build` subcommands, as argument vectors and a guarded reset. */
module Ecw {
  import opened Paths
  import opened FileSystem
  import opened CMakeProtocol

  datatype Option<T> = None | Some(value: T)

  /** `BuildMode`, a string enumeration whose values are the letters accepted by `--mode`. */
  datatype BuildMode = Debug | Release | ReleaseWithDebug | MinSizeRel

  /** The enumeration value of a mode: the letter written after `--mode`. */
  function Letter(m: BuildMode): (c: char)
    ensures FromLetter(c) == Some(m)
  {
    match m
    case Debug => 'd'
    case Release => 'r'
    case ReleaseWithDebug => 'w'
    case MinSizeRel => 's'
  }

  /** `BuildMode(c)`: the mode whose value is `c`, if any. */
  function FromLetter(c: char): (r: Option<BuildMode>)
    ensures r.None? <==> c !in "drws"
  {
    if c == 'd' then Some(Debug)
    else if c == 'r' then Some(Release)
    else if c == 'w' then Some(ReleaseWithDebug)
    else if c == 's' then Some(MinSizeRel)
    else None
  }

  /** Every letter that names a mode is that mode's letter. */
  lemma FromLetterInvertsLetter(c: char)
    ensures FromLetter(c).Some? ==> Letter(FromLetter(c).value) == c
  {
  }

  /** `BuildMode.to_param`: the `CMAKE_BUILD_TYPE` value of a mode. */
  function ToParam(m: BuildMode): (r: string)
    ensures r == "Release" <==> m == Release
    ensures r == "RelWithDebInfo" <==> m == ReleaseWithDebug
    ensures r == "MinSizeRel" <==> m == MinSizeRel
    ensures r == "Debug" <==> m == Debug
  {
    match m
    case Release => "Release"
    case ReleaseWithDebug => "RelWithDebInfo"
    case MinSizeRel => "MinSizeRel"
    // the fall-through after the if/elif chain, reached only by `debug`
    case _ => "Debug"
  }

  /** The cache definition for a mode; it carries exactly that mode's value. */
  function BuildTypeToken(m: BuildMode): (t: string)
    ensures IsBuildTypeToken(t) && t[|BuildTypePrefix|..] == ToParam(m)
  {
    BuildTypePrefix + ToParam(m)
  }

  /** Distinct modes give distinct build-type tokens. */
  lemma BuildTypeTokenInjective(m: BuildMode, n: BuildMode)
    ensures BuildTypeToken(m) == BuildTypeToken(n) <==> m == n
  {
    if BuildTypeToken(m) == BuildTypeToken(n) {
      assert ToParam(m) == BuildTypeToken(m)[|BuildTypePrefix|..] == ToParam(n);
    }
  }

  /** The message `config` prints when the reset would remove the source root. */
  const UnsafeResetMessage: string := "Error: Build root contains source root; cannot remove."

  /** The argument vector `config` hands to CMake. */
  function ConfigureCommand(params: seq<string>, src: Path, build: Path, mode: Option<BuildMode>, exportCc: bool): (cmd: seq<string>)
    ensures |cmd| == 5 + (if mode.Some? then 1 else 0) + (if exportCc then 1 else 0) + |params|
    ensures cmd[..5] == ["cmake", "-S", Render(src), "-B", Render(build)]
    ensures mode.Some? ==> cmd[5] == BuildTypeToken(mode.value)
    ensures exportCc ==> cmd[|cmd| - |params| - 1] == ExportCompileCommands
    ensures cmd[|cmd| - |params|..] == params
    // among the tokens the wrapper adds itself, the build-type token is at index 5 exactly when a mode
    // is given, and the export token is last exactly when it is asked for
    ensures forall i :: 0 <= i < |cmd| - |params| ==> (IsBuildTypeToken(cmd[i]) <==> mode.Some? && i == 5)
    ensures forall i :: 0 <= i < |cmd| - |params| ==> (cmd[i] == ExportCompileCommands <==> exportCc && i == |cmd| - |params| - 1)
  {
    var head := ["cmake", "-S", Render(src), "-B", Render(build)];
    var modeTokens := if mode.Some? then [BuildTypeToken(mode.value)] else [];
    var exportTokens := if exportCc then [ExportCompileCommands] else [];
    var synthesized := head + modeTokens + exportTokens;
    assert forall i :: 0 <= i < |synthesized| ==> (IsBuildTypeToken(synthesized[i]) <==> mode.Some? && i == 5) by {
      FlagsAreDistinct(Render(src));
      FlagsAreDistinct(Render(build));
      FlagsAreDistinct(ExportCompileCommands);
    }
    assert forall i :: 0 <= i < |synthesized| ==> (synthesized[i] == ExportCompileCommands <==> exportCc && i == |synthesized| - 1) by {
      FlagsAreDistinct(Render(src));
      FlagsAreDistinct(Render(build));
      if mode.Some? {
        FlagsAreDistinct(BuildTypeToken(mode.value));
      }
    }
    assert (synthesized + params)[..|synthesized|] == synthesized;
    synthesized + params
  }

  /** What one `config` invocation does: abort with a message, or run a command on a (possibly reset) filesystem. */
  datatype Outcome =
    | Aborted(message: string)
    | Run(command: seq<string>, quiet: bool, fs: Fs)

  /** Reference definition of `config`: the guard, the optional reset, the command. */
  function ConfigureOutcome(params: seq<string>, src: Path, build: Path, mode: Option<BuildMode>,
                            exportCc: bool, quiet: bool, reset: bool, fs: Fs): (out: Outcome)
    ensures out.Aborted? <==> reset && IsProperAncestor(build, src)
    ensures out.Aborted? ==> out.message == UnsafeResetMessage
    ensures out.Run? ==> out.command == ConfigureCommand(params, src, build, mode, exportCc) && out.quiet == quiet
    ensures out.Run? ==> out.fs == if reset && IsDir(fs, build) then RemoveTree(fs, build) else fs
  {
    if reset && IsProperAncestor(build, src) then
      Aborted(UnsafeResetMessage)
    else
      var fs' := if reset && IsDir(fs, build) then RemoveTree(fs, build) else fs;
      Run(ConfigureCommand(params, src, build, mode, exportCc), quiet, fs')
  }

  /** `config`, step by step: the reset guard, `rmtree`, then the command grown by `+=`. */
  method Config(params: seq<string>, src: Path, build: Path, mode: Option<BuildMode>,
                exportCc: bool, quiet: bool, reset: bool, fs: Fs) returns (out: Outcome)
    ensures out == ConfigureOutcome(params, src, build, mode, exportCc, quiet, reset, fs)
  {
    var tree := fs;
    if reset {
      ParentsAreProperAncestors(build, src);
      if build in Parents(src) {
        return Aborted(UnsafeResetMessage);
      } else if IsDir(tree, build) {
        tree := RemoveTree(tree, build);
      }
    }
    var command := ["cmake", "-S", Render(src), "-B", Render(build)];
    if mode.Some? {
      command := command + [BuildTypeToken(mode.value)];
    }
    if exportCc {
      command := command + [ExportCompileCommands];
    }
    if params != [] {
      command := command + params;
    }
    out := Run(command, quiet, tree);
  }

  /** With `--reset`, `config` aborts exactly when the build root is a proper ancestor of the source root. */
  lemma ResetGuard(params: seq<string>, src: Path, build: Path, mode: Option<BuildMode>,
                   exportCc: bool, quiet: bool, reset: bool, fs: Fs)
    ensures var out := ConfigureOutcome(params, src, build, mode, exportCc, quiet, reset, fs);
      out.Aborted? <==> reset && build in Parents(src)
    ensures var out := ConfigureOutcome(params, src, build, mode, exportCc, quiet, reset, fs);
      out.Aborted? ==> out.message == UnsafeResetMessage
  {
    ParentsAreProperAncestors(build, src);
  }

  /** Without `--reset`, the filesystem is left as it is. */
  lemma NoResetKeepsFilesystem(params: seq<string>, src: Path, build: Path, mode: Option<BuildMode>,
                               exportCc: bool, quiet: bool, fs: Fs)
    ensures ConfigureOutcome(params, src, build, mode, exportCc, quiet, false, fs)
         == Run(ConfigureCommand(params, src, build, mode, exportCc), quiet, fs)
  {
  }

  /** A reset that passes the guard removes an existing build directory's whole subtree and nothing else. */
  lemma ResetRemovesBuildTree(params: seq<string>, src: Path, build: Path, mode: Option<BuildMode>,
                              exportCc: bool, quiet: bool, fs: Fs)
    requires !IsProperAncestor(build, src)
    ensures var out := ConfigureOutcome(params, src, build, mode, exportCc, quiet, true, fs);
      && out.Run?
      && out.command == ConfigureCommand(params, src, build, mode, exportCc)
      && (IsDir(fs, build) ==> forall q :: q in fs ==> (q in out.fs <==> !IsUnder(q, build)))
      && (!IsDir(fs, build) ==> out.fs == fs)
      && out.fs.Keys <= fs.Keys
      && forall q :: q in out.fs ==> out.fs[q] == fs[q]
  {
  }

  /** When the build root is not the source root, a reset never removes the source root or any of its ancestors. */
  lemma ResetSparesSourceRoot(params: seq<string>, src: Path, build: Path, mode: Option<BuildMode>,
                              exportCc: bool, quiet: bool, fs: Fs, a: Path)
    requires build != src
    requires IsUnder(src, a) && a in fs
    ensures var out := ConfigureOutcome(params, src, build, mode, exportCc, quiet, true, fs);
      out.Run? ==> a in out.fs && out.fs[a] == fs[a]
  {
    AncestorOfSourceUnderBuild(src, a, build);
  }

  /** An ancestor-or-self of the source root lies under the build root only if the build root is the source root or above it. */
  lemma AncestorOfSourceUnderBuild(src: Path, a: Path, build: Path)
    requires IsUnder(src, a) && build != src
    ensures IsUnder(a, build) ==> IsProperAncestor(build, src)
  {
    if IsUnder(a, build) {
      UnderTransitive(src, a, build);
    }
  }

  /** The guard is strict: a reset with the build root equal to the source root passes it and removes the whole source tree. */
  lemma ResetWithBuildEqualToSourceRemovesSource(params: seq<string>, src: Path, mode: Option<BuildMode>,
                                                 exportCc: bool, quiet: bool, fs: Fs)
    requires IsDir(fs, src)
    ensures var out := ConfigureOutcome(params, src, src, mode, exportCc, quiet, true, fs);
      out.Run? && forall q :: IsUnder(q, src) ==> q !in out.fs
  {
  }

  /** A reset keeps the filesystem a tree. */
  lemma ConfigureKeepsWellFormed(params: seq<string>, src: Path, build: Path, mode: Option<BuildMode>,
                                 exportCc: bool, quiet: bool, reset: bool, fs: Fs)
    requires WellFormed(fs)
    ensures var out := ConfigureOutcome(params, src, build, mode, exportCc, quiet, reset, fs);
      out.Run? ==> WellFormed(out.fs)
  {
    RemoveTreeKeepsWellFormed(fs, build);
  }

  /** The configure command names the directories unambiguously: equal commands mean equal source and build roots. */
  lemma ConfigureCommandDeterminesRoots(params: seq<string>, src: Path, build: Path, mode: Option<BuildMode>, exportCc: bool,
                                        params': seq<string>, src': Path, build': Path, mode': Option<BuildMode>, exportCc': bool)
    requires ValidPath(src) && ValidPath(build) && ValidPath(src') && ValidPath(build')
    requires ConfigureCommand(params, src, build, mode, exportCc) == ConfigureCommand(params', src', build', mode', exportCc')
    ensures src == src' && build == build'
  {
    var cmd := ConfigureCommand(params, src, build, mode, exportCc);
    assert cmd[2] == Render(src) && cmd[2] == Render(src') by {
      assert cmd[..5][2] == cmd[2];
    }
    assert cmd[4] == Render(build) && cmd[4] == Render(build') by {
      assert cmd[..5][4] == cmd[4];
    }
    RenderInjective(src, src');
    RenderInjective(build, build');
  }

  /** Passthrough parameters are opaque: one that sets the build type yields the same command as `--mode`. */
  lemma PassthroughCanMimicMode(src: Path, build: Path, m: BuildMode)
    ensures ConfigureCommand([], src, build, Some(m), false) == ConfigureCommand([BuildTypeToken(m)], src, build, None, false)
  {
  }

  /** `configure -S . -B build -M r -E` run in `/repo`. */
  lemma ConfigureExample(fs: Fs)
    ensures ConfigureOutcome([], ["repo"], ["repo", "build"], Some(Release), true, false, false, fs)
         == Run(["cmake", "-S", "/repo", "-B", "/repo/build",
                 "-DCMAKE_BUILD_TYPE=Release", "-DCMAKE_EXPORT_COMPILE_COMMANDS=1"], false, fs)
  {
    assert Render(["repo"]) == "/repo";
    assert Render(["repo", "build"]) == "/repo/build";
    assert BuildTypeToken(Release) == "-DCMAKE_BUILD_TYPE=Release";
  }

  /** `configure -B /repo -S /repo/src -R` aborts. */
  lemma UnsafeResetExample(fs: Fs, mode: Option<BuildMode>)
    ensures ConfigureOutcome([], ["repo", "src"], ["repo"], mode, false, false, true, fs) == Aborted(UnsafeResetMessage)
  {
  }

  /** The argument vector `build` hands to CMake. */
  function BuildCommand(target: string, build: Path): (cmd: seq<string>)
    ensures |cmd| == if target == "all" then 3 else 5
    ensures cmd[..3] == ["cmake", "--build", Render(build)]
    ensures target != "all" ==> cmd[3] == "-t" && cmd[4] == target
  {
    ["cmake", "--build", Render(build)] + (if target != "all" then ["-t", target] else [])
  }

  /** `build`, with the command grown by `+=`. */
  method Build(target: string, build: Path) returns (command: seq<string>)
    ensures command == BuildCommand(target, build)
  {
    command := ["cmake", "--build", Render(build)];
    if target != "all" {
      command := command + ["-t", target];
    }
  }

  /** `build mytarget -B /repo/build`. */
  lemma BuildExample()
    ensures BuildCommand("mytarget", ["repo", "build"]) == ["cmake", "--build", "/repo/build", "-t", "mytarget"]
  {
    assert Render(["repo", "build"]) == "/repo/build";
  }

  /** How `call` ends once the child has exited with `status`: it returns, or raises `typer.Exit(code)`. */
  datatype CallEnd = Returned | Raised(code: int)

  /** `call`'s decision: a non-zero child status is raised as `typer.Exit` with that status, zero returns. */
  function Call(status: int): (e: CallEnd)
    ensures e.Raised? <==> status != 0
    ensures e.Raised? ==> e.code == status
  {
    if status != 0 then Raised(status) else Returned
  }

  /** The wrapper's own exit status: 0 after a normal return, `code` after `typer.Exit(code)`. */
  function ExitCode(e: CallEnd): int
  {
    match e
    case Returned => 0
    case Raised(c) => c
  }

  /** Either way `call` ends, the wrapper exits with exactly the child's status. */
  lemma ExitCodeIsChildStatus(status: int)
    ensures ExitCode(Call(status)) == status
  {
  }
}
