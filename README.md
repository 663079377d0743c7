# ecw: a model of the CMake wrapper's command translation and reset guard

`ecw` is a thin command-line wrapper over CMake with two subcommands. `config` turns a source root, a build root, an optional build mode, an export-compile-commands flag and passthrough parameters into the argument vector `cmake -S <src> -B <build> [-DCMAKE_BUILD_TYPE=<mode>] [-DCMAKE_EXPORT_COMPILE_COMMANDS=1] <params...>`. With `--reset` it first deletes the build root, unless the build root is a proper ancestor of the source root. `build` turns a target and a build root into `cmake --build <build> [-t <target>]`. An older front end (`main.py`) has the same two subcommands without mode, export or reset.

This project models:

- the argument vectors, as `seq<string>`;
- the reset guard and the deletion, over an abstract filesystem;
- the older front end, and its relation to the newer one.

Modules:

- `Paths`: resolved absolute paths as sequences of components. `Parents` is `Path.parents` (the proper prefixes, nearest first). `Render` is `str(Path)` ("/" followed by the components joined with "/"), proved injective on resolved paths.
- `FileSystem`: the filesystem as a map from existing paths to their kind (directory or regular file). `IsDir` is `os.path.isdir`. `RemoveTree` is `shutil.rmtree`: it removes exactly the entries that have the root as a prefix.
- `CMakeProtocol`: the two cache-definition flags that CMake dictates.
- `Ecw` (`ecw.py`): `BuildMode` and `to_param`; the `config` method (the guard, the reset, then the command grown by `+=`) proved against the reference function `ConfigureOutcome`; the `build` method proved against `BuildCommand`; the exit status decided by `call`.
- `Legacy` (`main.py`): the older `config` and `build` methods, each proved against a function.
- `Refinement`: the older commands are the newer ones with mode absent, export off and reset off.

One `config` invocation is modelled as an `Outcome`. It is either `Aborted(message)`, where no command runs and there is no new filesystem, or `Run(command, quiet, fs)`, which gives the command to run, the quiet flag and the filesystem after any reset.

Three behaviours of the code are worth stating:

- **The default mode.** The `--mode` option defaults to `BuildMode.debug` (ecw.py:117-118), so `config` run without `-M` still passes `-DCMAKE_BUILD_TYPE=Debug`. The model's `None` mode is a caller passing `None` explicitly. `if mode:` (ecw.py:158) is true exactly when a mode is present, because every `BuildMode` value is a non-empty string.
- **The guard is strict.** The guard tests `build_dir in source_dir.parents` (ecw.py:150), and `parents` does not contain the path itself. So a reset with the build root equal to the source root passes the guard and removes the whole source tree. `Ecw.ResetWithBuildEqualToSourceRemovesSource` states this.
- **No exit status after an abort.** When the guard fires, `config` prints the message and returns normally (ecw.py:151-153), without raising `typer.Exit`. The model gives this path no exit status.

## Model

| member | source | states |
|---|---|---|
| `Ecw.Letter` | ecw.py:44-47 | each mode's enumeration letter parses back to that mode |
| `Ecw.FromLetter` | ecw.py:44-47 | a letter names a mode exactly when it is one of d, r, w, s |
| `Ecw.FromLetterInvertsLetter` | ecw.py:44-47 | a letter that parses to a mode is that mode's letter, so letters and modes are in bijection |
| `Ecw.ToParam` | ecw.py:49-61 | r gives "Release", w gives "RelWithDebInfo", s gives "MinSizeRel", and the fall-through (only d) gives "Debug"; each in both directions |
| `Ecw.BuildTypeToken` | ecw.py:159 | the token is a `CMAKE_BUILD_TYPE` definition whose value is exactly `to_param` of the mode |
| `Ecw.BuildTypeTokenInjective` | ecw.py:159 | distinct modes give distinct build-type tokens |
| `Ecw.ConfigureCommand` | ecw.py:157-163 | the command starts with `cmake -S <src> -B <build>`; its length is 5 + [mode] + [export] + number of params; the params form its suffix unchanged and in order; among the tokens the wrapper adds, a build-type token appears only at index 5 and exactly when a mode is given, and the export token appears only last and exactly when export is asked for |
| `Ecw.ConfigureOutcome` | ecw.py:146-163 | reference definition of `config`: it aborts with `UnsafeResetMessage` (the literal at ecw.py:152) exactly when reset is set and the build root is a proper ancestor of the source root. Otherwise it runs `ConfigureCommand` with the quiet flag, on `RemoveTree(fs, build)` when reset is set and the build root is a directory, and on `fs` unchanged otherwise |
| `Ecw.Config` | ecw.py:146-163 | the guard via `Parents`, the optional `rmtree` and the `+=` assembly give exactly the outcome of the reference definition `ConfigureOutcome` |
| `Ecw.ResetGuard` | ecw.py:147-153 | `config` aborts exactly when reset is set and the build root is in `source_dir.parents`; an abort carries the unsafe-reset message, no command and no changed filesystem |
| `Ecw.NoResetKeepsFilesystem` | ecw.py:147 | without reset the command runs on the unchanged filesystem |
| `Ecw.ResetRemovesBuildTree` | ecw.py:150-155 | a reset that passes the guard runs the command. If the build root is an existing directory, exactly the entries under it disappear; otherwise the filesystem is unchanged. No surviving entry changes kind |
| `Ecw.ResetSparesSourceRoot` | ecw.py:150-155 | when the build root differs from the source root, a reset removes neither the source root nor any of its ancestors |
| `Ecw.ResetWithBuildEqualToSourceRemovesSource` | ecw.py:150-155 | the guard is strict: with build root equal to source root, the reset passes and every entry under the source root is removed |
| `Ecw.ConfigureKeepsWellFormed` | ecw.py:154-155 | if every entry's parent is an existing directory before `config`, that still holds after it |
| `Ecw.ConfigureCommandDeterminesRoots` | ecw.py:157 | for resolved paths, two equal configure commands have the same source root and the same build root |
| `Ecw.PassthroughCanMimicMode` | ecw.py:158-163 | passthrough params are not interpreted: passing the build-type token as a param gives the same command as `--mode` |
| `Ecw.ConfigureExample` | ecw.py:157-161 | `-S /repo -B /repo/build -M r -E` without reset gives `cmake -S /repo -B /repo/build -DCMAKE_BUILD_TYPE=Release -DCMAKE_EXPORT_COMPILE_COMMANDS=1` on the unchanged filesystem |
| `Ecw.UnsafeResetExample` | ecw.py:150-153 | `-B /repo -S /repo/src -R` aborts with the unsafe-reset message, whatever the mode |
| `Ecw.BuildCommand` | ecw.py:187-189 | the command is `cmake --build <build>`, and has length 3 for target "all"; any other target adds exactly `-t <target>` (length 5) |
| `Ecw.Build` | ecw.py:187-189 | the `+=` assembly gives exactly `BuildCommand` |
| `Ecw.BuildExample` | ecw.py:187-189 | `build mytarget -B /repo/build` gives `cmake --build /repo/build -t mytarget` |
| `Ecw.Call` | ecw.py:76-77 | `call` raises `typer.Exit` exactly when the child's status is non-zero, and then with that status; a zero status returns normally |
| `Ecw.ExitCodeIsChildStatus` | ecw.py:76-77 | whichever way `call` ends, the wrapper exits with exactly the child's status. This holds for each command run by `Config` or `Build`; the model does not chain the two |
| `Paths.Parents` | ecw.py:150 | `parents` has one entry per component; entry i is the path with its last i+1 components dropped |
| `Paths.ParentsAreProperAncestors` | ecw.py:150 | a path is in `parents` exactly when it is a proper ancestor, so a path is never among its own parents |
| `Paths.Render` | ecw.py:157 | a rendered path is non-empty and starts with "/" |
| `Paths.RenderInjective` | ecw.py:157 | two resolved paths render to the same token exactly when they are equal |
| `FileSystem.IsDir` | ecw.py:154 | `os.path.isdir`: the path exists and is a directory, not a regular file |
| `FileSystem.RemoveTree` | ecw.py:155 | `rmtree` removes exactly the entries at or under the root, adds none, and leaves every other entry as it was |
| `FileSystem.RemoveTreeKeepsWellFormed` | ecw.py:155 | removing a subtree leaves a tree, in which every entry's parent is an existing directory |
| `Legacy.ConfigureCommand` | main.py:75-77 | the command is `cmake -S <src> -B <build>` followed by the params unchanged, so its length is 5 + number of params (5 with none); the front end adds no build-type and no export token |
| `Legacy.Config` | main.py:75-77 | the `+=` assembly gives exactly `Legacy.ConfigureCommand` |
| `Legacy.BuildCommand` | main.py:101-103 | the command is `cmake --build <build>` followed by `-t <target>` exactly when the target is not "all", so its length is 3 or 5 |
| `Legacy.Build` | main.py:101-103 | the `+=` assembly gives exactly `Legacy.BuildCommand` |
| `Refinement.ConfigureRefines` | main.py:75-77 | the older configure command equals the newer one with mode absent and export off; with reset off as well, the newer `config` runs that command on the unchanged filesystem |
| `Refinement.BuildAgrees` | main.py:101-103 | both front ends give the same build command for every target and build root |

## Left out

- The command-line declaration: option names, help text, defaults (among them `--mode` defaulting to debug, `-S` to "." and `-B` to "build") and Typer's validation and path resolution, which is library behaviour. Paths are taken as already resolved and absolute. `ValidPath` (non-empty components, no separator, no `.` or `..`) is assumed only where injectivity of rendering is used.
- An absent `cmake_params` (`None`), which is modelled as the empty sequence; `if cmake_params:` then appends nothing in both cases.
- Running the command: the `"> ..."` echo, `subprocess.call`, and redirecting the child's stdout to `os.devnull` under `--quiet`. These are process I/O. `quiet` is only carried in the `Run` outcome.
- The real `shutil.rmtree` and `os.path.isdir`. They appear only through the map of existing paths. Symbolic links, permissions and errors raised during deletion are not modelled.
- The exit status of the aborted reset, which the code leaves implicit. The operating system's handling of signal (negative) statuses in `typer.Exit` is also left out.
- The older `call` in `main.py`, which ignores the child's status. It is process I/O, like the newer one's echo.
- `str(Path)` is modelled concretely as "/" plus the components joined by "/". Only its injectivity on resolved paths, and its leading "/", are relied on.
