/** The flag tokens that CMake itself dictates, shared by both front ends. */
module CMakeProtocol {

  /** The prefix of the `CMAKE_BUILD_TYPE` cache definition. */
  const BuildTypePrefix: string := "-DCMAKE_BUILD_TYPE="

  /** The cache definition that asks CMake to write `compile_commands.json`. */
  const ExportCompileCommands: string := "-DCMAKE_EXPORT_COMPILE_COMMANDS=1"

  /** `t` sets `CMAKE_BUILD_TYPE`, whatever the value. */
  predicate IsBuildTypeToken(t: string) {
    |BuildTypePrefix| <= |t| && t[..|BuildTypePrefix|] == BuildTypePrefix
  }

  /** The build-type and export flags are told apart by CMake, and neither is a path. */
  lemma FlagsAreDistinct(t: string)
    ensures IsBuildTypeToken(t) ==> t != ExportCompileCommands
    ensures t != "" && t[0] == '/' ==> !IsBuildTypeToken(t) && t != ExportCompileCommands
  {
    if IsBuildTypeToken(t) {
      assert t[0] == BuildTypePrefix[0] == '-';
      assert t[8] == BuildTypePrefix[8] == 'B';
      assert ExportCompileCommands[8] == 'E';
    }
  }
}
