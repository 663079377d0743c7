/** The newer front end does everything the older one did: with no mode, no export and no reset it issues the same commands. */
module Refinement {
  import opened Paths
  import opened FileSystem
  import Ecw
  import Legacy

  /** The older `config` is the newer one with mode absent, export off and reset off, which leaves the filesystem alone. */
  lemma ConfigureRefines(params: seq<string>, src: Path, build: Path, fs: Fs)
    ensures Legacy.ConfigureCommand(params, src, build) == Ecw.ConfigureCommand(params, src, build, Ecw.None, false)
    ensures Ecw.ConfigureOutcome(params, src, build, Ecw.None, false, false, false, fs)
         == Ecw.Run(Legacy.ConfigureCommand(params, src, build), false, fs)
  {
  }

  /** Both front ends build the same command for every target and build root. */
  lemma BuildAgrees(target: string, build: Path)
    ensures Legacy.BuildCommand(target, build) == Ecw.BuildCommand(target, build)
  {
  }
}
