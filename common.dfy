/** Values every script generator receives from the surrounding BioLockJ framework. */
module Common {

  datatype Option<T> = None | Some(value: T)

  /** Result of a `void checkDependencies() throws Exception`: Pass, or the exception's message. */
  datatype Outcome = Pass | Fail(message: string)

  /**
   * Paths and constants owned by the module framework: the absolute output and temp
   * directories of the module, `File.separator`, the line terminator `RETURN` and the
   * extension `Constants.FASTA`.
   */
  datatype ModuleEnv = ModuleEnv(
    outputDir: string,
    tempDir: string,
    separator: string,
    ret: string,
    fastaExt: string)

  /**
   * Configuration values the generators read: the internal paired-reads flag,
   * `script.numThreads` (a non-negative integer) and the resolved executables.
   */
  datatype Settings = Settings(
    pairedReads: bool,
    numThreads: nat,
    metaspadesExe: string,
    metabatExe: string,
    checkmExe: string)

  /** One single-end read file: its absolute path and the sample id derived from its name. */
  datatype SeqFile = SeqFile(absPath: string, sampleId: string)

  /**
   * One entry of the forward-to-reverse pair map: the absolute paths of both files and
   * the sample id derived from the forward file's name.
   */
  datatype ReadPair = ReadPair(forward: string, reverse: string, sampleId: string)

  /** The keys of a pair map are distinct forward files. */
  predicate IsPairMap(pairs: seq<ReadPair>)
  {
    forall i, j :: 0 <= i < j < |pairs| ==> pairs[i].forward != pairs[j].forward
  }
}
