/**
 * The GenomeAssembly assembly module (assembly/GenomeAssembly.java): in paired mode a worker
 * function `runAssembly` that chains metaspades, metabat2 and checkm, and one driver line per
 * read pair; in single-end mode it only warns and appends nothing.
 */
module AssemblyGenomeAssembly {
  import opened Common
  import opened Text
  import Shell
  import AssemblyChain

  /** Name of the worker function that every driver line calls. */
  const FunctionAssembly := "runAssembly"

  /** The warning written to standard error when the reads are not paired. */
  const SingleReadsWarning := "Metaspades doesn't support single reads."

  /** `buildScript` returns null: the module produces no single-end driver lines. */
  function BuildScript(files: seq<SeqFile>): (data: Option<seq<seq<string>>>)
    ensures data == None
  {
    None
  }

  /** Output directory of one sample: `<outputDir><separator><sampleId>_assembly`. */
  function SampleOutput(env: ModuleEnv, sampleId: string): string
  {
    env.outputDir + env.separator + sampleId + "_assembly"
  }

  /** The one line `buildScriptForPairedReads` emits for a forward/reverse pair. */
  function PairedDriverLine(env: ModuleEnv, p: ReadPair): string
  {
    FunctionAssembly + " " + p.forward + " " + p.reverse + " " + SampleOutput(env, p.sampleId)
  }

  /** One inner list per pair-map key, in key order, each holding exactly that pair's driver line. */
  method BuildScriptForPairedReads(env: ModuleEnv, pairs: seq<ReadPair>) returns (data: seq<seq<string>>)
    ensures |data| == |pairs|
    ensures forall i :: 0 <= i < |pairs| ==> data[i] == [PairedDriverLine(env, pairs[i])]
  {
    data := [];
    for i := 0 to |pairs|
      invariant |data| == i
      invariant forall j :: 0 <= j < i ==> data[j] == [PairedDriverLine(env, pairs[j])]
    {
      var p := pairs[i];
      var outputFile := env.outputDir + env.separator + p.sampleId + "_assembly";
      var lines := [];
      lines := lines + [FunctionAssembly + " " + p.forward + " " + p.reverse + " " + outputFile];
      data := data + [lines];
    }
  }

  /**
   * Never fails, whatever the paired-reads flag; with single-end reads it only writes a
   * warning to standard error (returned here as `stderr`).
   */
  method CheckDependencies(pairedReads: bool) returns (outcome: Outcome, stderr: seq<string>)
    ensures outcome == Pass
    ensures stderr == if pairedReads then [] else [SingleReadsWarning]
  {
    outcome := Pass;
    stderr := [];
    if !pairedReads {
      stderr := stderr + [SingleReadsWarning];
    }
  }

  /** The five lines of the worker function: header, the three stages, closing brace. */
  function WorkerFunction(s: Settings, env: ModuleEnv): seq<string>
  {
    [ Shell.FunctionHeader(FunctionAssembly),
      AssemblyChain.AssembleLine(s, env),
      AssemblyChain.BinLine(s),
      AssemblyChain.CheckLine(s),
      "}" + env.ret ]
  }

  /**
   * In paired mode appends the worker function after the superclass's unchanged lines; in
   * single-end mode returns the superclass's lines as they are and writes the warning.
   */
  method GetWorkerScriptFunctions(superLines: seq<string>, s: Settings, env: ModuleEnv)
    returns (lines: seq<string>, stderr: seq<string>)
    ensures lines == if s.pairedReads then superLines + WorkerFunction(s, env) else superLines
    ensures stderr == if s.pairedReads then [] else [SingleReadsWarning]
    ensures |lines| == |superLines| + (if s.pairedReads then 5 else 0)
    ensures lines[..|superLines|] == superLines
    ensures s.pairedReads ==> lines[|superLines|] == "function runAssembly() {" && lines[|lines| - 1] == "}" + env.ret
  {
    lines := superLines;
    stderr := [];
    if s.pairedReads {
      HeaderText();
      lines := lines + [Shell.FunctionHeader(FunctionAssembly)];
      lines := lines + [AssemblyChain.AssembleLine(s, env)];
      lines := lines + [AssemblyChain.BinLine(s)];
      lines := lines + [AssemblyChain.CheckLine(s)];
      lines := lines + ["}" + env.ret];
    } else {
      stderr := stderr + [SingleReadsWarning];
    }
  }

  /** The header line this module writes, spelled out. */
  lemma HeaderText()
    ensures Shell.FunctionHeader(FunctionAssembly) == "function runAssembly() {"
  {
  }

  /**
   * The parameter contract: a pair's driver line splits into the function name declared by the
   * header and three arguments, and with those bound to `$1`..`$3` the body assembles that pair,
   * bins the assembly and checks the bins, all inside that sample's output directory.
   */
  lemma PairedDriverRunsChain(s: Settings, env: ModuleEnv, p: ReadPair)
    requires Shell.IsPlainWord(p.forward) && Shell.IsPlainWord(p.reverse)
    requires Shell.IsPlainWord(SampleOutput(env, p.sampleId))
    requires '$' !in s.metaspadesExe && '$' !in s.metabatExe && '$' !in s.checkmExe && '$' !in env.tempDir
    ensures var words := Shell.Words(PairedDriverLine(env, p));
            var out := SampleOutput(env, p.sampleId);
            var body := WorkerFunction(s, env);
            words == [FunctionAssembly, p.forward, p.reverse, out]
            && body[0] == Shell.FunctionHeader(words[0])
            && Shell.Expand(body[1], words[1..]) == AssemblyChain.AssembleCommand(s, env, p.forward, p.reverse, out)
            && Shell.Expand(body[2], words[1..]) == AssemblyChain.BinCommand(s, out)
            && Shell.Expand(body[3], words[1..]) == AssemblyChain.CheckCommand(s, out)
  {
    var out := SampleOutput(env, p.sampleId);
    DriverWords(env, p);
    PairedBody(s, env, p.forward, p.reverse, out);
  }

  /** A pair's driver line splits into the function name and the pair's three arguments. */
  lemma DriverWords(env: ModuleEnv, p: ReadPair)
    requires Shell.IsWord(p.forward) && Shell.IsWord(p.reverse) && Shell.IsWord(SampleOutput(env, p.sampleId))
    ensures Shell.Words(PairedDriverLine(env, p)) == [FunctionAssembly, p.forward, p.reverse, SampleOutput(env, p.sampleId)]
  {
    var ws := [FunctionAssembly, p.forward, p.reverse, SampleOutput(env, p.sampleId)];
    Shell.UnwordsFour(FunctionAssembly, p.forward, p.reverse, SampleOutput(env, p.sampleId));
    Shell.WordsUnwords(ws);
  }

  /** The body, called with a forward read, a reverse read and an output, runs the chain. */
  lemma PairedBody(s: Settings, env: ModuleEnv, fwd: string, rev: string, out: string)
    requires '$' !in s.metaspadesExe && '$' !in s.metabatExe && '$' !in s.checkmExe && '$' !in env.tempDir
    ensures var body := WorkerFunction(s, env);
            body[0] == Shell.FunctionHeader(FunctionAssembly)
            && Shell.Expand(body[1], [fwd, rev, out]) == AssemblyChain.AssembleCommand(s, env, fwd, rev, out)
            && Shell.Expand(body[2], [fwd, rev, out]) == AssemblyChain.BinCommand(s, out)
            && Shell.Expand(body[3], [fwd, rev, out]) == AssemblyChain.CheckCommand(s, out)
  {
    AssemblyChain.AssembleLineExpands(s, env, fwd, rev, out);
    AssemblyChain.BinLineExpands(s, fwd, rev, out);
    AssemblyChain.CheckLineExpands(s, fwd, rev, out);
  }

  /** Distinct keys of the pair map give distinct driver lines: each sample is driven once. */
  lemma DriverLinesDistinct(env: ModuleEnv, pairs: seq<ReadPair>)
    requires IsPairMap(pairs)
    requires forall i :: 0 <= i < |pairs| ==>
      Shell.IsWord(pairs[i].forward) && Shell.IsWord(pairs[i].reverse)
      && Shell.IsWord(SampleOutput(env, pairs[i].sampleId))
    ensures forall i, j :: 0 <= i < j < |pairs| ==> PairedDriverLine(env, pairs[i]) != PairedDriverLine(env, pairs[j])
  {
    forall i, j | 0 <= i < j < |pairs|
      ensures PairedDriverLine(env, pairs[i]) != PairedDriverLine(env, pairs[j])
    {
      DriverWords(env, pairs[i]);
      DriverWords(env, pairs[j]);
    }
  }
}
