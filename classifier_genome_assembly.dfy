/**
 * The GenomeAssembly classifier module (classifier/wgs/GenomeAssembly.java): in paired mode a
 * worker function `runMetaspades` that chains metaspades, metabat2 and checkm, and one driver
 * line per read pair; it has no single-end driver lines.
 */
module ClassifierGenomeAssembly {
  import opened Common
  import opened Text
  import Shell
  import AssemblyChain
  import MetaspadesAssembly

  /** Name of the worker function that every driver line calls. */
  const FunctionMetaspades := "runMetaspades"

  /** `buildScript` returns null: the module produces no single-end driver lines. */
  function BuildScript(files: seq<SeqFile>): (data: Option<seq<seq<string>>>)
    ensures data == None
  {
    None
  }

  /** Output directory of one sample: `<outputDir><separator><sampleId>_assembly`, no extension. */
  function SampleOutput(env: ModuleEnv, sampleId: string): string
  {
    env.outputDir + env.separator + sampleId + "_assembly"
  }

  /** The one line `buildScriptForPairedReads` emits for a forward/reverse pair. */
  function PairedDriverLine(env: ModuleEnv, p: ReadPair): string
  {
    FunctionMetaspades + " " + p.forward + " " + p.reverse + " " + SampleOutput(env, p.sampleId)
  }

  /** One inner list per pair-map key, in key order, each holding exactly that pair's driver line. */
  method BuildScriptForPairedReads(env: ModuleEnv, pairs: seq<ReadPair>) returns (data: seq<seq<string>>)
    ensures |data| == |pairs|
    ensures forall i :: 0 <= i < |pairs| ==> data[i] == [PairedDriverLine(env, pairs[i])]
  {
    data := [];
    for i := 0 to |pairs|
      invariant |data| == i
      invariant forall j :: 0 <= j < i ==> data[j] == [PairedDriverLine(env, pairs[j])]
    {
      var p := pairs[i];
      var outputFile := env.outputDir + env.separator + p.sampleId + "_assembly";
      var lines := [];
      lines := lines + [FunctionMetaspades + " " + p.forward + " " + p.reverse + " " + outputFile];
      data := data + [lines];
    }
  }

  /** The module has no dependency to check: it never fails. */
  method CheckDependencies() returns (outcome: Outcome)
    ensures outcome == Pass
  {
    outcome := Pass;
  }

  /** The single-end line as the module writes it: `s3/bins/ $3/SCG` stands where `-m` belongs. */
  function SingleLineAsWritten(s: Settings, env: ModuleEnv): string
  {
    s.metaspadesExe + " -t " + Decimal(s.numThreads) + " s3/bins/ $3/SCG " + Decimal(AssemblyChain.GetMemory())
      + " -s $1 --tmp-dir " + env.tempDir + " -o $2"
  }

  /**
   * The lines appended after the superclass's: the header whatever the flag, then the three
   * stages in paired mode or the single-end line otherwise, then the closing brace.
   */
  function WorkerFunction(s: Settings, env: ModuleEnv): seq<string>
  {
    [Shell.FunctionHeader(FunctionMetaspades)]
    + (if s.pairedReads
       then [AssemblyChain.AssembleLine(s, env), AssemblyChain.BinLine(s), AssemblyChain.CheckLine(s)]
       else [SingleLineAsWritten(s, env)])
    + ["}" + env.ret]
  }

  /**
   * Appends the worker function to the superclass's lines: the superclass's lines stay an
   * unchanged prefix, followed by five lines in paired mode and three otherwise.
   */
  method GetWorkerScriptFunctions(superLines: seq<string>, s: Settings, env: ModuleEnv)
    returns (lines: seq<string>)
    ensures lines == superLines + WorkerFunction(s, env)
    ensures |lines| == |superLines| + (if s.pairedReads then 5 else 3)
    ensures lines[..|superLines|] == superLines
    ensures lines[|superLines|] == "function runMetaspades() {" && lines[|lines| - 1] == "}" + env.ret
  {
    HeaderText();
    lines := superLines;
    lines := lines + [Shell.FunctionHeader(FunctionMetaspades)];
    if s.pairedReads {
      lines := lines + [AssemblyChain.AssembleLine(s, env)];
      lines := lines + [AssemblyChain.BinLine(s)];
      lines := lines + [AssemblyChain.CheckLine(s)];
    } else {
      lines := lines + [SingleLineAsWritten(s, env)];
    }
    lines := lines + ["}" + env.ret];
  }

  /** The header line this module writes, spelled out. */
  lemma HeaderText()
    ensures Shell.FunctionHeader(FunctionMetaspades) == "function runMetaspades() {"
  {
  }

  /**
   * The parameter contract: a pair's driver line splits into the function name declared by the
   * header and three arguments, and with those bound to `$1`..`$3` the body assembles that pair,
   * bins the assembly and checks the bins, all inside that sample's output directory.
   */
  lemma PairedDriverRunsChain(s: Settings, env: ModuleEnv, p: ReadPair)
    requires s.pairedReads
    requires Shell.IsPlainWord(p.forward) && Shell.IsPlainWord(p.reverse)
    requires Shell.IsPlainWord(SampleOutput(env, p.sampleId))
    requires '$' !in s.metaspadesExe && '$' !in s.metabatExe && '$' !in s.checkmExe && '$' !in env.tempDir
    ensures var words := Shell.Words(PairedDriverLine(env, p));
            var out := SampleOutput(env, p.sampleId);
            var body := WorkerFunction(s, env);
            words == [FunctionMetaspades, p.forward, p.reverse, out]
            && |body| == 5
            && body[0] == Shell.FunctionHeader(words[0])
            && Shell.Expand(body[1], words[1..]) == AssemblyChain.AssembleCommand(s, env, p.forward, p.reverse, out)
            && Shell.Expand(body[2], words[1..]) == AssemblyChain.BinCommand(s, out)
            && Shell.Expand(body[3], words[1..]) == AssemblyChain.CheckCommand(s, out)
            && body[4] == "}" + env.ret
  {
    var out := SampleOutput(env, p.sampleId);
    DriverWords(env, p);
    PairedBody(s, env, p.forward, p.reverse, out);
  }

  /** A pair's driver line splits into the function name and the pair's three arguments. */
  lemma DriverWords(env: ModuleEnv, p: ReadPair)
    requires Shell.IsPlainWord(p.forward) && Shell.IsPlainWord(p.reverse)
    requires Shell.IsPlainWord(SampleOutput(env, p.sampleId))
    ensures Shell.Words(PairedDriverLine(env, p)) == [FunctionMetaspades, p.forward, p.reverse, SampleOutput(env, p.sampleId)]
  {
    var ws := [FunctionMetaspades, p.forward, p.reverse, SampleOutput(env, p.sampleId)];
    Shell.UnwordsFour(FunctionMetaspades, p.forward, p.reverse, SampleOutput(env, p.sampleId));
    Shell.WordsUnwords(ws);
  }

  /** In paired mode the body, called with a forward read, a reverse read and an output, runs the chain. */
  lemma PairedBody(s: Settings, env: ModuleEnv, fwd: string, rev: string, out: string)
    requires s.pairedReads
    requires '$' !in s.metaspadesExe && '$' !in s.metabatExe && '$' !in s.checkmExe && '$' !in env.tempDir
    ensures var body := WorkerFunction(s, env);
            |body| == 5
            && body[0] == Shell.FunctionHeader(FunctionMetaspades)
            && Shell.Expand(body[1], [fwd, rev, out]) == AssemblyChain.AssembleCommand(s, env, fwd, rev, out)
            && Shell.Expand(body[2], [fwd, rev, out]) == AssemblyChain.BinCommand(s, out)
            && Shell.Expand(body[3], [fwd, rev, out]) == AssemblyChain.CheckCommand(s, out)
            && body[4] == "}" + env.ret
  {
    AssemblyChain.AssembleLineExpands(s, env, fwd, rev, out);
    AssemblyChain.BinLineExpands(s, fwd, rev, out);
    AssemblyChain.CheckLineExpands(s, fwd, rev, out);
  }

  /*
   * Cutting the single-end line and its command into literal pieces, at each `$n`, in the form that
   * `Shell.ExpandThree` takes. The pieces are spelled out so that the solver never
   * has to compare one long literal with another. Each `*Literals` lemma holds the equalities
   * between literals alone,.
   */
  lemma SingleLineShape(x: string, tmp: string)
    ensures x + " s3/bins/ $3/SCG " + "150" + " -s $1 --tmp-dir " + tmp + " -o $2"
         == (x + " s3/bins/ ") + ['$', '3'] + ("/SCG 150 -s " + ['$', '1'] + ((" --tmp-dir " + tmp + " -o ") + ['$', '2'] + ""))
  {
    SingleLiterals();
  }

  lemma SingleLiterals()
    ensures " s3/bins/ $3/SCG " + "150" + " -s $1 --tmp-dir "
         == " s3/bins/ " + ['$', '3'] + "/SCG 150 -s " + ['$', '1'] + " --tmp-dir "
    ensures " -o $2" == " -o " + ['$', '2'] + ""
  {
  }

  lemma SingleCommandShape(x: string, input: string, tmp: string, out: string)
    ensures (x + " s3/bins/ ") + "" + ("/SCG 150 -s " + input + ((" --tmp-dir " + tmp + " -o ") + out + ""))
         == x + " s3/bins/ /SCG 150 -s " + input + " --tmp-dir " + tmp + " -o " + out
  {
  }

  /**
   * What the single-end line runs when called with reads and an output: `$3` is unset, so
   * metaspades gets the stray words `s3/bins/ /SCG 150` and no `-m` option.
   */
  lemma SingleLineAsWrittenExpands(s: Settings, env: ModuleEnv, input: string, out: string)
    requires '$' !in s.metaspadesExe && '$' !in env.tempDir
    ensures Shell.Expand(SingleLineAsWritten(s, env), [input, out])
         == s.metaspadesExe + " -t " + Decimal(s.numThreads) + " s3/bins/ /SCG 150 -s " + input
            + " --tmp-dir " + env.tempDir + " -o " + out
  {
    var args := [input, out];
    var x := s.metaspadesExe + " -t " + Decimal(s.numThreads);
    var l1 := x + " s3/bins/ ";
    var l3 := " --tmp-dir " + env.tempDir + " -o ";
    assert '$' !in Decimal(s.numThreads) by {
      DigitsArePlain(Decimal(s.numThreads));
    }
    calc {
      Shell.Expand(SingleLineAsWritten(s, env), args);
      { AssemblyChain.MemoryText(); SingleLineShape(x, env.tempDir); }
      Shell.Expand(l1 + ['$', '3'] + ("/SCG 150 -s " + ['$', '1'] + (l3 + ['$', '2'] + "")), args);
      { Shell.ExpandThree(l1, '3', "/SCG 150 -s ", '1', l3, '2', "", args); }
      l1 + "" + ("/SCG 150 -s " + input + (l3 + out + ""));
      { SingleCommandShape(x, input, env.tempDir, out); }
      s.metaspadesExe + " -t " + Decimal(s.numThreads) + " s3/bins/ /SCG 150 -s " + input
        + " --tmp-dir " + env.tempDir + " -o " + out;
    }
  }

  /**
   * The single-end command differs from the one the sibling MetaspadesAssembly module runs for
   * the same reads and output, which passes `-m 150` right after the thread count.
   */
  lemma SingleLineAsWrittenMissesMemory(s: Settings, env: ModuleEnv, input: string, out: string)
    requires '$' !in s.metaspadesExe && '$' !in env.tempDir
    ensures Shell.Expand(SingleLineAsWritten(s, env), [input, out])
         != MetaspadesAssembly.SingleCommand(s, env, input, out)
  {
    var x := s.metaspadesExe + " -t " + Decimal(s.numThreads);
    SingleLineAsWrittenExpands(s, env, input, out);
    var asWritten := Shell.Expand(SingleLineAsWritten(s, env), [input, out]);
    var intended := MetaspadesAssembly.SingleCommand(s, env, input, out);
    assert asWritten == x + " s3/bins/ /SCG 150 -s " + input + " --tmp-dir " + env.tempDir + " -o " + out;
    assert asWritten[|x| + 1] == 's';
    assert intended[|x| + 1] == '-';
  }
}
