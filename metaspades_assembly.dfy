/**
 * The MetaSPAdes classifier module (classifier/wgs/MetaspadesAssembly.java): one worker
 * function `runMetaspades` that runs metaspades once, and one driver line per sample.
 */
module MetaspadesAssembly {
  import opened Common
  import opened Text
  import Shell

  /** Name of the worker function that every driver line calls. */
  const FunctionMetaspades := "runMetaspades"

  /** Memory limit passed to metaspades with `-m`; fixed, not read from the configuration. */
  function GetMemory(): nat
  {
    150
  }

  /** `getMemory()` as it appears in the generated text; each module class declares its own. */
  lemma MemoryText()
    ensures Decimal(GetMemory()) == "150"
  {
    assert Decimal(1) == "1";
    assert Decimal(15) == "15";
  }

  /** Output path of one sample: `<outputDir><separator><sampleId>_assembly.<fasta>`. */
  function SampleOutput(env: ModuleEnv, sampleId: string): string
  {
    env.outputDir + env.separator + sampleId + "_assembly." + env.fastaExt
  }

  /** The one line `buildScript` emits for a single-end file. */
  function SingleDriverLine(env: ModuleEnv, file: SeqFile): string
  {
    FunctionMetaspades + " " + file.absPath + " " + SampleOutput(env, file.sampleId)
  }

  /** The one line `buildScriptForPairedReads` emits for a forward/reverse pair. */
  function PairedDriverLine(env: ModuleEnv, p: ReadPair): string
  {
    FunctionMetaspades + " " + p.forward + " " + p.reverse + " " + SampleOutput(env, p.sampleId)
  }

  /** One inner list per file, in input order, each holding exactly that file's driver line. */
  method BuildScript(env: ModuleEnv, files: seq<SeqFile>) returns (data: seq<seq<string>>)
    ensures |data| == |files|
    ensures forall i :: 0 <= i < |files| ==> data[i] == [SingleDriverLine(env, files[i])]
  {
    data := [];
    for i := 0 to |files|
      invariant |data| == i
      invariant forall j :: 0 <= j < i ==> data[j] == [SingleDriverLine(env, files[j])]
    {
      var file := files[i];
      var outputFile := env.outputDir + env.separator + file.sampleId + "_assembly." + env.fastaExt;
      var lines := [];
      lines := lines + [FunctionMetaspades + " " + file.absPath + " " + outputFile];
      data := data + [lines];
    }
  }

  /** One inner list per pair-map key, in key order, each holding exactly that pair's driver line. */
  method BuildScriptForPairedReads(env: ModuleEnv, pairs: seq<ReadPair>) returns (data: seq<seq<string>>)
    ensures |data| == |pairs|
    ensures forall i :: 0 <= i < |pairs| ==> data[i] == [PairedDriverLine(env, pairs[i])]
  {
    data := [];
    for i := 0 to |pairs|
      invariant |data| == i
      invariant forall j :: 0 <= j < i ==> data[j] == [PairedDriverLine(env, pairs[j])]
    {
      var p := pairs[i];
      var outputFile := env.outputDir + env.separator + p.sampleId + "_assembly." + env.fastaExt;
      var lines := [];
      lines := lines + [FunctionMetaspades + " " + p.forward + " " + p.reverse + " " + outputFile];
      data := data + [lines];
    }
  }

  /** The module has no dependency to check: it never fails. */
  method CheckDependencies() returns (outcome: Outcome)
    ensures outcome == Pass
  {
    outcome := Pass;
  }

  /** Paired mode: `$1` forward read, `$2` reverse read, `$3` output. */
  function PairedToolLine(s: Settings, env: ModuleEnv): string
  {
    s.metaspadesExe + " -t " + Decimal(s.numThreads) + " -m " + Decimal(GetMemory())
      + " -1 $1 -2 $2 --tmp-dir " + env.tempDir + " -o $3"
  }

  /** Single-end mode: `$1` reads, `$2` output. */
  function SingleToolLine(s: Settings, env: ModuleEnv): string
  {
    s.metaspadesExe + " -t " + Decimal(s.numThreads) + " -m " + Decimal(GetMemory())
      + " -s $1 --tmp-dir " + env.tempDir + " -o $2"
  }

  /** The lines appended after the superclass's: header, the metaspades line, closing brace. */
  function WorkerFunction(s: Settings, env: ModuleEnv): seq<string>
  {
    [ Shell.FunctionHeader(FunctionMetaspades),
      if s.pairedReads then PairedToolLine(s, env) else SingleToolLine(s, env),
      "}" + env.ret ]
  }

  /**
   * Appends the worker function to the superclass's lines: the superclass's lines stay an
   * unchanged prefix and exactly three lines follow.
   */
  method GetWorkerScriptFunctions(superLines: seq<string>, s: Settings, env: ModuleEnv)
    returns (lines: seq<string>)
    ensures lines == superLines + WorkerFunction(s, env)
    ensures |lines| == |superLines| + 3 && lines[..|superLines|] == superLines
    ensures lines[|superLines|] == "function runMetaspades() {" && lines[|superLines| + 2] == "}" + env.ret
  {
    HeaderText();
    lines := superLines;
    lines := lines + [Shell.FunctionHeader(FunctionMetaspades)];
    if s.pairedReads {
      lines := lines + [PairedToolLine(s, env)];
    } else {
      lines := lines + [SingleToolLine(s, env)];
    }
    lines := lines + ["}" + env.ret];
  }

  /** The header line this module writes, spelled out. */
  lemma HeaderText()
    ensures Shell.FunctionHeader(FunctionMetaspades) == "function runMetaspades() {"
  {
  }

  /** What metaspades is asked to do for one paired sample. */
  function PairedCommand(s: Settings, env: ModuleEnv, fwd: string, rev: string, out: string): string
  {
    s.metaspadesExe + " -t " + Decimal(s.numThreads) + " -m 150 -1 " + fwd + " -2 " + rev
      + " --tmp-dir " + env.tempDir + " -o " + out
  }

  /** What metaspades is asked to do for one single-end sample. */
  function SingleCommand(s: Settings, env: ModuleEnv, input: string, out: string): string
  {
    s.metaspadesExe + " -t " + Decimal(s.numThreads) + " -m 150 -s " + input
      + " --tmp-dir " + env.tempDir + " -o " + out
  }

  /*
   * Cutting the tool lines and commands into literal pieces, at each `$n`, in the form that
   * `Shell.ExpandTwo`/`Shell.ExpandThree` take. The pieces are spelled out so that the solver never
   * has to compare one long literal with another. Each `*Literals` lemma holds the equalities
   * between literals alone,.
   */
  /** The paired line, cut at its positional parameters. */
  lemma PairedLineShape(x: string, tmp: string)
    ensures x + " -m " + "150" + " -1 $1 -2 $2 --tmp-dir " + tmp + " -o $3"
         == (x + " -m 150 -1 ") + ['$', '1'] + (" -2 " + ['$', '2'] + ((" --tmp-dir " + tmp + " -o ") + ['$', '3'] + []))
  {
    PairedLiterals();
  }

  lemma PairedLiterals()
    ensures " -m " + "150" + " -1 $1 -2 $2 --tmp-dir "
         == " -m 150 -1 " + ['$', '1'] + " -2 " + ['$', '2'] + " --tmp-dir "
    ensures " -o $3" == " -o " + ['$', '3'] + []
  {
  }

  /** The single-end line, cut at its positional parameters. */
  lemma SingleLineShape(x: string, tmp: string)
    ensures x + " -m " + "150" + " -s $1 --tmp-dir " + tmp + " -o $2"
         == (x + " -m 150 -s ") + ['$', '1'] + ((" --tmp-dir " + tmp + " -o ") + ['$', '2'] + [])
  {
    SingleLiterals();
  }

  lemma SingleLiterals()
    ensures " -m " + "150" + " -s $1 --tmp-dir " == " -m 150 -s " + ['$', '1'] + " --tmp-dir "
    ensures " -o $2" == " -o " + ['$', '2'] + []
  {
  }

  lemma PairedCommandShape(x: string, fwd: string, rev: string, tmp: string, out: string)
    ensures x + " -m 150 -1 " + fwd + " -2 " + rev + " --tmp-dir " + tmp + " -o " + out
         == (x + " -m 150 -1 ") + fwd + (" -2 " + rev + ((" --tmp-dir " + tmp + " -o ") + out + []))
  {
  }

  lemma SingleCommandShape(x: string, input: string, tmp: string, out: string)
    ensures x + " -m 150 -s " + input + " --tmp-dir " + tmp + " -o " + out
         == (x + " -m 150 -s ") + input + ((" --tmp-dir " + tmp + " -o ") + out + [])
  {
  }

  /** Called with a forward read, a reverse read and an output, the paired line runs `PairedCommand`. */
  lemma PairedToolLineExpands(s: Settings, env: ModuleEnv, fwd: string, rev: string, out: string)
    requires '$' !in s.metaspadesExe && '$' !in env.tempDir
    ensures Shell.Expand(PairedToolLine(s, env), [fwd, rev, out]) == PairedCommand(s, env, fwd, rev, out)
  {
    var args := [fwd, rev, out];
    var x := s.metaspadesExe + " -t " + Decimal(s.numThreads);
    var l1 := x + " -m 150 -1 ";
    var l3 := " --tmp-dir " + env.tempDir + " -o ";
    assert '$' !in Decimal(s.numThreads) by {
      DigitsArePlain(Decimal(s.numThreads));
    }
    calc {
      Shell.Expand(PairedToolLine(s, env), args);
      { MemoryText(); PairedLineShape(x, env.tempDir); }
      Shell.Expand(l1 + ['$', '1'] + (" -2 " + ['$', '2'] + (l3 + ['$', '3'] + [])), args);
      { Shell.ExpandThree(l1, '1', " -2 ", '2', l3, '3', [], args); }
      l1 + fwd + (" -2 " + rev + (l3 + out + []));
      { PairedCommandShape(x, fwd, rev, env.tempDir, out); }
      PairedCommand(s, env, fwd, rev, out);
    }
  }

  /** Called with the reads and an output, the single-end line runs `SingleCommand`. */
  lemma SingleToolLineExpands(s: Settings, env: ModuleEnv, input: string, out: string)
    requires '$' !in s.metaspadesExe && '$' !in env.tempDir
    ensures Shell.Expand(SingleToolLine(s, env), [input, out]) == SingleCommand(s, env, input, out)
  {
    var args := [input, out];
    var x := s.metaspadesExe + " -t " + Decimal(s.numThreads);
    var l1 := x + " -m 150 -s ";
    var l2 := " --tmp-dir " + env.tempDir + " -o ";
    assert '$' !in Decimal(s.numThreads) by {
      DigitsArePlain(Decimal(s.numThreads));
    }
    calc {
      Shell.Expand(SingleToolLine(s, env), args);
      { MemoryText(); SingleLineShape(x, env.tempDir); }
      Shell.Expand(l1 + ['$', '1'] + (l2 + ['$', '2'] + []), args);
      { Shell.ExpandTwo(l1, '1', l2, '2', [], args); }
      l1 + input + (l2 + out + []);
      { SingleCommandShape(x, input, env.tempDir, out); }
      SingleCommand(s, env, input, out);
    }
  }

  /**
   * The parameter contract in paired mode: a pair's driver line splits into the function name
   * declared by the header and three arguments, and the function body then runs metaspades on
   * that pair's reads, writing to that sample's output.
   */
  lemma PairedDriverCallsWorker(s: Settings, env: ModuleEnv, p: ReadPair)
    requires s.pairedReads
    requires Shell.IsPlainWord(p.forward) && Shell.IsPlainWord(p.reverse)
    requires Shell.IsPlainWord(SampleOutput(env, p.sampleId))
    requires '$' !in s.metaspadesExe && '$' !in env.tempDir
    ensures var words := Shell.Words(PairedDriverLine(env, p));
            var body := WorkerFunction(s, env);
            words == [FunctionMetaspades, p.forward, p.reverse, SampleOutput(env, p.sampleId)]
            && body[0] == Shell.FunctionHeader(words[0])
            && Shell.Expand(body[1], words[1..])
               == PairedCommand(s, env, p.forward, p.reverse, SampleOutput(env, p.sampleId))
  {
    var ws := [FunctionMetaspades, p.forward, p.reverse, SampleOutput(env, p.sampleId)];
    Shell.UnwordsFour(FunctionMetaspades, p.forward, p.reverse, SampleOutput(env, p.sampleId));
    Shell.WordsUnwords(ws);
    assert ws[1..] == [p.forward, p.reverse, SampleOutput(env, p.sampleId)];
    PairedToolLineExpands(s, env, p.forward, p.reverse, SampleOutput(env, p.sampleId));
  }

  /** The same contract in single-end mode, with two arguments: reads and output. */
  lemma SingleDriverCallsWorker(s: Settings, env: ModuleEnv, file: SeqFile)
    requires !s.pairedReads
    requires Shell.IsPlainWord(file.absPath) && Shell.IsPlainWord(SampleOutput(env, file.sampleId))
    requires '$' !in s.metaspadesExe && '$' !in env.tempDir
    ensures var words := Shell.Words(SingleDriverLine(env, file));
            var body := WorkerFunction(s, env);
            words == [FunctionMetaspades, file.absPath, SampleOutput(env, file.sampleId)]
            && body[0] == Shell.FunctionHeader(words[0])
            && Shell.Expand(body[1], words[1..])
               == SingleCommand(s, env, file.absPath, SampleOutput(env, file.sampleId))
  {
    var ws := [FunctionMetaspades, file.absPath, SampleOutput(env, file.sampleId)];
    Shell.UnwordsThree(FunctionMetaspades, file.absPath, SampleOutput(env, file.sampleId));
    Shell.WordsUnwords(ws);
    assert ws[1..] == [file.absPath, SampleOutput(env, file.sampleId)];
    SingleToolLineExpands(s, env, file.absPath, SampleOutput(env, file.sampleId));
  }
}
