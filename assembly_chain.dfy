/**
 * The three-stage worker body that both GenomeAssembly modules emit in paired mode:
 * metaspades assembles the pair into `$3/assembly`, metabat2 bins the contigs into
 * `$3/bins/bin`, and checkm checks the bins, reporting to `$3/CheckM.txt`.
 */
module AssemblyChain {
  import opened Common
  import opened Text
  import Shell

  /** Memory limit passed to metaspades with `-m`; fixed, not read from the configuration. */
  function GetMemory(): nat
  {
    150
  }

  /** `getMemory()` as it appears in the generated text; each module class declares its own. */
  lemma MemoryText()
    ensures Decimal(GetMemory()) == "150"
  {
    assert Decimal(1) == "1";
    assert Decimal(15) == "15";
  }

  /** Stage 1: assemble forward `$1` and reverse `$2` into `$3/assembly`. */
  function AssembleLine(s: Settings, env: ModuleEnv): string
  {
    s.metaspadesExe + " -t " + Decimal(s.numThreads) + " -m " + Decimal(GetMemory())
      + " -1 $1 -2 $2 --tmp-dir " + env.tempDir + " -o $3/assembly"
  }

  /** Stage 2: bin the contigs of stage 1 (minimum contig length 2000) into `$3/bins/bin`. */
  function BinLine(s: Settings): string
  {
    s.metabatExe + " -v -m 2000  -i $3/assembly/contigs.fasta -o $3/bins/bin"
  }

  /** Stage 3: check the bins of stage 2, with the same thread count as stage 1. */
  function CheckLine(s: Settings): string
  {
    s.checkmExe + " lineage_wf -f $3/CheckM.txt -x fa -t " + Decimal(s.numThreads) + " $3/bins/ $3/SCG "
  }

  /** Where stage 1 writes for a sample whose output directory is `out`. */
  function AssemblyDir(out: string): string
  {
    out + "/assembly"
  }

  /** Where stage 2 writes its bins, and where stage 3 reads them. */
  function BinsDir(out: string): string
  {
    out + "/bins/"
  }

  /** The assembler command one sample runs. */
  function AssembleCommand(s: Settings, env: ModuleEnv, fwd: string, rev: string, out: string): string
  {
    s.metaspadesExe + " -t " + Decimal(s.numThreads) + " -m 150 -1 " + fwd + " -2 " + rev
      + " --tmp-dir " + env.tempDir + " -o " + AssemblyDir(out)
  }

  /** The binning command one sample runs: its input is the contigs file inside the assembler's output. */
  function BinCommand(s: Settings, out: string): string
  {
    s.metabatExe + " -v -m 2000  -i " + AssemblyDir(out) + "/contigs.fasta -o " + BinsDir(out) + "bin"
  }

  /** The quality-check command one sample runs: its input is the binner's output directory. */
  function CheckCommand(s: Settings, out: string): string
  {
    s.checkmExe + " lineage_wf -f " + out + "/CheckM.txt -x fa -t " + Decimal(s.numThreads)
      + " " + BinsDir(out) + " " + out + "/SCG "
  }

  /*
   * Cutting the stage lines and commands into literal pieces, at each `$n`, in the form that
   * `Shell.ExpandTwo`/`Shell.ExpandThree` take. The pieces are spelled out so that the solver never
   * has to compare one long literal with another. Each `*Literals` lemma holds the equalities
   * between literals alone, and each `*NoDollar` lemma the fact that a literal holds no `$`.
   */
  lemma AssembleLineShape(x: string, tmp: string)
    ensures x + " -m " + "150" + " -1 $1 -2 $2 --tmp-dir " + tmp + " -o $3/assembly"
         == (x + " -m 150 -1 ") + ['$', '1']
            + (" -2 " + ['$', '2'] + ((" --tmp-dir " + tmp + " -o ") + ['$', '3'] + "/assembly"))
  {
    AssembleLiterals();
  }

  lemma AssembleLiterals()
    ensures " -m " + "150" + " -1 $1 -2 $2 --tmp-dir "
         == " -m 150 -1 " + ['$', '1'] + " -2 " + ['$', '2'] + " --tmp-dir "
    ensures " -o $3/assembly" == " -o " + ['$', '3'] + "/assembly"
  {
  }

  lemma BinLineShape(x: string)
    ensures x + " -v -m 2000  -i $3/assembly/contigs.fasta -o $3/bins/bin"
         == (x + " -v -m 2000  -i ") + ['$', '3'] + ("/assembly/contigs.fasta -o " + ['$', '3'] + "/bins/bin")
  {
    BinLiterals();
  }

  lemma BinLiterals()
    ensures " -v -m 2000  -i $3/assembly/contigs.fasta -o $3/bins/bin"
         == " -v -m 2000  -i " + ['$', '3'] + ("/assembly/contigs.fasta -o " + ['$', '3'] + "/bins/bin")
  {
  }

  lemma BinNoDollar()
    ensures '$' !in " -v -m 2000  -i " && '$' !in "/assembly/contigs.fasta -o " && '$' !in "/bins/bin"
  {
  }

  lemma CheckLineShape(x: string, d: string)
    ensures x + " lineage_wf -f $3/CheckM.txt -x fa -t " + d + " $3/bins/ $3/SCG "
         == (x + " lineage_wf -f ") + ['$', '3']
            + (("/CheckM.txt -x fa -t " + d + " ") + ['$', '3'] + ("/bins/ " + ['$', '3'] + "/SCG "))
  {
    CheckLiterals();
  }

  lemma CheckLiterals()
    ensures " lineage_wf -f $3/CheckM.txt -x fa -t " == " lineage_wf -f " + ['$', '3'] + "/CheckM.txt -x fa -t "
    ensures " $3/bins/ $3/SCG " == " " + ['$', '3'] + ("/bins/ " + ['$', '3'] + "/SCG ")
  {
  }

  lemma CheckNoDollar()
    ensures '$' !in " lineage_wf -f " && '$' !in "/CheckM.txt -x fa -t " && '$' !in " "
    ensures '$' !in "/bins/ " && '$' !in "/SCG "
  {
  }

  /** The fixed part of the quality-check line, word by word; each step appends one short piece. */
  lemma CheckWordLiterals()
    ensures " lineage_wf -f $3/CheckM.txt -x fa -t "
         == " " + "lineage_wf" + " " + "-f" + " " + "$3/CheckM.txt" + " " + "-x" + " " + "fa" + " " + "-t" + " "
  {
    assert " lineage_wf" == " " + "lineage_wf";
    assert " lineage_wf " == " lineage_wf" + " ";
    assert " lineage_wf -f" == " lineage_wf " + "-f";
    assert " lineage_wf -f " == " lineage_wf -f" + " ";
    assert " lineage_wf -f $3/CheckM.txt" == " lineage_wf -f " + "$3/CheckM.txt";
    assert " lineage_wf -f $3/CheckM.txt " == " lineage_wf -f $3/CheckM.txt" + " ";
    assert " lineage_wf -f $3/CheckM.txt -x" == " lineage_wf -f $3/CheckM.txt " + "-x";
    assert " lineage_wf -f $3/CheckM.txt -x " == " lineage_wf -f $3/CheckM.txt -x" + " ";
    assert " lineage_wf -f $3/CheckM.txt -x fa" == " lineage_wf -f $3/CheckM.txt -x " + "fa";
    assert " lineage_wf -f $3/CheckM.txt -x fa " == " lineage_wf -f $3/CheckM.txt -x fa" + " ";
    assert " lineage_wf -f $3/CheckM.txt -x fa -t" == " lineage_wf -f $3/CheckM.txt -x fa " + "-t";
  }

  lemma AssembleCommandShape(x: string, fwd: string, rev: string, tmp: string, out: string)
    ensures x + " -m 150 -1 " + fwd + " -2 " + rev + " --tmp-dir " + tmp + " -o " + (out + "/assembly")
         == (x + " -m 150 -1 ") + fwd + (" -2 " + rev + ((" --tmp-dir " + tmp + " -o ") + out + "/assembly"))
  {
  }

  lemma BinCommandShape(x: string, out: string)
    ensures x + " -v -m 2000  -i " + (out + "/assembly") + "/contigs.fasta -o " + (out + "/bins/") + "bin"
         == (x + " -v -m 2000  -i ") + out + ("/assembly/contigs.fasta -o " + out + "/bins/bin")
  {
  }

  lemma CheckCommandShape(x: string, d: string, out: string)
    ensures x + " lineage_wf -f " + out + "/CheckM.txt -x fa -t " + d + " " + (out + "/bins/") + " " + out + "/SCG "
         == (x + " lineage_wf -f ") + out + (("/CheckM.txt -x fa -t " + d + " ") + out + ("/bins/ " + out + "/SCG "))
  {
  }

  /** Called with a forward read, a reverse read and an output, stage 1 runs `AssembleCommand`. */
  lemma AssembleLineExpands(s: Settings, env: ModuleEnv, fwd: string, rev: string, out: string)
    requires '$' !in s.metaspadesExe && '$' !in env.tempDir
    ensures Shell.Expand(AssembleLine(s, env), [fwd, rev, out]) == AssembleCommand(s, env, fwd, rev, out)
  {
    var args := [fwd, rev, out];
    var x := s.metaspadesExe + " -t " + Decimal(s.numThreads);
    var l1 := x + " -m 150 -1 ";
    var l3 := " --tmp-dir " + env.tempDir + " -o ";
    assert '$' !in Decimal(s.numThreads) by {
      DigitsArePlain(Decimal(s.numThreads));
    }
    calc {
      Shell.Expand(AssembleLine(s, env), args);
      { MemoryText(); AssembleLineShape(x, env.tempDir); }
      Shell.Expand(l1 + ['$', '1'] + (" -2 " + ['$', '2'] + (l3 + ['$', '3'] + "/assembly")), args);
      { Shell.ExpandThree(l1, '1', " -2 ", '2', l3, '3', "/assembly", args); }
      l1 + fwd + (" -2 " + rev + (l3 + out + "/assembly"));
      { AssembleCommandShape(x, fwd, rev, env.tempDir, out); }
      AssembleCommand(s, env, fwd, rev, out);
    }
  }

  /** With `$3` the sample's output, stage 2 runs `BinCommand`. */
  lemma BinLineExpands(s: Settings, fwd: string, rev: string, out: string)
    requires '$' !in s.metabatExe
    ensures Shell.Expand(BinLine(s), [fwd, rev, out]) == BinCommand(s, out)
  {
    var args := [fwd, rev, out];
    var l1 := s.metabatExe + " -v -m 2000  -i ";
    BinNoDollar();
    calc {
      Shell.Expand(BinLine(s), args);
      { BinLineShape(s.metabatExe); }
      Shell.Expand(l1 + ['$', '3'] + ("/assembly/contigs.fasta -o " + ['$', '3'] + "/bins/bin"), args);
      { Shell.ExpandTwo(l1, '3', "/assembly/contigs.fasta -o ", '3', "/bins/bin", args); }
      l1 + out + ("/assembly/contigs.fasta -o " + out + "/bins/bin");
      { BinCommandShape(s.metabatExe, out); }
      BinCommand(s, out);
    }
  }

  /** With `$3` the sample's output, stage 3 runs `CheckCommand`. */
  lemma CheckLineExpands(s: Settings, fwd: string, rev: string, out: string)
    requires '$' !in s.checkmExe
    ensures Shell.Expand(CheckLine(s), [fwd, rev, out]) == CheckCommand(s, out)
  {
    var args := [fwd, rev, out];
    var d := Decimal(s.numThreads);
    var l1 := s.checkmExe + " lineage_wf -f ";
    var l2 := "/CheckM.txt -x fa -t " + d + " ";
    assert '$' !in d by {
      DigitsArePlain(d);
    }
    CheckNoDollar();
    calc {
      Shell.Expand(CheckLine(s), args);
      { CheckLineShape(s.checkmExe, d); }
      Shell.Expand(l1 + ['$', '3'] + (l2 + ['$', '3'] + ("/bins/ " + ['$', '3'] + "/SCG ")), args);
      { Shell.ExpandThree(l1, '3', l2, '3', "/bins/ ", '3', "/SCG ", args); }
      l1 + out + (l2 + out + ("/bins/ " + out + "/SCG "));
      { CheckCommandShape(s.checkmExe, d, out); }
      CheckCommand(s, out);
    }
  }

  /*
   * Word structure of the stage lines. The executables come from the configuration and may be
   * several words (`python /app/metaspades.py`); the lemmas below hold for any executable.
   */

  /** The assembler line cut at the blanks around `-t` and the thread count. */
  lemma AssembleLineSplit(x: string, d: string, m: string, tmp: string)
    ensures x + " -t " + d + " -m " + m + " -1 $1 -2 $2 --tmp-dir " + tmp + " -o $3/assembly"
         == x + " " + ("-t" + " " + (d + " " + ("-m " + m + " -1 $1 -2 $2 --tmp-dir " + tmp + " -o $3/assembly")))
  {
  }

  /** The quality-check line cut after the executable, with its fixed words joined by single blanks. */
  lemma CheckLineSplit(x: string, d: string, rest: string)
    ensures x + " lineage_wf -f $3/CheckM.txt -x fa -t " + d + " " + rest
         == x + " " + ((("lineage_wf" + " " + "-f" + " " + "$3/CheckM.txt")
                        + " " + ("-x" + " " + "fa" + " " + "-t" + " " + d)) + " " + rest)
  {
    CheckWordLiterals();
    RegroupSixWords(x, "lineage_wf", "-f", "$3/CheckM.txt", "-x", "fa", "-t", d, rest);
  }

  /** Regrouping of six blank-separated words; it holds for any texts, so no literal is unfolded. */
  lemma RegroupSixWords(x: string, a: string, b: string, c: string, e: string, f: string, g: string,
                        d: string, rest: string)
    ensures x + (" " + a + " " + b + " " + c + " " + e + " " + f + " " + g + " ") + d + " " + rest
         == x + " " + (((a + " " + b + " " + c) + " " + (e + " " + f + " " + g + " " + d)) + " " + rest)
  {
  }

  /** The words of the assembler line: the executable's words, then `-t` and the thread count. */
  lemma AssembleLineWords(s: Settings, env: ModuleEnv)
    ensures Shell.Words(s.metaspadesExe) + ["-t", Decimal(s.numThreads)] <= Shell.Words(AssembleLine(s, env))
  {
    var x := s.metaspadesExe;
    var d := Decimal(s.numThreads);
    var rest := "-m " + Decimal(GetMemory()) + " -1 $1 -2 $2 --tmp-dir " + env.tempDir + " -o $3/assembly";
    DigitsArePlain(d);
    calc {
      Shell.Words(AssembleLine(s, env));
      { AssembleLineSplit(x, d, Decimal(GetMemory()), env.tempDir); }
      Shell.Words(x + " " + ("-t" + " " + (d + " " + rest)));
      { Shell.WordsJoin(x, "-t" + " " + (d + " " + rest)); }
      Shell.Words(x) + Shell.Words("-t" + " " + (d + " " + rest));
      { Shell.WordsCons("-t", d + " " + rest); Shell.WordsCons(d, rest); }
      Shell.Words(x) + (["-t"] + ([d] + Shell.Words(rest)));
      (Shell.Words(x) + ["-t", d]) + Shell.Words(rest);
    }
  }

  /** The words of the quality-check line: the executable's words, then seven fixed words ending in the thread count. */
  lemma CheckLineWords(s: Settings)
    ensures Shell.Words(s.checkmExe) + ["lineage_wf", "-f", "$3/CheckM.txt", "-x", "fa", "-t", Decimal(s.numThreads)]
            <= Shell.Words(CheckLine(s))
  {
    assert CheckLine(s) == s.checkmExe + " lineage_wf -f $3/CheckM.txt -x fa -t " + Decimal(s.numThreads)
                           + " " + "$3/bins/ $3/SCG ";
    DigitsArePlain(Decimal(s.numThreads));
    CheckWords(s.checkmExe, Decimal(s.numThreads), "$3/bins/ $3/SCG ");
  }

  lemma CheckWords(x: string, d: string, rest: string)
    requires Shell.IsWord(d)
    ensures Shell.Words(x) + ["lineage_wf", "-f", "$3/CheckM.txt", "-x", "fa", "-t", d]
            <= Shell.Words(x + " lineage_wf -f $3/CheckM.txt -x fa -t " + d + " " + rest)
  {
    var front := ["lineage_wf", "-f", "$3/CheckM.txt"];
    var back := ["-x", "fa", "-t", d];
    var u := Shell.Unwords(front + back);
    assert u == ("lineage_wf" + " " + "-f" + " " + "$3/CheckM.txt") + " " + ("-x" + " " + "fa" + " " + "-t" + " " + d) by {
      Shell.UnwordsAppend(front, back);
      Shell.UnwordsThree("lineage_wf", "-f", "$3/CheckM.txt");
      Shell.UnwordsFour("-x", "fa", "-t", d);
    }
    assert forall i :: 0 <= i < |front + back| ==> Shell.IsWord((front + back)[i]) by {
      CheckWordsArePlain();
    }
    calc {
      Shell.Words(x + " lineage_wf -f $3/CheckM.txt -x fa -t " + d + " " + rest);
      { CheckLineSplit(x, d, rest); }
      Shell.Words(x + " " + (u + " " + rest));
      { Shell.WordsJoin(x, u + " " + rest); }
      Shell.Words(x) + Shell.Words(u + " " + rest);
      { Shell.WordsUnwordsThen(front + back, rest); }
      Shell.Words(x) + ((front + back) + Shell.Words(rest));
      (Shell.Words(x) + (front + back)) + Shell.Words(rest);
    }
    assert ["lineage_wf", "-f", "$3/CheckM.txt", "-x", "fa", "-t", d] == front + back;
  }

  lemma CheckWordsArePlain()
    ensures Shell.IsWord("lineage_wf") && Shell.IsWord("-f") && Shell.IsWord("$3/CheckM.txt")
    ensures Shell.IsWord("-x") && Shell.IsWord("fa") && Shell.IsWord("-t")
  {
  }

  /**
   * The word after the first `-t` is the configured thread count, in the assembler line and in
   * the quality-check line alike, for any executables none of whose words is `-t`.
   */
  lemma ThreadsFlagShared(s: Settings, env: ModuleEnv)
    requires "-t" !in Shell.Words(s.metaspadesExe)
    requires "-t" !in Shell.Words(s.checkmExe)
    ensures Shell.ArgAfter(Shell.Words(AssembleLine(s, env)), "-t") == Some(Decimal(s.numThreads))
    ensures Shell.ArgAfter(Shell.Words(CheckLine(s)), "-t") == Some(Decimal(s.numThreads))
  {
    AssembleThreads(s, env);
    CheckThreads(s);
  }

  lemma AssembleThreads(s: Settings, env: ModuleEnv)
    requires "-t" !in Shell.Words(s.metaspadesExe)
    ensures Shell.ArgAfter(Shell.Words(AssembleLine(s, env)), "-t") == Some(Decimal(s.numThreads))
  {
    var xs := Shell.Words(s.metaspadesExe);
    var fixed := ["-t", Decimal(s.numThreads)];
    AssembleLineWords(s, env);
    Shell.ArgAfterSkip(xs, fixed, "-t");
    Shell.ArgAfterPrefix(xs + fixed, Shell.Words(AssembleLine(s, env)), "-t");
  }

  lemma CheckThreads(s: Settings)
    requires "-t" !in Shell.Words(s.checkmExe)
    ensures Shell.ArgAfter(Shell.Words(CheckLine(s)), "-t") == Some(Decimal(s.numThreads))
  {
    var xs := Shell.Words(s.checkmExe);
    var fixed := ["lineage_wf", "-f", "$3/CheckM.txt", "-x", "fa", "-t", Decimal(s.numThreads)];
    CheckLineWords(s);
    assert Shell.ArgAfter(fixed, "-t") == Some(Decimal(s.numThreads)) by {
      Shell.ArgAfterFirst(fixed, "-t", 5);
    }
    Shell.ArgAfterSkip(xs, fixed, "-t");
    Shell.ArgAfterPrefix(xs + fixed, Shell.Words(CheckLine(s)), "-t");
  }
}
