# MetaSPAdes genome-assembly script generators (BioLockJ)

BioLockJ modules do not run tools themselves. They write bash scripts. A module emits:

- **worker functions**: bash functions defined once per script, which read their inputs from the
  positional parameters `$1`, `$2`, `$3`;
- **driver lines**: one line per sample, which call a worker function with that sample's files
  and output location.

This project models the three near-identical modules that generate scripts for MetaSPAdes
assembly:

- `MetaspadesAssembly` (classifier/wgs) has a worker `runMetaspades` that runs metaspades once,
  in paired or single-end form.
- `GenomeAssembly` (classifier/wgs) has a worker `runMetaspades` that, for paired reads, chains
  metaspades → metabat2 → checkm. It has no single-end driver lines.
- `GenomeAssembly` (assembly) has a worker `runAssembly` with the same three-stage chain. It
  appends no worker at all for single-end reads, and only warns.

Dafny modules:

- `Common`: the inputs the framework supplies.
  - `ModuleEnv`: output and temp directories, `File.separator`, `RETURN`, the fasta extension.
  - `Settings`: paired-reads flag, `script.numThreads`, the three resolved executables.
  - `SeqFile` and `ReadPair`: one single-end file, or one entry of the forward→reverse pair map.
- `Text`: how Java renders a non-negative `int` inside a string (`Decimal`).
- `Shell`: the two steps of bash that give the generated text its meaning.
  - `Words`: splitting a line into words at blanks.
  - `Expand`: replacing `$1`..`$9` in a function body with the call's arguments.
- `AssemblyChain`: the three stage lines that both GenomeAssembly modules emit, and the commands
  they run for one sample.
- `MetaspadesAssembly`, `ClassifierGenomeAssembly`, `AssemblyGenomeAssembly`: one module per Java
  class.

Inside the per-class modules:

- The driver-line builders are methods with loops. Each one is proved to return one inner list
  per file or pair-map key, in order, holding exactly that sample's line.
- `GetWorkerScriptFunctions` is a method that appends to the superclass's lines. It is proved to
  keep those lines as an unchanged prefix and to append exactly the worker function.
- The parameter-contract lemmas join the two halves. A sample's driver line splits into the
  function name in the worker's header plus its arguments. With those arguments bound to `$1`..
  `$3`, the worker body runs the intended command on that sample's files, bit for bit. This
  includes the double space in `-m 2000  -i` and the trailing blank after `$3/SCG`.

## Model

| member | source | states |
|---|---|---|
| `MetaspadesAssembly.BuildScript` | src/biolockj/module/classifier/wgs/MetaspadesAssembly.java:38-49 | one inner list per input file, in input order; each holds exactly one line, `runMetaspades <path> <outputDir><sep><id>_assembly.<fasta>` |
| `MetaspadesAssembly.BuildScriptForPairedReads` | src/biolockj/module/classifier/wgs/MetaspadesAssembly.java:59-72 | one inner list per pair-map key, in key order; each holds exactly one line listing forward, reverse, then the output path |
| `MetaspadesAssembly.CheckDependencies` | src/biolockj/module/classifier/wgs/MetaspadesAssembly.java:79-80 | never fails |
| `MetaspadesAssembly.GetWorkerScriptFunctions` | src/biolockj/module/classifier/wgs/MetaspadesAssembly.java:103-113 | superclass lines are kept as an unchanged prefix; exactly 3 lines follow: header `function runMetaspades() {`, the paired (`-1 $1 -2 $2 … -o $3`) or single-end (`-s $1 … -o $2`) line chosen by the flag, then `}` + RETURN |
| `MetaspadesAssembly.MemoryText` | src/biolockj/module/classifier/wgs/MetaspadesAssembly.java:115-117 | the memory limit renders as `150` |
| `MetaspadesAssembly.PairedToolLineExpands` | src/biolockj/module/classifier/wgs/MetaspadesAssembly.java:107 | called with forward, reverse and output, the paired line runs `<exe> -t <threads> -m 150 -1 <fwd> -2 <rev> --tmp-dir <tmp> -o <out>` |
| `MetaspadesAssembly.SingleToolLineExpands` | src/biolockj/module/classifier/wgs/MetaspadesAssembly.java:109 | called with reads and output, the single-end line runs `<exe> -t <threads> -m 150 -s <reads> --tmp-dir <tmp> -o <out>` |
| `MetaspadesAssembly.PairedDriverCallsWorker` | src/biolockj/module/classifier/wgs/MetaspadesAssembly.java:99-112 | a paired driver line splits into exactly `[runMetaspades, fwd, rev, out]`; its first word is the name the header declares; the body then runs metaspades on that pair into that output |
| `MetaspadesAssembly.SingleDriverCallsWorker` | src/biolockj/module/classifier/wgs/MetaspadesAssembly.java:40-45 | a single-end driver line splits into exactly `[runMetaspades, path, out]`; the single-end body then runs metaspades on that file into that output |
| `ClassifierGenomeAssembly.BuildScript` | src/biolockj/module/classifier/wgs/GenomeAssembly.java:38-40 | returns null (`None`): no single-end driver output |
| `ClassifierGenomeAssembly.BuildScriptForPairedReads` | src/biolockj/module/classifier/wgs/GenomeAssembly.java:50-63 | one inner list per pair-map key, in key order; each holds exactly `runMetaspades <fwd> <rev> <outputDir><sep><id>_assembly`, with no extension |
| `ClassifierGenomeAssembly.CheckDependencies` | src/biolockj/module/classifier/wgs/GenomeAssembly.java:70-71 | never fails |
| `ClassifierGenomeAssembly.GetWorkerScriptFunctions` | src/biolockj/module/classifier/wgs/GenomeAssembly.java:100-112 | superclass lines are kept as an unchanged prefix; the header is emitted whatever the flag; then 5 lines in all when paired (header, metaspades, metabat2, checkm, brace) and 3 otherwise (header, the single-end line, brace) |
| `ClassifierGenomeAssembly.PairedDriverRunsChain` | src/biolockj/module/classifier/wgs/GenomeAssembly.java:96-110 | a pair's driver line splits into `[runMetaspades, fwd, rev, out]`, matching the header; bound to `$1`..`$3`, the three body lines run `AssembleCommand`, `BinCommand` and `CheckCommand` for that sample; the last line is `}` + RETURN |
| `ClassifierGenomeAssembly.SingleLineAsWrittenExpands` | src/biolockj/module/classifier/wgs/GenomeAssembly.java:108 | called with reads and output, the single-end line runs `<exe> -t <threads> s3/bins/ /SCG 150 -s <reads> --tmp-dir <tmp> -o <out>`: `$3` is unset and there is no `-m` |
| `ClassifierGenomeAssembly.SingleLineAsWrittenMissesMemory` | src/biolockj/module/classifier/wgs/GenomeAssembly.java:108 | for every input, that command differs from the intended single-end command of src/biolockj/module/classifier/wgs/MetaspadesAssembly.java:109 |
| `AssemblyGenomeAssembly.BuildScript` | src/biolockj/module/assembly/GenomeAssembly.java:37-39 | returns null (`None`) |
| `AssemblyGenomeAssembly.BuildScriptForPairedReads` | src/biolockj/module/assembly/GenomeAssembly.java:42-55 | one inner list per pair-map key, in key order; each holds exactly `runAssembly <fwd> <rev> <outputDir><sep><id>_assembly` |
| `AssemblyGenomeAssembly.CheckDependencies` | src/biolockj/module/assembly/GenomeAssembly.java:61-65 | never fails, even with single-end reads; it writes the warning to standard error exactly when the flag is false |
| `AssemblyGenomeAssembly.GetWorkerScriptFunctions` | src/biolockj/module/assembly/GenomeAssembly.java:93-105 | paired: superclass lines kept as an unchanged prefix, exactly 5 lines appended, header `function runAssembly() {` first and `}` + RETURN last; not paired: the superclass's list unchanged, plus the warning |
| `AssemblyGenomeAssembly.PairedDriverRunsChain` | src/biolockj/module/assembly/GenomeAssembly.java:89-100 | a pair's driver line splits into `[runAssembly, fwd, rev, out]`, matching the header; bound to `$1`..`$3`, the body runs the assembler, binner and checker commands for that sample |
| `AssemblyGenomeAssembly.DriverWords` | src/biolockj/module/assembly/GenomeAssembly.java:49-50 | a driver line splits into exactly four words: the function name, the forward file, the reverse file and the sample's output directory |
| `AssemblyGenomeAssembly.DriverLinesDistinct` | src/biolockj/module/assembly/GenomeAssembly.java:44-52 | distinct pair-map keys give pairwise distinct driver lines |
| `AssemblyChain.MemoryText` | src/biolockj/module/assembly/GenomeAssembly.java:107-109 | the memory limit renders as `150` |
| `AssemblyChain.AssembleLineExpands` | src/biolockj/module/assembly/GenomeAssembly.java:97 | with `$1`,`$2`,`$3` = fwd, rev, out, the metaspades line runs `<exe> -t <threads> -m 150 -1 <fwd> -2 <rev> --tmp-dir <tmp> -o <out>/assembly` |
| `AssemblyChain.BinLineExpands` | src/biolockj/module/assembly/GenomeAssembly.java:98 | the metabat2 line reads `<out>/assembly/contigs.fasta`, inside the assembler's output, and writes `<out>/bins/bin` |
| `AssemblyChain.CheckLineExpands` | src/biolockj/module/assembly/GenomeAssembly.java:99 | the checkm line writes `-f <out>/CheckM.txt`, reads `<out>/bins/` (the binner's output directory) and uses the same thread count |
| `AssemblyChain.AssembleLineWords` | src/biolockj/module/assembly/GenomeAssembly.java:97 | for any executable, even one of several words such as `python /app/metaspades.py`, the metaspades line's words begin with the executable's words, then `-t` and the thread count |
| `AssemblyChain.CheckLineWords` | src/biolockj/module/assembly/GenomeAssembly.java:99 | for any executable, the checkm line's words begin with the executable's words, then `lineage_wf -f $3/CheckM.txt -x fa -t <threads>` |
| `AssemblyChain.ThreadsFlagShared` | src/biolockj/module/classifier/wgs/GenomeAssembly.java:104-106 | the word after the first `-t` is the configured thread count in both the metaspades and the checkm line, whenever no word of either executable is itself `-t` |
| `Shell.WordsJoin` | src/biolockj/module/assembly/GenomeAssembly.java:97 | an executable followed by a blank and its options splits into the executable's words followed by the options' words, whatever blanks the executable holds |
| `Text.Decimal` | src/biolockj/module/classifier/wgs/MetaspadesAssembly.java:107 | the thread count renders as digits only, with no leading zero |
| `Text.DecimalRoundTrip` | src/biolockj/module/classifier/wgs/MetaspadesAssembly.java:107 | reading the rendered thread count back gives the configured value |
| `Shell.WordsUnwords` | src/biolockj/module/assembly/GenomeAssembly.java:49-50 | splitting a blank-joined line gives back its words, so a driver line's arguments reach the worker intact |
| `Shell.ExpandThree` | src/biolockj/module/assembly/GenomeAssembly.java:97 | a body line with three `$n` references between literal text expands to the literals with the arguments in place |

## Left out

- The `Config` lookups (`getExe`, `getBoolean`, `getNonNegativeInteger`, `getList`) are not modelled; their results are the fields of `Settings`. Their failures are not modelled either (missing or invalid properties, unresolvable executables). The assembly module reads the executable key `exe.metaspades.py` and the classifier modules read `exe.metaspades`; both become `Settings.metaspadesExe`.
- `script.numThreads` is read twice by the paired three-stage worker: once for metaspades and once for checkm (src/biolockj/module/classifier/wgs/GenomeAssembly.java:104,106 and src/biolockj/module/assembly/GenomeAssembly.java:97,99). The MetaspadesAssembly worker and the classifier module's single-end line read it once. The configuration is read-only, so every read is modelled as the one value `numThreads`.
- `getClassifierParams` is not modelled: its list never reaches an emitted line.
- `getDB` (returns null) and the commented-out parameter-checking code in MetaspadesAssembly are not modelled.
- `SeqUtil.getPairedReads` and `SeqUtil.getSampleId` are not part of this model. The pair map is given as a sequence of (forward, reverse, sample id) entries in key order. Pairing of files, and its errors, are not re-derived.
- `getOutputDir`, `getTempDir`, `File.getAbsolutePath`, `File.separator`, `RETURN` and `Constants.FASTA` are inputs (`ModuleEnv`, `SeqFile`, `ReadPair`).
- `System.err.println` is modelled only as the returned `stderr` lines of the assembly module.
- The superclass's `getWorkerScriptFunctions`, and the framework that chooses between `buildScript` and `buildScriptForPairedReads`, are not part of this model. The superclass's lines are an input.
- `GetWorkerScriptFunctions` (all three modules): the Java code appends in place to the list object the superclass returned. The model returns the extended sequence as a value, so aliasing of that list is not captured.
- Bash is modelled only through blank splitting (`Shell.Words`) and `$1`..`$9` expansion (`Shell.Expand`). Quoting, globbing, other expansions and the execution of the tools are not modelled. The parameter-contract lemmas assume paths with no blank and no `$`, and executables and the temp directory with no `$`. Executables may hold blanks. `AssembleLineWords` and `CheckLineWords` hold for any executable. `ThreadsFlagShared` holds for any executable none of whose words is `-t`.
- `AssemblyGenomeAssembly.CheckDependencies`: single-end input only produces a warning, as in the code. Treating it as a hard error that stops script generation would be a different design, and it is not modelled.

## Findings

| source | as written | input that shows it | evidently intended | confidence | as-written member | corrected member |
|---|---|---|---|---|---|---|
| src/biolockj/module/classifier/wgs/GenomeAssembly.java:108 | single-end line `<exe> -t N s3/bins/ $3/SCG 150 -s $1 --tmp-dir T -o $2` | paired-reads flag false: the emitted `runMetaspades` body holds `s3/bins/ $3/SCG 150` where `-m 150` belongs. No driver line of this module calls it, since its `buildScript` returns null (lines 38-40), so the defect is latent in the script text. Any call with reads `R` and output `O` would run `<exe> -t N s3/bins/ /SCG 150 -s R --tmp-dir T -o O`: the memory option is lost and two stray paths are passed | `<exe> -t N -m 150 -s $1 --tmp-dir T -o $2`, the line of src/biolockj/module/classifier/wgs/MetaspadesAssembly.java:109 | high; not executed | `ClassifierGenomeAssembly.SingleLineAsWrittenMissesMemory` | `MetaspadesAssembly.SingleToolLineExpands` |

`ClassifierGenomeAssembly.GetWorkerScriptFunctions` keeps the line as written, because that is
what the module emits. The defect is latent: `ClassifierGenomeAssembly.BuildScript` returns `None`,
so no driver line of this module calls the single-end body. The corrected line is `MetaspadesAssembly.SingleToolLine`, and the proof
that it runs the intended command is `MetaspadesAssembly.SingleToolLineExpands`.
