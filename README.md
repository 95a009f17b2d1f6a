# Typed workflow rules (yoke prototype), modelled in Dafny

The repository is a proof of concept typed workflow manager in TypeScript. A
*rule* is a pipeline step with a typed input and a typed output. The output is
derived from the input eagerly, when the rule is constructed. Running the rule
executes a shell command rendered from the input and output, and then resolves
with the stored output. Four concrete rules form a variant-calling workflow:
trim a FASTQ pair, align it, split the alignment per chromosome, and call
variants per chromosome. The entry point chains them for each of two FASTQ
pairs.

The model is in four modules:

- `Templates` (`templates.dfy`): JavaScript template-literal rendering.
  `Render(strings, values)` is the literal pieces with the substituted values
  spliced in between. It comes with the proof that a rendered command embeds
  each value verbatim and in order, and a string cancellation fact.
- `Rules` (`rules.dfy`): the abstract `Rule<I, O>` class. Its two abstract
  operations (`createOutput`, `command`) become a `RuleKind<I, O>` record of
  two pure functions. `Rule` is a class with the fields `kind`, `input` and
  `output`. The constructor stores the input and derives the output. `Run`
  executes the rendered command through an `exec` parameter and resolves with
  the stored `output` field. `Launch` is the `new X(input).run()` expression
  the entry point uses.
- `Workflow` (`workflow.dfy`): the record types and the four rules
  `TrimFastq`, `AlignFastqs`, `SplitBams` and `CallVariants`. Each has a pure
  output function and a command whose text matches the source's template
  literal byte for byte, whitespace included.
- `Pipeline` (`pipeline.dfy`): the entry point's per-pair data flow as a pure
  composition of the rules' output functions. The object spreads
  `{ ...a, ...b }` become record constructions. The entry point's two FASTQ
  pairs are included.

Record field names are camel-cased (`five_prime` becomes `fivePrime`,
`ref_fasta` becomes `refFasta`). TypeScript intersection types such as
`TrimFastqParams & PairedFastq` become one record holding the fields of both.

## Model

| member | source | states |
|---|---|---|
| `Templates.Render` | main.ts:56-60 | rendered template text is as long as its pieces and values together, starts with the first literal piece and ends with the last |
| `Templates.RenderInOrder` | main.ts:56-60 | every substituted value appears verbatim in the rendered text, in substitution order, without overlapping |
| `Rules.Rule.constructor` | main.ts:28-31 | the rule stores the given input unchanged and sets `output` to the output derived from it; nothing else is computed |
| `Rules.Rule.Run` | main.ts:34-41 | the command executed is the one rendered from the stored input and output; on success the result is exactly the stored `output` field (equal to the derived output while `Valid`); on failure the execution's error is the rejection |
| `Rules.Launch` | main.ts:135-141 | constructing a rule and running it executes `command(input, createOutput(input))` and, on success, resolves with `createOutput(input)` |
| `Workflow.TrimFastqPassesPairThrough` | main.ts:62-64 | trimming outputs the input's `r1` and `r2`; inputs differing only in trim lengths get the same output and the same command |
| `Workflow.TrimFastqCommandMentions` | main.ts:56-60 | the trim command names input r1, output r1, input r2, output r2 in that order |
| `Workflow.AlignFastqsOutputConstant` | main.ts:79-81 | every alignment input gives the output `{bam: "blah.bam", bai: "blah.bam.bai"}` |
| `Workflow.AlignFastqsCommandMentions` | main.ts:73-77 | the align command names r1, r2, the reference FASTA and the output BAM (twice), in that order |
| `Workflow.SplitByChromosomeElements` | main.ts:94-100 | splitting by a chromosome list gives one record per chromosome, in list order, whose paths are `chr + "." + input path`; distinct chromosomes give pairwise distinct chromosome names, BAM paths and index paths |
| `Workflow.SplitBamsOutputShape` | main.ts:91-101 | a split has exactly three records, for chr1, chr2 and chrM in that order, with prefixed paths, pairwise distinct |
| `Workflow.SplitBamsCommandMentions` | main.ts:86-90 | the split command names the input BAM |
| `Workflow.CallVariantsOutputPath` | main.ts:112-116 | the VCF path is exactly the chromosome followed by `.vardict.vcf.gz` (prefix, suffix and length fixed); two inputs get the same VCF exactly when their chromosomes are equal |
| `Workflow.CallVariantsCommandMentions` | main.ts:106-110 | the variant-calling command names the input BAM and the output VCF path, in that order |
| `Pipeline.ChainWiring` | main.ts:134-143 | each pair plus trim lengths 5/5 feeds trimming; the trimmed pair plus 4 threads and `hg19.fa` feeds alignment; the aligned BAM feeds the split; each split record feeds one variant call, in order |
| `Pipeline.CallEachOfSplit` | main.ts:140-142 | one variant call per split record, in split order, yields exactly `chr1.vardict.vcf.gz`, `chr2.vardict.vcf.gz`, `chrM.vardict.vcf.gz` for any alignment |
| `Pipeline.CallEachDistinct` | main.ts:141 | variant calls on records with pairwise distinct chromosomes write pairwise distinct VCF paths, one per record |
| `Pipeline.ChainOutputs` | main.ts:134-143 | for any pair, the chain ends in exactly the VCFs `chr1.vardict.vcf.gz`, `chr2.vardict.vcf.gz`, `chrM.vardict.vcf.gz`, in that order, with pairwise distinct paths |
| `Pipeline.MainChainsShareOutputs` | main.ts:120-143 | the entry point's two chains trim different pairs but derive the same BAM, split and VCF paths |

## Left out

- Process execution (`exec`, `child_process`, `promisify`, main.ts:3-5 and 35) is the parameter `exec: string -> ExecOutcome` of `Run`. It is a deterministic function of the command text. Shell semantics are not modelled.
- Logging of stdout (main.ts:38) and the `.catch` handler that logs errors (main.ts:144-146) are left out as output side effects.
- Promise chaining, the loop that launches one chain per pair without awaiting it, and `Promise.all` (main.ts:134-147) are asynchronous. `Pipeline.Chain` models one chain's success path as a pure composition instead. Which chain rejects, and when, is not modelled.
- `Pipeline.Chain`: does not model a failing step cutting the chain short. It is the success-path composition only; `Rules.Run` states the failure result of a single step.
- A resource pool appears only as a TODO (main.ts:7-8). The code has no scheduler, task graph, retries or memo cache, so none is modelled.
- TypeScript `number` fields (`five_prime`, `three_prime`, `threads`) are Dafny `int`. Only integer constants occur.
- `TrimFastq`'s `createOutput` ignores its argument and reads `this.input` (main.ts:62-63). The constructor calls it right after storing the input, so the model passes the input as an argument, which gives the same value.
- `CallVariants.command` is typed on the plain alignment record (main.ts:107). The model's rule kind therefore passes the per-chromosome record through `AsAlignedBam`.
- Reassigning a rule's public fields after construction is allowed by the class, as in TypeScript. The source's `run` reads `this.output` in its `.then` callback, so it resolves with whatever `output` holds when the command completes. The model's `Run` reads the field when it is called. The two agree here because nothing in the program reassigns the field. This is also why `Run`'s `Valid()` clause is conditional.
