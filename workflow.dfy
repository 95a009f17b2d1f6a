/** The four concrete rules of the variant-calling workflow: trimming a FASTQ
    pair, aligning it, splitting the alignment per chromosome and calling
    variants on each chromosome. */
module Workflow {
  import opened Templates
  import opened Rules

  // Record shapes. An intersection type such as `TrimFastqParams & PairedFastq`
  // becomes one record with the fields of both.

  datatype PairedFastq = PairedFastq(r1: string, r2: string)
  datatype TrimFastqParams = TrimFastqParams(fivePrime: int, threePrime: int)
  datatype TrimFastqInput = TrimFastqInput(fivePrime: int, threePrime: int, r1: string, r2: string)

  datatype Refdata = Refdata(refFasta: string)
  datatype AlignmentOpts = AlignmentOpts(threads: int)
  datatype AlignmentInputs = AlignmentInputs(r1: string, r2: string, threads: int, refFasta: string)
  datatype AlignedBam = AlignedBam(bam: string, bai: string)

  datatype PerChrAlignedBam = PerChrAlignedBam(bam: string, bai: string, chr: string)
  datatype Vcf = Vcf(path: string)

  // TrimFastq

  function TrimFastqCommand(input: TrimFastqInput, output: PairedFastq): string
  {
    Render(["\n    echo trim-fastq ", " --output ", ";\n    echo trim-fastq ", " --output ", ";\n    "],
           [input.r1, output.r1, input.r2, output.r2])
  }

  /** The trimmed pair: the input's read files, passed through. */
  function TrimFastqOutput(input: TrimFastqInput): PairedFastq
  {
    PairedFastq(input.r1, input.r2)
  }

  const TrimFastq: RuleKind<TrimFastqInput, PairedFastq> :=
    RuleKind(TrimFastqOutput, TrimFastqCommand)

  /** The trimmed pair is the input's pair, and the trim lengths affect
      neither the output nor the command. */
  lemma TrimFastqPassesPairThrough(a: TrimFastqInput, b: TrimFastqInput, output: PairedFastq)
    ensures TrimFastqOutput(a).r1 == a.r1 && TrimFastqOutput(a).r2 == a.r2
    ensures a.r1 == b.r1 && a.r2 == b.r2 ==>
              TrimFastqOutput(a) == TrimFastqOutput(b) &&
              TrimFastqCommand(a, output) == TrimFastqCommand(b, output)
  {
  }

  /** The trim command names input r1, output r1, input r2 and output r2,
      verbatim and in that order. */
  lemma TrimFastqCommandMentions(input: TrimFastqInput, output: PairedFastq)
    ensures ContainsInOrder(TrimFastqCommand(input, output), [input.r1, output.r1, input.r2, output.r2])
  {
    RenderInOrder(["\n    echo trim-fastq ", " --output ", ";\n    echo trim-fastq ", " --output ", ";\n    "],
                  [input.r1, output.r1, input.r2, output.r2]);
  }

  // AlignFastqs

  function AlignFastqsCommand(input: AlignmentInputs, output: AlignedBam): string
  {
    Render(["\n    echo aligner ", " ", " --ref-fata ", " --output ", ";\n    echo samtools index ", ";\n    "],
           [input.r1, input.r2, input.refFasta, output.bam, output.bam])
  }

  /** The aligned BAM and its index, at fixed paths. */
  function AlignFastqsOutput(input: AlignmentInputs): AlignedBam
  {
    AlignedBam("blah.bam", "blah.bam.bai")
  }

  const AlignFastqs: RuleKind<AlignmentInputs, AlignedBam> :=
    RuleKind(AlignFastqsOutput, AlignFastqsCommand)

  /** Alignment produces the same BAM paths whatever its input. */
  lemma AlignFastqsOutputConstant(a: AlignmentInputs, b: AlignmentInputs)
    ensures AlignFastqsOutput(a) == AlignFastqsOutput(b)
    ensures AlignFastqsOutput(a).bam == "blah.bam" && AlignFastqsOutput(a).bai == "blah.bam.bai"
  {
  }

  /** The align command names both reads, the reference and the output BAM
      (twice: once as the aligner's output, once to index it), in that order. */
  lemma AlignFastqsCommandMentions(input: AlignmentInputs, output: AlignedBam)
    ensures ContainsInOrder(AlignFastqsCommand(input, output),
                            [input.r1, input.r2, input.refFasta, output.bam, output.bam])
  {
    RenderInOrder(["\n    echo aligner ", " ", " --ref-fata ", " --output ", ";\n    echo samtools index ", ";\n    "],
                  [input.r1, input.r2, input.refFasta, output.bam, output.bam]);
  }

  // SplitBams

  /** The chromosomes an alignment is split into. */
  const Chroms: seq<string> := ["chr1", "chr2", "chrM"]

  /** One record per chromosome, in the order of `chroms`, whose paths are the
      input's paths prefixed with the chromosome name and a dot. */
  function SplitByChromosome(chroms: seq<string>, input: AlignedBam): seq<PerChrAlignedBam>
  {
    seq(|chroms|, i requires 0 <= i < |chroms| =>
      PerChrAlignedBam(chroms[i] + "." + input.bam, chroms[i] + "." + input.bai, chroms[i]))
  }

  function SplitBamsCommand(input: AlignedBam, output: seq<PerChrAlignedBam>): string
  {
    Render(["\n        echo picard SplitBam ... ", ";\n        "], [input.bam])
  }

  function SplitBamsOutput(input: AlignedBam): seq<PerChrAlignedBam>
  {
    SplitByChromosome(Chroms, input)
  }

  const SplitBams: RuleKind<AlignedBam, seq<PerChrAlignedBam>> :=
    RuleKind(SplitBamsOutput, SplitBamsCommand)

  /** No chromosome occurs twice in the list. */
  predicate Distinct(ss: seq<string>)
  {
    forall i, j :: 0 <= i < j < |ss| ==> ss[i] != ss[j]
  }

  /** Element i of a split is chromosome i with its own prefixed paths, and a
      list of distinct chromosomes gives records whose chromosome names, BAM
      paths and index paths are pairwise distinct. */
  lemma SplitByChromosomeElements(chroms: seq<string>, input: AlignedBam)
    ensures var out := SplitByChromosome(chroms, input);
            |out| == |chroms| &&
            (forall i :: 0 <= i < |out| ==>
               out[i].chr == chroms[i] &&
               out[i].bam == chroms[i] + "." + input.bam &&
               out[i].bai == chroms[i] + "." + input.bai)
    ensures var out := SplitByChromosome(chroms, input);
            Distinct(chroms) ==>
              forall i, j :: 0 <= i < j < |out| ==>
                out[i].chr != out[j].chr && out[i].bam != out[j].bam && out[i].bai != out[j].bai
  {
    var out := SplitByChromosome(chroms, input);
    if Distinct(chroms) {
      forall i, j | 0 <= i < j < |out|
        ensures out[i].chr != out[j].chr && out[i].bam != out[j].bam && out[i].bai != out[j].bai
      {
        AppendCancel(chroms[i] + ".", chroms[j] + ".", input.bam);
        AppendCancel(chroms[i] + ".", chroms[j] + ".", input.bai);
        AppendCancel(chroms[i], chroms[j], ".");
        assert chroms[i] + "." + input.bam == (chroms[i] + ".") + input.bam;
        assert chroms[j] + "." + input.bam == (chroms[j] + ".") + input.bam;
      }
    }
  }

  /** The split of any alignment has exactly three elements, for chr1, chr2
      and chrM in that order, with pairwise distinct chromosomes and paths. */
  lemma SplitBamsOutputShape(input: AlignedBam)
    ensures var out := SplitBamsOutput(input);
            |out| == 3 &&
            out[0] == PerChrAlignedBam("chr1." + input.bam, "chr1." + input.bai, "chr1") &&
            out[1] == PerChrAlignedBam("chr2." + input.bam, "chr2." + input.bai, "chr2") &&
            out[2] == PerChrAlignedBam("chrM." + input.bam, "chrM." + input.bai, "chrM")
    ensures var out := SplitBamsOutput(input);
            forall i, j :: 0 <= i < j < |out| ==>
              out[i].chr != out[j].chr && out[i].bam != out[j].bam && out[i].bai != out[j].bai
  {
    assert "chr1" != "chr2" && "chr1" != "chrM" && "chr2" != "chrM" by {
      assert "chr1"[3] != "chr2"[3] && "chr1"[3] != "chrM"[3] && "chr2"[3] != "chrM"[3];
    }
    assert Distinct(Chroms);
    SplitByChromosomeElements(Chroms, input);
    assert "chr1" + "." == "chr1." && "chr2" + "." == "chr2." && "chrM" + "." == "chrM.";
  }

  /** The split command names the input BAM verbatim. */
  lemma SplitBamsCommandMentions(input: AlignedBam, output: seq<PerChrAlignedBam>)
    ensures ContainsInOrder(SplitBamsCommand(input, output), [input.bam])
  {
    RenderInOrder(["\n        echo picard SplitBam ... ", ";\n        "], [input.bam]);
  }

  // CallVariants

  /** The command is written against the plain alignment shape, of which a
      per-chromosome alignment is an instance. */
  function CallVariantsCommand(input: AlignedBam, output: Vcf): string
  {
    Render(["\n        echo vardict ", " ", ";\n        "], [input.bam, output.path])
  }

  /** The VCF of one chromosome, named after it. */
  function CallVariantsOutput(input: PerChrAlignedBam): Vcf
  {
    Vcf(input.chr + ".vardict.vcf.gz")
  }

  /** A per-chromosome alignment seen as a plain alignment. */
  function AsAlignedBam(b: PerChrAlignedBam): AlignedBam
  {
    AlignedBam(b.bam, b.bai)
  }

  const CallVariants: RuleKind<PerChrAlignedBam, Vcf> :=
    RuleKind(CallVariantsOutput,
             (input: PerChrAlignedBam, output: Vcf) => CallVariantsCommand(AsAlignedBam(input), output))

  /** The VCF path is the chromosome name followed by ".vardict.vcf.gz", and
      two inputs get the same VCF exactly when they name the same chromosome. */
  lemma CallVariantsOutputPath(a: PerChrAlignedBam, b: PerChrAlignedBam)
    ensures EndsWith(CallVariantsOutput(a).path, ".vardict.vcf.gz")
    ensures CallVariantsOutput(a).path[..|a.chr|] == a.chr
    ensures |CallVariantsOutput(a).path| == |a.chr| + |".vardict.vcf.gz"|
    ensures CallVariantsOutput(a) == CallVariantsOutput(b) <==> a.chr == b.chr
  {
    AppendCancel(a.chr, b.chr, ".vardict.vcf.gz");
    var p := a.chr + ".vardict.vcf.gz";
    assert p[|p| - |".vardict.vcf.gz"|..] == ".vardict.vcf.gz";
  }

  /** The variant-calling command names the input BAM and the output VCF,
      verbatim and in that order. */
  lemma CallVariantsCommandMentions(input: PerChrAlignedBam, output: Vcf)
    ensures ContainsInOrder(CallVariants.command(input, output), [input.bam, output.path])
  {
    RenderInOrder(["\n        echo vardict ", " ", ";\n        "], [input.bam, output.path]);
  }
}
