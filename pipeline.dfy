/** The data flow of the workflow's entry point: for each FASTQ pair, trim,
    align, split per chromosome and call variants on every chromosome, each
    downstream input built from the upstream output and constant records. */
module Pipeline {
  import opened Workflow

  const RefData: Refdata := Refdata("hg19.fa")
  const TrimParams: TrimFastqParams := TrimFastqParams(5, 5)
  const AlignOpts: AlignmentOpts := AlignmentOpts(4)

  /** The FASTQ pairs the entry point processes. */
  const InputFastqPairs: seq<PairedFastq> := [
    PairedFastq("set1_r1.fastq.gz", "set1_r2.fastq.gz"),
    PairedFastq("set2_r1.fastq.gz", "set2_r2.fastq.gz")
  ]

  /** `{ ...pair, ...params }`: the two records' fields side by side (their
      field names are disjoint, so no field is overridden). */
  function SpreadTrimInput(pair: PairedFastq, params: TrimFastqParams): TrimFastqInput
  {
    TrimFastqInput(params.fivePrime, params.threePrime, pair.r1, pair.r2)
  }

  /** `{ ...trimmed, ...opts, ...ref }`, likewise with disjoint field names. */
  function SpreadAlignInput(trimmed: PairedFastq, opts: AlignmentOpts, ref: Refdata): AlignmentInputs
  {
    AlignmentInputs(trimmed.r1, trimmed.r2, opts.threads, ref.refFasta)
  }

  /** `bams.map((b) => new CallVariants(b).run())`, by the outputs the calls
      resolve with. */
  function CallEach(bams: seq<PerChrAlignedBam>): seq<Vcf>
  {
    seq(|bams|, i requires 0 <= i < |bams| => CallVariants.createOutput(bams[i]))
  }

  /** Every input and output of one pair's chain of rules. */
  datatype ChainTrace = ChainTrace(
    trimInput: TrimFastqInput,
    trimmed: PairedFastq,
    alignInput: AlignmentInputs,
    aligned: AlignedBam,
    split: seq<PerChrAlignedBam>,
    vcfs: seq<Vcf>)

  /** The chain for one pair, as the outputs each rule derives from its input
      when the chain's commands all succeed (each rule's run then resolves
      with exactly that output). */
  function Chain(pair: PairedFastq): ChainTrace
  {
    var trimInput := SpreadTrimInput(pair, TrimParams);
    var trimmed := TrimFastq.createOutput(trimInput);
    var alignInput := SpreadAlignInput(trimmed, AlignOpts, RefData);
    var aligned := AlignFastqs.createOutput(alignInput);
    var split := SplitBams.createOutput(aligned);
    var vcfs := CallEach(split);
    ChainTrace(trimInput, trimmed, alignInput, aligned, split, vcfs)
  }

  /** The chains of all the entry point's pairs, in order. */
  function MainChains(): seq<ChainTrace>
  {
    seq(|InputFastqPairs|, i requires 0 <= i < |InputFastqPairs| => Chain(InputFastqPairs[i]))
  }

  /** How one chain is wired: the pair plus trim lengths 5 and 5 feeds
      trimming; the trimmed pair plus 4 threads and reference "hg19.fa" feeds
      alignment; the aligned BAM feeds the split; each split element feeds one
      variant call, in order. */
  lemma ChainWiring(pair: PairedFastq)
    ensures var t := Chain(pair);
            t.trimInput == TrimFastqInput(5, 5, pair.r1, pair.r2) &&
            t.trimmed == pair &&
            t.alignInput == AlignmentInputs(pair.r1, pair.r2, 4, "hg19.fa") &&
            t.aligned == AlignedBam("blah.bam", "blah.bam.bai") &&
            t.split == SplitBamsOutput(t.aligned) &&
            |t.vcfs| == |t.split| &&
            forall i :: 0 <= i < |t.vcfs| ==> t.vcfs[i] == CallVariantsOutput(t.split[i])
  {
  }

  /** Calling variants on the split of any alignment names the VCFs after
      chr1, chr2 and chrM, in that order. */
  lemma CallEachOfSplitPaths(aligned: AlignedBam)
    ensures var v := CallEach(SplitBamsOutput(aligned));
            |v| == 3 &&
            v[0].path == "chr1" + ".vardict.vcf.gz" &&
            v[1].path == "chr2" + ".vardict.vcf.gz" &&
            v[2].path == "chrM" + ".vardict.vcf.gz"
  {
    SplitByChromosomeElements(Chroms, aligned);
  }

  /** Calling variants on the split of any alignment gives exactly the VCFs
      for chr1, chr2 and chrM, in that order. */
  lemma CallEachOfSplit(aligned: AlignedBam)
    ensures CallEach(SplitBamsOutput(aligned)) ==
              [Vcf("chr1.vardict.vcf.gz"), Vcf("chr2.vardict.vcf.gz"), Vcf("chrM.vardict.vcf.gz")]
  {
    CallEachOfSplitPaths(aligned);
    assert "chr1" + ".vardict.vcf.gz" == "chr1.vardict.vcf.gz";
    assert "chr2" + ".vardict.vcf.gz" == "chr2.vardict.vcf.gz";
    assert "chrM" + ".vardict.vcf.gz" == "chrM.vardict.vcf.gz";
  }

  /** Variant calls on records with pairwise distinct chromosomes write
      pairwise distinct VCF paths. */
  lemma CallEachDistinct(bams: seq<PerChrAlignedBam>)
    requires forall i, j :: 0 <= i < j < |bams| ==> bams[i].chr != bams[j].chr
    ensures var v := CallEach(bams);
            |v| == |bams| && forall i, j :: 0 <= i < j < |v| ==> v[i].path != v[j].path
  {
    var v := CallEach(bams);
    forall i, j | 0 <= i < j < |v| ensures v[i].path != v[j].path {
      CallVariantsOutputPath(bams[i], bams[j]);
    }
  }

  /** Whatever the pair, its chain ends in exactly three VCFs, for chr1, chr2
      and chrM in that order, with pairwise distinct paths. */
  lemma ChainOutputs(pair: PairedFastq)
    ensures Chain(pair).vcfs ==
              [Vcf("chr1.vardict.vcf.gz"), Vcf("chr2.vardict.vcf.gz"), Vcf("chrM.vardict.vcf.gz")]
    ensures var v := Chain(pair).vcfs;
            forall i, j :: 0 <= i < j < |v| ==> v[i].path != v[j].path
  {
    var t := Chain(pair);
    CallEachOfSplit(t.aligned);
    SplitBamsOutputShape(t.aligned);
    CallEachDistinct(t.split);
  }

  /** Because no rule's output path depends on the reads, the entry point's two
      chains derive the same BAM, split and VCF paths. */
  lemma MainChainsShareOutputs()
    ensures |MainChains()| == 2
    ensures MainChains()[0].aligned == MainChains()[1].aligned
    ensures MainChains()[0].split == MainChains()[1].split
    ensures MainChains()[0].vcfs == MainChains()[1].vcfs
    ensures MainChains()[0].trimmed != MainChains()[1].trimmed
  {
    ChainOutputs(InputFastqPairs[0]);
    ChainOutputs(InputFastqPairs[1]);
    assert InputFastqPairs[0].r1[3] != InputFastqPairs[1].r1[3];
  }
}
