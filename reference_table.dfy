/**
 * The fixed reference data of the genome scale: the 25 chromosome identifiers in
 * display order and the length in base pairs of each.
 */
module ReferenceTable {
  import opened Spans

  /** `CHROMOSOMES`: the autosomes 1 to 22, then X, Y and the mitochondrial M. */
  const Chromosomes: seq<string> := [
    "1", "2", "3", "4", "5", "6", "7", "8", "9", "10", "11", "12", "13",
    "14", "15", "16", "17", "18", "19", "20", "21", "22", "X", "Y", "M"
  ]

  /** `CHROMOSOME_LENGTHS`: base-pair length of each chromosome, keyed by identifier. */
  const ChromosomeLengths: map<string, int> := map[
    "1" := 249250621,
    "2" := 243199373,
    "3" := 198022430,
    "4" := 191154276,
    "5" := 180915260,
    "6" := 171115067,
    "7" := 159138663,
    "8" := 146364022,
    "9" := 141213431,
    "10" := 135534747,
    "11" := 135006516,
    "12" := 133851895,
    "13" := 115169878,
    "14" := 107349540,
    "15" := 102531392,
    "16" := 90354753,
    "17" := 81195210,
    "18" := 78077248,
    "19" := 59128983,
    "20" := 63025520,
    "21" := 48129895,
    "22" := 51304566,
    "X" := 155270560,
    "Y" := 59373566,
    "M" := 16571
  ]

  /** No identifier occurs twice in the list. */
  ghost predicate Distinct(cs: seq<string>)
  {
    forall i, j :: 0 <= i < j < |cs| ==> cs[i] != cs[j]
  }

  /** `[0, CHROMOSOME_LENGTHS[c]]`: the full domain of a known chromosome. */
  function ReferenceDomain(c: string): Domain
    requires c in ChromosomeLengths
  {
    Domain(0, ChromosomeLengths[c])
  }

  /** No chromosome identifier is listed twice. */
  lemma ChromosomesDistinct()
    ensures |Chromosomes| == 25
    ensures Distinct(Chromosomes)
  {
  }

  /** The length table is keyed by exactly the listed identifiers. */
  lemma LengthsKeyedByChromosomes()
    ensures ChromosomeLengths.Keys == set c | c in Chromosomes
  {
  }

  /** Every chromosome in the length table has a strictly positive length. */
  lemma LengthsPositive()
    ensures forall c :: c in ChromosomeLengths ==> ChromosomeLengths[c] > 0
  {
  }

  /** The domains the scale builds from the tables, one per chromosome in display order. */
  function ReferenceDomains(): (ds: seq<Domain>)
    ensures |ds| == |Chromosomes|
    ensures forall i :: 0 <= i < |ds| ==> ds[i] == ReferenceDomain(Chromosomes[i])
    ensures forall i :: 0 <= i < |ds| ==> ds[i].lower == 0 && ds[i].upper > 0
  {
    LengthsKeyedByChromosomes();
    LengthsPositive();
    seq(|Chromosomes|, i requires 0 <= i < |Chromosomes| => ReferenceDomain(Chromosomes[i]))
  }

  /** The reference domains written out, in display order. */
  lemma ReferenceDomainsListed()
    ensures ReferenceDomains() == [
      Domain(0, 249250621), Domain(0, 243199373), Domain(0, 198022430), Domain(0, 191154276),
      Domain(0, 180915260), Domain(0, 171115067), Domain(0, 159138663), Domain(0, 146364022),
      Domain(0, 141213431), Domain(0, 135534747), Domain(0, 135006516), Domain(0, 133851895),
      Domain(0, 115169878), Domain(0, 107349540), Domain(0, 102531392), Domain(0, 90354753),
      Domain(0, 81195210), Domain(0, 78077248), Domain(0, 59128983), Domain(0, 63025520),
      Domain(0, 48129895), Domain(0, 51304566), Domain(0, 155270560), Domain(0, 59373566),
      Domain(0, 16571)
    ]
  {
  }

  /** The cumulative span of five domains, accumulated one at a time. */
  lemma CumulativeSpanOfFive(d0: Domain, d1: Domain, d2: Domain, d3: Domain, d4: Domain)
    ensures CumulativeSpan([d0, d1, d2, d3, d4]) == Span(d0) + Span(d1) + Span(d2) + Span(d3) + Span(d4)
  {
    assert [d0][..0] == [];
    assert CumulativeSpan([d0]) == Span(d0);
    assert [d0, d1][..1] == [d0];
    assert CumulativeSpan([d0, d1]) == Span(d0) + Span(d1);
    assert [d0, d1, d2][..2] == [d0, d1];
    assert CumulativeSpan([d0, d1, d2]) == Span(d0) + Span(d1) + Span(d2);
    assert [d0, d1, d2, d3][..3] == [d0, d1, d2];
    assert CumulativeSpan([d0, d1, d2, d3]) == Span(d0) + Span(d1) + Span(d2) + Span(d3);
    assert [d0, d1, d2, d3, d4][..4] == [d0, d1, d2, d3];
  }

  /**
   * The whole reference genome spans 3095693983 base pairs, the sum of the 25
   * listed lengths.
   */
  lemma ReferenceTotal()
    ensures CumulativeSpan(ReferenceDomains()) == 3095693983
  {
    ReferenceDomainsListed();
    var a, b, c, d, e :=
      [Domain(0, 249250621), Domain(0, 243199373), Domain(0, 198022430), Domain(0, 191154276), Domain(0, 180915260)],
      [Domain(0, 171115067), Domain(0, 159138663), Domain(0, 146364022), Domain(0, 141213431), Domain(0, 135534747)],
      [Domain(0, 135006516), Domain(0, 133851895), Domain(0, 115169878), Domain(0, 107349540), Domain(0, 102531392)],
      [Domain(0, 90354753), Domain(0, 81195210), Domain(0, 78077248), Domain(0, 59128983), Domain(0, 63025520)],
      [Domain(0, 48129895), Domain(0, 51304566), Domain(0, 155270560), Domain(0, 59373566), Domain(0, 16571)];
    assert ReferenceDomains() == a + b + c + d + e;
    CumulativeSpanOfFive(Domain(0, 249250621), Domain(0, 243199373), Domain(0, 198022430), Domain(0, 191154276), Domain(0, 180915260));
    CumulativeSpanOfFive(Domain(0, 171115067), Domain(0, 159138663), Domain(0, 146364022), Domain(0, 141213431), Domain(0, 135534747));
    CumulativeSpanOfFive(Domain(0, 135006516), Domain(0, 133851895), Domain(0, 115169878), Domain(0, 107349540), Domain(0, 102531392));
    CumulativeSpanOfFive(Domain(0, 90354753), Domain(0, 81195210), Domain(0, 78077248), Domain(0, 59128983), Domain(0, 63025520));
    CumulativeSpanOfFive(Domain(0, 48129895), Domain(0, 51304566), Domain(0, 155270560), Domain(0, 59373566), Domain(0, 16571));
    CumulativeSpanAppend(a, b);
    CumulativeSpanAppend(a + b, c);
    CumulativeSpanAppend(a + b + c, d);
    CumulativeSpanAppend(a + b + c + d, e);
  }

  /** Chromosome 1, the longest, covers 249250621 / 3095693983 (about 8.05%) of the genome. */
  lemma ReferenceRatioOfChromosome1()
    ensures RatiosDefined(ReferenceDomains())
    ensures Ratios(ReferenceDomains())[0] == 249250621.0 / 3095693983.0
  {
    ReferenceTotal();
    ReferenceDomainsListed();
  }
}
