/**
 * The genome scale: the domain of a genome-coordinate axis, laid out chromosome
 * by chromosome. It keeps parallel lists of chromosome names and `[0, length]`
 * domains, plus "filtered" copies of both, all fixed when the scale is built.
 */
module Scales {
  import opened Wrappers
  import opened JsArrays
  import opened Spans
  import opened ReferenceTable
  import opened HumanFormat

  /**
   * Parallel lists of distinct chromosome names and their domains, each domain
   * being the reference interval `[0, length]` of its chromosome.
   */
  ghost predicate WellFormedLayout(cs: seq<string>, ds: seq<Domain>)
  {
    && |cs| == |ds|
    && Distinct(cs)
    && forall i :: 0 <= i < |cs| ==> cs[i] in ChromosomeLengths && ds[i] == ReferenceDomain(cs[i])
  }

  /** In a well-formed layout every domain starts at 0 and ends at a positive bound. */
  lemma LayoutDomainsPositive(cs: seq<string>, ds: seq<Domain>)
    requires WellFormedLayout(cs, ds)
    ensures forall i :: 0 <= i < |ds| ==> ds[i].lower == 0 && ds[i].upper > 0
    ensures AllSpansPositive(ds)
  {
    LengthsPositive();
  }

  /**
   * The ratios over a well-formed layout are defined, each lies in (0, 1], and
   * when there is at least one chromosome they add up to exactly 1.
   */
  lemma LayoutRatios(cs: seq<string>, ds: seq<Domain>)
    requires WellFormedLayout(cs, ds)
    ensures RatiosDefined(ds)
    ensures forall i :: 0 <= i < |ds| ==> 0.0 < Ratios(ds)[i] <= 1.0
    ensures ds != [] ==> Sum(Ratios(ds)) == 1.0
  {
    LayoutDomainsPositive(cs, ds);
    RatiosInUnitInterval(ds);
    if ds != [] {
      RatiosSumToOne(ds);
    }
  }

  /** The index of the first entry of `cs` equal to `chromosome`, or -1. */
  function IndexOfChromosome(cs: seq<string>, chromosome: string): (i: int)
    ensures -1 <= i < |cs|
    ensures i == -1 <==> chromosome !in cs
    ensures 0 <= i ==> cs[i] == chromosome && chromosome !in cs[..i]
  {
    FindIndex(cs, c => c == chromosome)
  }

  class GenomeScale {
    const id: string
    const name: string
    const chromosomes: seq<string>
    const chromosomesFiltered: seq<string>
    const domains: seq<Domain>
    const domainsFiltered: seq<Domain>

    /**
     * Both the full and the filtered lists are well-formed layouts, and every
     * filtered chromosome is one of the full list's chromosomes.
     */
    ghost predicate Valid()
    {
      && WellFormedLayout(chromosomes, domains)
      && WellFormedLayout(chromosomesFiltered, domainsFiltered)
      && forall c :: c in chromosomesFiltered ==> c in chromosomes
    }

    /**
     * A scale over the whole reference genome, with the filtered lists starting
     * out equal to the full ones.
     */
    constructor (id: string, name: string)
      ensures Valid()
      ensures Id() == id && Name() == name
      ensures chromosomes == Chromosomes && GetDomains() == ReferenceDomains()
      ensures chromosomesFiltered == chromosomes && GetDomainsFiltered() == GetDomains()
      ensures GetChromosomeRatiosFiltered() == GetChromosomeRatios()
    {
      this.id := id;
      this.name := name;
      chromosomes := Chromosomes;
      chromosomesFiltered := Chromosomes;
      var ds := ReferenceDomains();
      domains := ds;
      domainsFiltered := ds;
      ChromosomesDistinct();
      LengthsKeyedByChromosomes();
    }

    function Id(): string
    {
      id
    }

    function Name(): string
    {
      name
    }

    /**
     * The domain of the named chromosome. The method this models passes the name
     * itself to `findIndex`; this is the documented intent instead: the domain
     * at the index of the first equal name, `undefined` (`None`) when absent.
     */
    function GetDomain(chromosome: string): (d: Option<Domain>)
      requires Valid()
      ensures d.Some? <==> chromosome in chromosomes
      ensures forall i :: 0 <= i < |chromosomes| && chromosomes[i] == chromosome ==> d == Some(domains[i])
      ensures d.Some? ==> d.value.lower == 0 && d.value.upper == ChromosomeLengths[chromosome]
    {
      At(domains, IndexOfChromosome(chromosomes, chromosome))
    }

    /** The domains of all chromosomes, in order: entry i is `[0, length]` of chromosome i. */
    function GetDomains(): (ds: seq<Domain>)
      requires Valid()
      ensures |ds| == |chromosomes|
      ensures forall i :: 0 <= i < |ds| ==> ds[i].lower == 0 && ds[i].upper > 0
      ensures forall i :: 0 <= i < |ds| ==> chromosomes[i] in ChromosomeLengths && ds[i] == ReferenceDomain(chromosomes[i])
    {
      LayoutDomainsPositive(chromosomes, domains);
      domains
    }

    /** As `GetDomain`, over the filtered lists (with the same correction). */
    function GetDomainFiltered(chromosome: string): (d: Option<Domain>)
      requires Valid()
      ensures d.Some? <==> chromosome in chromosomesFiltered
      ensures forall i :: 0 <= i < |chromosomesFiltered| && chromosomesFiltered[i] == chromosome ==>
        d == Some(domainsFiltered[i])
      ensures d.Some? ==> d.value.lower == 0 && d.value.upper == ChromosomeLengths[chromosome]
    {
      At(domainsFiltered, IndexOfChromosome(chromosomesFiltered, chromosome))
    }

    /** The domains of the filtered chromosomes, in order, parallel to their names. */
    function GetDomainsFiltered(): (ds: seq<Domain>)
      requires Valid()
      ensures |ds| == |chromosomesFiltered|
      ensures forall i :: 0 <= i < |ds| ==> ds[i].lower == 0 && ds[i].upper > 0
      ensures forall i :: 0 <= i < |ds| ==>
        chromosomesFiltered[i] in ChromosomeLengths && ds[i] == ReferenceDomain(chromosomesFiltered[i])
    {
      LayoutDomainsPositive(chromosomesFiltered, domainsFiltered);
      domainsFiltered
    }

    /** Each chromosome's share of the total length of all chromosomes. */
    function GetChromosomeRatios(): (r: seq<real>)
      requires Valid()
      ensures |r| == |domains|
      ensures RatiosDefined(domains) && r == Ratios(domains)
      ensures forall i :: 0 <= i < |r| ==> 0.0 < r[i] <= 1.0
      ensures domains != [] ==> Sum(r) == 1.0
    {
      LayoutRatios(chromosomes, domains);
      Ratios(domains)
    }

    /** Each filtered chromosome's share of the total length of the filtered chromosomes. */
    function GetChromosomeRatiosFiltered(): (r: seq<real>)
      requires Valid()
      ensures |r| == |domainsFiltered|
      ensures RatiosDefined(domainsFiltered) && r == Ratios(domainsFiltered)
      ensures forall i :: 0 <= i < |r| ==> 0.0 < r[i] <= 1.0
      ensures domainsFiltered != [] ==> Sum(r) == 1.0
    {
      LayoutRatios(chromosomesFiltered, domainsFiltered);
      Ratios(domainsFiltered)
    }

    /**
     * `"chr" + chromosome + ":" + position`: the one string that reads back as
     * exactly this chromosome and position.
     */
    function ToHuman(chromosome: string, position: int): (s: string)
      ensures |s| > 3 && s[..3] == "chr"
      ensures forall t :: ParseHuman(t) == Some((chromosome, position)) <==> t == s
    {
      LabelsCanonical(chromosome, position);
      "chr" + chromosome + ":" + DecimalString(position)
    }

    /** `getDomain` as written: `findIndex` is handed the name, which is not callable. */
    function GetDomainAsWritten(chromosome: string): (r: Result<Option<Domain>, JsError>)
      ensures r == Failure(TypeError)
    {
      match CallFindIndex(chromosomes, NotCallable(chromosome))
      case Failure(e) => Failure(e)
      case Success(i) => Success(At(domains, i))
    }

    /** `getDomainFiltered` as written, with the same non-callable argument. */
    function GetDomainFilteredAsWritten(chromosome: string): (r: Result<Option<Domain>, JsError>)
      ensures r == Failure(TypeError)
    {
      match CallFindIndex(chromosomesFiltered, NotCallable(chromosome))
      case Failure(e) => Failure(e)
      case Success(i) => Success(At(domainsFiltered, i))
    }
  }

  /**
   * The lookups as written throw even for a chromosome the scale holds, whose
   * domain the corrected lookups return.
   */
  lemma LookupAsWrittenThrows(g: GenomeScale, chromosome: string)
    requires g.Valid() && chromosome in g.chromosomesFiltered
    ensures g.GetDomainAsWritten(chromosome).Failure? && g.GetDomain(chromosome).Some?
    ensures g.GetDomainFilteredAsWritten(chromosome).Failure? && g.GetDomainFiltered(chromosome).Some?
  {
  }

  /** A filtered chromosome's domain lies within its unfiltered domain. */
  lemma FilteredDomainWithinDomain(g: GenomeScale, chromosome: string)
    requires g.Valid() && g.GetDomainFiltered(chromosome).Some?
    ensures g.GetDomain(chromosome).Some?
    ensures g.GetDomain(chromosome).value.lower <= g.GetDomainFiltered(chromosome).value.lower
    ensures g.GetDomainFiltered(chromosome).value.upper <= g.GetDomain(chromosome).value.upper
  {
  }
}
