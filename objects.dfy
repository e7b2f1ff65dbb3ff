/** The second copy of the encoding (optinum/common/objects.py). Its genes do
    not hold a search space: `Gene.value` takes the lower bound and the
    precision as arguments. Its `Chromosome.get_genes` still passes a space to
    the two-argument `Gene` constructor, so it fails as soon as it builds a
    gene. */
module Objects {
  import opened Common
  import Data

  /** A gene of this copy: a locus and an allele slice, no space. */
  datatype Gene = Gene(locus: int, allele: seq<Data.Allele>)

  /** `Gene.value(min_xi, precision)`: `int(allele, 2) / 10^precision + min_xi`. */
  function GeneValue(g: Gene, minXi: real, precision: nat): (r: Result<real>)
    ensures r.Ok? <==> g.allele != [] && Data.AllBits(g.allele)
    ensures !r.Ok? ==> r == Err(ValueError)
    ensures r.Ok? ==>
      && r.value == Data.Unsigned(g.allele) as real / Data.Pow10(precision) as real + minXi
      && minXi <= r.value < Data.Pow2(|g.allele|) as real / Data.Pow10(precision) as real + minXi
  {
    match Data.ParseBinary(g.allele)
    case Err(e) => Err(e)
    case Ok(d) =>
      Data.DivideBound(d, Data.Pow2(|g.allele|), Data.Pow10(precision));
      Ok(d as real / Data.Pow10(precision) as real + minXi)
  }

  /** Decoding the `size`-wide format of a value gives back that value, scaled
      and shifted: the two halves of the encoding agree. */
  lemma ValueOfFormat(d: nat, size: nat, locus: int, minXi: real, precision: nat)
    requires size >= 1 && d < Data.Pow2(size)
    ensures GeneValue(Gene(locus, Data.Format(d, size)), minXi, precision)
         == Ok(d as real / Data.Pow10(precision) as real + minXi)
  {
    Data.FormatRoundTrip(d, size);
  }

  /** The chromosome copy; the same fields and list operations as in
      optinum/data.py. */
  class Chromosome {
    const geneNumber: int
    const geneSize: nat
    const space: Data.Space
    var info: seq<Data.Allele>

    constructor (geneNumber: int, space: Data.Space)
      ensures this.geneNumber == geneNumber && geneSize == space.size && this.space == space
      ensures info == []
    {
      this.geneNumber := geneNumber;
      this.geneSize := space.size;
      this.space := space;
      info := [];
    }

    /** `get_genes` as written: `range` raises ValueError on a zero width; an
        empty range gives `[]`; otherwise the first `Gene(locus, allele,
        space)` call passes one argument too many and raises TypeError. */
    function GetGenes(): (r: Result<seq<Gene>>)
      reads this
      ensures r.Ok? <==> geneSize != 0 && geneNumber <= 0
      ensures r.Ok? ==> r.value == []
      ensures !r.Ok? ==> r.exc == (if geneSize == 0 then ValueError else TypeError)
    {
      if geneSize == 0 then Err(ValueError)
      else if geneNumber <= 0 then Ok([])
      else Err(TypeError)
    }

    /** `get_raw_data`: a copy of the stored list. */
    method GetRawData() returns (r: seq<Data.Allele>)
      ensures r == info
    {
      r := info;
    }

    /** `overwrite`: ValueError on a length mismatch, else stores the list. */
    method Overwrite(genes: seq<Data.Allele>) returns (err: Option<Exc>)
      modifies this`info
      ensures err == (if |genes| != geneNumber then Some(ValueError) else None)
      ensures info == if |genes| != geneNumber then old(info) else genes
    {
      if |genes| != geneNumber {
        return Some(ValueError);
      }
      info := genes;
      err := None;
    }

    /** `Chromosome.from_raw`: never raises; stores exactly the given list. */
    static method FromRaw(genes: seq<Data.Allele>, space: Data.Space) returns (c: Chromosome)
      ensures fresh(c)
      ensures c.geneNumber == |genes| && c.geneSize == space.size && c.space == space
      ensures c.info == genes
    {
      c := new Chromosome(|genes|, space);
      var err := c.Overwrite(genes);
      assert err == None;
    }

    /** `Chromosome.random`, the drawn gene values given as input. */
    static method Random(geneNumber: int, space: Data.Space, draws: seq<nat>) returns (c: Chromosome)
      requires |draws| == if geneNumber > 0 then geneNumber else 0
      requires Data.ValidDraws(draws, space.size)
      ensures fresh(c)
      ensures c.info == Data.RandomBits(draws, space.size)
      ensures c.geneNumber == |c.info| && c.space == space
      ensures space.size >= 1 ==> |c.info| == |draws| * space.size && Data.AllBits(c.info)
    {
      var geneticData: seq<Data.Allele> := [];
      var k := 0;
      while k < |draws|
        invariant 0 <= k <= |draws|
        invariant geneticData == Data.RandomBits(draws[..k], space.size)
      {
        assert draws[..k + 1][..k] == draws[..k];
        geneticData := geneticData + Data.Format(draws[k], space.size);
        k := k + 1;
      }
      assert draws[..k] == draws;
      if space.size >= 1 {
        Data.RandomBitsShape(draws, space.size);
      }
      c := FromRaw(geneticData, space);
    }
  }
}
