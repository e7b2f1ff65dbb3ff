/** The binary encoding of candidate solutions (optinum/data.py): a search
    space fixes how many bits encode one variable, a chromosome is a flat list
    of bits, a gene is one variable's slice of it, and a gene decodes to
    `unsigned(bits) / 10^precision + start`. */
module Data {
  import opened Common

  /** One element of a chromosome's list. The move operators write the
      integers 0 and 1 (`int(not(...))`); `Chromosome.random` writes the
      characters '0' and '1' produced by string formatting. Both kinds occur
      side by side, so the model keeps them apart. */
  datatype Allele = Num(v: int) | Char(c: char)

  function Pow2(k: nat): (r: nat)
    ensures r >= 1
  {
    if k == 0 then 1 else 2 * Pow2(k - 1)
  }

  function Pow10(k: nat): (r: nat)
    ensures r >= 1
  {
    if k == 0 then 1 else 10 * Pow10(k - 1)
  }

  lemma {:induction false} Pow2Monotone(i: nat, j: nat)
    requires i <= j
    ensures Pow2(i) <= Pow2(j)
  {
    if i < j {
      Pow2Monotone(i, j - 1);
    }
  }

  /** The number of binary digits of n (0 for n == 0). For n >= 1 this is
      `int(log2(n)) + 1` computed exactly on integers. */
  function BitLength(n: nat): nat
  {
    if n == 0 then 0 else 1 + BitLength(n / 2)
  }

  /** The bit length of n >= 1 is the k with 2^(k-1) <= n < 2^k. */
  lemma {:induction false} BitLengthBounds(n: nat)
    requires n >= 1
    ensures BitLength(n) >= 1
    ensures Pow2(BitLength(n) - 1) <= n < Pow2(BitLength(n))
  {
    if n >= 2 {
      BitLengthBounds(n / 2);
    }
  }

  /** ... and it is the only such k. */
  lemma BitLengthUnique(n: nat, k: nat)
    requires k >= 1 && Pow2(k - 1) <= n < Pow2(k)
    ensures BitLength(n) == k
  {
    BitLengthBounds(n);
    var b := BitLength(n);
    if b < k {
      Pow2Monotone(b, k - 1);
      assert false;
    } else if b > k {
      Pow2Monotone(k, b - 1);
      assert false;
    }
  }

  /** A search space. `size` is the number of bits per gene. */
  datatype Space = Space(start: int, stop: int, precision: nat, size: nat)

  /** The integer domain size `(stop - start) * 10^precision`. */
  function DomainSize(start: int, stop: int, precision: nat): int
  {
    (stop - start) * Pow10(precision)
  }

  /** `Space(start, stop, precision)`: the bit width is `int(log2(n)) + 1` for
      the domain size n. For n == 0 numpy's log2 gives -inf and `int` raises
      OverflowError; for n < 0 it gives nan and `int` raises ValueError. */
  function NewSpace(start: int, stop: int, precision: nat): (r: Result<Space>)
    ensures r.Ok? <==> DomainSize(start, stop, precision) >= 1
    ensures DomainSize(start, stop, precision) == 0 ==> r == Err(OverflowError)
    ensures DomainSize(start, stop, precision) < 0 ==> r == Err(ValueError)
    ensures r.Ok? ==>
      var s := r.value;
      && s.start == start && s.stop == stop && s.precision == precision
      && s.size >= 1
      && Pow2(s.size - 1) <= DomainSize(start, stop, precision) < Pow2(s.size)
  {
    var n := DomainSize(start, stop, precision);
    if n == 0 then Err(OverflowError)
    else if n < 0 then Err(ValueError)
    else
      BitLengthBounds(n);
      Ok(Space(start, stop, precision, BitLength(n)))
  }

  /** `Space(-2, 2, 2)`: domain size 400, nine bits per gene. */
  lemma ExampleSpace()
    ensures NewSpace(-2, 2, 2) == Ok(Space(-2, 2, 2, 9))
  {
    assert DomainSize(-2, 2, 2) == 400;
    assert Pow2(8) == 256 && Pow2(9) == 512;
    BitLengthUnique(400, 9);
  }

  /** Alleles that `int(''.join(str(a) for a in ...), 2)` reads as one binary
      digit each. */
  predicate IsBit(a: Allele)
  {
    a == Num(0) || a == Num(1) || a == Char('0') || a == Char('1')
  }

  predicate AllBits(s: seq<Allele>)
  {
    forall i :: 0 <= i < |s| ==> IsBit(s[i])
  }

  function Digit(a: Allele): nat
  {
    if a == Num(1) || a == Char('1') then 1 else 0
  }

  /** The unsigned big-endian value of a bit list. */
  function Unsigned(s: seq<Allele>): nat
  {
    if s == [] then 0 else Digit(s[0]) * Pow2(|s| - 1) + Unsigned(s[1..])
  }

  lemma {:induction false} UnsignedBound(s: seq<Allele>)
    ensures Unsigned(s) < Pow2(|s|)
  {
    if s != [] {
      UnsignedBound(s[1..]);
    }
  }

  lemma {:induction false} UnsignedSnoc(s: seq<Allele>, a: Allele)
    ensures Unsigned(s + [a]) == 2 * Unsigned(s) + Digit(a)
  {
    if s != [] {
      assert (s + [a])[1..] == s[1..] + [a];
      UnsignedSnoc(s[1..], a);
    }
  }

  /** `int(binary_string, 2)`: an empty string or a non-binary digit raises
      ValueError. */
  function ParseBinary(s: seq<Allele>): (r: Result<nat>)
    ensures r.Ok? <==> s != [] && AllBits(s)
    ensures r.Ok? ==> r.value == Unsigned(s) && r.value < Pow2(|s|)
  {
    UnsignedBound(s);
    if s == [] || !AllBits(s) then Err(ValueError) else Ok(Unsigned(s))
  }

  /** A gene: a locus and the allele slice, decoded in the given space. */
  datatype Gene = Gene(locus: int, allele: seq<Allele>, space: Space)

  /** `Gene.value()`: the allele's unsigned value divided by 10^precision,
      plus the space's start. */
  function GeneValue(g: Gene): (r: Result<real>)
    ensures r.Ok? <==> g.allele != [] && AllBits(g.allele)
    ensures r.Ok? ==>
      && r.value == Unsigned(g.allele) as real / Pow10(g.space.precision) as real + g.space.start as real
      && g.space.start as real <= r.value
      && r.value < Pow2(|g.allele|) as real / Pow10(g.space.precision) as real + g.space.start as real
  {
    match ParseBinary(g.allele)
    case Err(e) => Err(e)
    case Ok(d) =>
      DivideBound(d, Pow2(|g.allele|), Pow10(g.space.precision));
      Ok(d as real / Pow10(g.space.precision) as real + g.space.start as real)
  }

  lemma DivideBound(d: nat, bound: nat, q: nat)
    requires d < bound && q >= 1
    ensures 0.0 <= d as real / q as real < bound as real / q as real
  {
  }

  /** `format(d, 'b')`: the binary digits of d without leading zeros ("0" for 0). */
  function BinaryDigits(d: nat): seq<Allele>
  {
    if d < 2 then [Char(if d == 1 then '1' else '0')]
    else BinaryDigits(d / 2) + [Char(if d % 2 == 1 then '1' else '0')]
  }

  function Zeros(k: nat): (r: seq<Allele>)
    ensures |r| == k && forall i :: 0 <= i < k ==> r[i] == Char('0')
  {
    if k == 0 then [] else [Char('0')] + Zeros(k - 1)
  }

  /** `"{0:0<w>b}".format(d)` as a list of characters: the binary digits of d,
      padded on the left with '0' to width w (never truncated). */
  function Format(d: nat, w: nat): seq<Allele>
  {
    var b := BinaryDigits(d);
    if |b| < w then Zeros(w - |b|) + b else b
  }

  lemma {:induction false} BinaryDigitsCorrect(d: nat)
    ensures AllBits(BinaryDigits(d))
    ensures Unsigned(BinaryDigits(d)) == d
    ensures |BinaryDigits(d)| == if d == 0 then 1 else BitLength(d)
  {
    if d >= 2 {
      BinaryDigitsCorrect(d / 2);
      var init := BinaryDigits(d / 2);
      var last := Char(if d % 2 == 1 then '1' else '0');
      UnsignedSnoc(init, last);
      AllBitsAppend(init, [last]);
      assert BinaryDigits(d) == init + [last];
    }
  }

  lemma AllBitsAppend(a: seq<Allele>, b: seq<Allele>)
    requires AllBits(a) && AllBits(b)
    ensures AllBits(a + b)
  {
    forall i | 0 <= i < |a + b| ensures IsBit((a + b)[i]) {
      if i < |a| { assert (a + b)[i] == a[i]; } else { assert (a + b)[i] == b[i - |a|]; }
    }
  }

  lemma {:induction false} UnsignedLeadingZeros(k: nat, s: seq<Allele>)
    ensures Unsigned(Zeros(k) + s) == Unsigned(s)
  {
    if k > 0 {
      assert (Zeros(k) + s)[0] == Char('0');
      assert (Zeros(k) + s)[1..] == Zeros(k - 1) + s;
      UnsignedLeadingZeros(k - 1, s);
    } else {
      assert Zeros(k) + s == s;
    }
  }

  /** A value below 2^w has at most w binary digits. */
  lemma {:induction false} BitLengthAtMost(d: nat, w: nat)
    requires d < Pow2(w)
    ensures BitLength(d) <= w
  {
    if d > 0 {
      BitLengthAtMost(d / 2, w - 1);
    }
  }

  lemma BinaryDigitsFit(d: nat, w: nat)
    requires w >= 1 && d < Pow2(w)
    ensures |BinaryDigits(d)| <= w
  {
    BinaryDigitsCorrect(d);
    BitLengthAtMost(d, w);
  }

  /** Formatting a value below 2^w gives exactly w binary digits that read
      back as that value: the encoding of `Chromosome.random` and the decoding
      of `Gene.value` are inverse. */
  lemma FormatRoundTrip(d: nat, w: nat)
    requires w >= 1 && d < Pow2(w)
    ensures |Format(d, w)| == w
    ensures AllBits(Format(d, w))
    ensures Unsigned(Format(d, w)) == d
  {
    BinaryDigitsCorrect(d);
    BinaryDigitsFit(d, w);
    var b := BinaryDigits(d);
    if |b| < w {
      UnsignedLeadingZeros(w - |b|, b);
      AllBitsAppend(Zeros(w - |b|), b);
    }
  }

  /** The bits `Chromosome.random` builds from the drawn gene values: the
      concatenation of their `size`-wide binary formats. */
  function RandomBits(draws: seq<nat>, size: nat): seq<Allele>
  {
    if draws == [] then [] else RandomBits(draws[..|draws| - 1], size) + Format(draws[|draws| - 1], size)
  }

  /** Every drawn value is below 2^size (as `random.randrange(0, 2**size)`
      guarantees). */
  predicate ValidDraws(draws: seq<nat>, size: nat)
  {
    forall k :: 0 <= k < |draws| ==> draws[k] < Pow2(size)
  }

  /** `Chromosome.random(g, space)` has `g * size` bits; block k is the
      zero-padded binary of the k-th drawn value. */
  lemma RandomBitsShape(draws: seq<nat>, size: nat)
    requires size >= 1 && ValidDraws(draws, size)
    ensures |RandomBits(draws, size)| == |draws| * size
    ensures AllBits(RandomBits(draws, size))
    ensures forall k :: 0 <= k < |draws| ==> BlockIs(RandomBits(draws, size), k, size, Format(draws[k], size))
  {
    RandomBitsLength(draws, size);
    RandomBitsAllBits(draws, size);
    RandomBitsBlocks(draws, size);
  }

  lemma {:induction false} RandomBitsLength(draws: seq<nat>, size: nat)
    requires size >= 1 && ValidDraws(draws, size)
    ensures |RandomBits(draws, size)| == |draws| * size
  {
    if draws != [] {
      var init := draws[..|draws| - 1];
      RandomBitsLength(init, size);
      FormatRoundTrip(draws[|draws| - 1], size);
      assert RandomBits(draws, size) == RandomBits(init, size) + Format(draws[|draws| - 1], size);
      MulSucc(|init|, size);
    }
  }

  lemma {:induction false} RandomBitsAllBits(draws: seq<nat>, size: nat)
    requires size >= 1 && ValidDraws(draws, size)
    ensures AllBits(RandomBits(draws, size))
  {
    if draws != [] {
      var init := draws[..|draws| - 1];
      RandomBitsAllBits(init, size);
      FormatRoundTrip(draws[|draws| - 1], size);
      AllBitsAppend(RandomBits(init, size), Format(draws[|draws| - 1], size));
    }
  }

  lemma {:induction false} RandomBitsBlocks(draws: seq<nat>, size: nat)
    requires size >= 1 && ValidDraws(draws, size)
    ensures forall k :: 0 <= k < |draws| ==> BlockIs(RandomBits(draws, size), k, size, Format(draws[k], size))
  {
    if draws != [] {
      var init := draws[..|draws| - 1];
      var last := draws[|draws| - 1];
      RandomBitsBlocks(init, size);
      RandomBitsLength(init, size);
      FormatRoundTrip(last, size);
      var r0 := RandomBits(init, size);
      var f := Format(last, size);
      assert RandomBits(draws, size) == r0 + f;
      forall k | 0 <= k < |draws|
        ensures BlockIs(r0 + f, k, size, Format(draws[k], size))
      {
        BlockOfAppend(r0, f, |init|, size, k);
        if k < |init| {
          assert draws[k] == init[k];
          assert BlockIs(r0, k, size, Format(init[k], size));
        }
      }
    }
  }

  /** Block k of width `size` of `bits` is `block`. */
  predicate BlockIs(bits: seq<Allele>, k: nat, size: nat, block: seq<Allele>)
  {
    k * size + size <= |bits| && bits[k * size .. k * size + size] == block
  }

  lemma BlockOfAppend(r0: seq<Allele>, f: seq<Allele>, n: nat, size: nat, k: nat)
    requires size >= 1 && |r0| == n * size && |f| == size && k <= n
    ensures k < n ==> forall b :: BlockIs(r0, k, size, b) ==> BlockIs(r0 + f, k, size, b)
    ensures k == n ==> BlockIs(r0 + f, k, size, f)
  {
    if k < n {
      assert (k + 1) * size <= n * size by {
        MulMonotone(k + 1, n, size);
      }
      assert (r0 + f)[k * size .. k * size + size] == r0[k * size .. k * size + size];
    } else {
      assert (r0 + f)[k * size .. k * size + size] == f;
    }
  }

  lemma MulSucc(n: nat, size: nat)
    ensures (n + 1) * size == n * size + size
  {
  }

  lemma MulMonotone(a: nat, b: nat, c: nat)
    requires a <= b
    ensures a * c <= b * c
  {
  }

  /** Python slice `s[lo:hi]` for non-negative bounds: clamped to the list. */
  function Slice(s: seq<Allele>, lo: nat, hi: nat): (r: seq<Allele>)
    ensures hi <= |s| && lo <= hi ==> r == s[lo..hi]
    ensures |r| <= |s|
  {
    var l := if lo < |s| then lo else |s|;
    var h := if hi < |s| then hi else |s|;
    if l <= h then s[l..h] else []
  }

  /** The genes `get_genes` builds from locus `locus` on: one per locus in
      `range(locus, geneNumber, geneSize)`. */
  function GenesFrom(info: seq<Allele>, geneNumber: int, geneSize: nat, space: Space, locus: nat): seq<Gene>
    requires geneSize >= 1
    decreases geneNumber - locus
  {
    if locus >= geneNumber then []
    else [Gene(locus, Slice(info, locus, locus + geneSize), space)]
         + GenesFrom(info, geneNumber, geneSize, space, locus + geneSize)
  }

  /** The gene loci are 0, size, 2*size, ... below the gene number. */
  lemma {:induction false} GenesFromLoci(info: seq<Allele>, geneNumber: int, geneSize: nat, space: Space, locus: nat)
    requires geneSize >= 1
    ensures locus >= geneNumber ==> GenesFrom(info, geneNumber, geneSize, space, locus) == []
    ensures forall k :: 0 <= k < |GenesFrom(info, geneNumber, geneSize, space, locus)| ==>
      && GenesFrom(info, geneNumber, geneSize, space, locus)[k].locus == locus + k * geneSize
      && GenesFrom(info, geneNumber, geneSize, space, locus)[k].locus < geneNumber
      && GenesFrom(info, geneNumber, geneSize, space, locus)[k].space == space
    decreases geneNumber - locus
  {
    if locus < geneNumber {
      GenesFromLoci(info, geneNumber, geneSize, space, locus + geneSize);
      var g := GenesFrom(info, geneNumber, geneSize, space, locus);
      var rest := GenesFrom(info, geneNumber, geneSize, space, locus + geneSize);
      assert g == [Gene(locus, Slice(info, locus, locus + geneSize), space)] + rest;
      forall k | 0 <= k < |g|
        ensures g[k].locus == locus + k * geneSize && g[k].locus < geneNumber && g[k].space == space
      {
        if k > 0 {
          assert g[k] == rest[k - 1];
          assert rest[k - 1].locus == (locus + geneSize) + (k - 1) * geneSize;
          assert (locus + geneSize) + (k - 1) * geneSize == locus + k * geneSize;
        }
      }
    }
  }

  function Alleles(genes: seq<Gene>): seq<Allele>
  {
    if genes == [] then [] else genes[0].allele + Alleles(genes[1..])
  }

  /** When the gene number is the list length (as `from_raw` sets it), the
      genes' alleles concatenate back to the stored bits. */
  lemma {:induction false} GenesConcatenate(info: seq<Allele>, geneSize: nat, space: Space, locus: nat)
    requires geneSize >= 1 && locus <= |info|
    ensures Alleles(GenesFrom(info, |info|, geneSize, space, locus)) == info[locus..]
    decreases |info| - locus
  {
    if locus < |info| {
      var next := if locus + geneSize < |info| then locus + geneSize else |info|;
      var rest := GenesFrom(info, |info|, geneSize, space, locus + geneSize);
      if locus + geneSize < |info| {
        GenesConcatenate(info, geneSize, space, locus + geneSize);
      } else {
        assert rest == [];
      }
      assert Slice(info, locus, locus + geneSize) == info[locus..next];
      assert info[locus..] == info[locus..next] + info[next..];
    }
  }

  /** A chromosome: a gene count, a gene width and the stored bit list. */
  class Chromosome {
    const geneNumber: int
    const geneSize: nat
    const space: Space
    var info: seq<Allele>

    constructor (geneNumber: int, space: Space)
      ensures this.geneNumber == geneNumber && geneSize == space.size && this.space == space
      ensures info == []
    {
      this.geneNumber := geneNumber;
      this.geneSize := space.size;
      this.space := space;
      info := [];
    }

    /** `get_raw_data`: a copy of the stored bits (a Dafny sequence is a
        value, so changing the copy cannot change the chromosome). */
    method GetRawData() returns (r: seq<Allele>)
      ensures r == info
    {
      r := info;
    }

    /** `overwrite`: ValueError exactly when the list length differs from the
        gene number; otherwise the list is stored as given. */
    method Overwrite(genes: seq<Allele>) returns (err: Option<Exc>)
      modifies this`info
      ensures err == (if |genes| != geneNumber then Some(ValueError) else None)
      ensures info == if |genes| != geneNumber then old(info) else genes
    {
      if |genes| != geneNumber {
        return Some(ValueError);
      }
      info := genes;
      err := None;
    }

    /** `Chromosome.from_raw`: never raises; the gene number is the list length
        and the stored bits are exactly the list. */
    static method FromRaw(genes: seq<Allele>, space: Space) returns (c: Chromosome)
      ensures fresh(c)
      ensures c.geneNumber == |genes| && c.geneSize == space.size && c.space == space
      ensures c.info == genes
    {
      c := new Chromosome(|genes|, space);
      var err := c.Overwrite(genes);
      assert err == None;
    }

    /** `Chromosome.random`: one drawn value per gene (the draws of
        `random.randrange` are the input), each appended as its `size`-wide
        binary format. */
    static method Random(geneNumber: int, space: Space, draws: seq<nat>) returns (c: Chromosome)
      requires |draws| == if geneNumber > 0 then geneNumber else 0
      requires ValidDraws(draws, space.size)
      ensures fresh(c)
      ensures c.info == RandomBits(draws, space.size)
      ensures c.geneNumber == |c.info| && c.space == space
      ensures space.size >= 1 ==> |c.info| == |draws| * space.size && AllBits(c.info)
    {
      var geneticData: seq<Allele> := [];
      var k := 0;
      while k < |draws|
        invariant 0 <= k <= |draws|
        invariant geneticData == RandomBits(draws[..k], space.size)
      {
        assert draws[..k + 1][..k] == draws[..k];
        geneticData := geneticData + Format(draws[k], space.size);
        k := k + 1;
      }
      assert draws[..k] == draws;
      if space.size >= 1 {
        RandomBitsShape(draws, space.size);
      }
      c := FromRaw(geneticData, space);
    }

    /** `get_genes`: one gene per locus in `range(0, geneNumber, geneSize)`,
        holding the (clamped) slice of that width. A zero width makes `range`
        raise ValueError. */
    method GetGenes() returns (r: Result<seq<Gene>>)
      ensures geneSize == 0 <==> r == Err(ValueError)
      ensures geneSize >= 1 ==> r == Ok(GenesFrom(info, geneNumber, geneSize, space, 0))
    {
      if geneSize == 0 {
        return Err(ValueError);
      }
      var genes: seq<Gene> := [];
      var locus: nat := 0;
      while locus < geneNumber
        invariant genes + GenesFrom(info, geneNumber, geneSize, space, locus)
               == GenesFrom(info, geneNumber, geneSize, space, 0)
        decreases geneNumber - locus
      {
        var allele := Slice(info, locus, locus + geneSize);
        genes := genes + [Gene(locus, allele, space)];
        locus := locus + geneSize;
      }
      assert GenesFrom(info, geneNumber, geneSize, space, locus) == [];
      assert genes + [] == genes;
      r := Ok(genes);
    }
  }
}
