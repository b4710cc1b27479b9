/**
 * The scatter/regression script: the same carrier grouping as the
 * visualisation script, then the river-power and photovoltaic production
 * series cut down to their last 3000 values so that they can be plotted and
 * fitted against each other. The fit (`np.polyfit`) and the correlation
 * (`np.corrcoef`) are floating-point library calls and are not modelled.
 */
module Scatter {
  import opened Frames
  import opened Carriers

  /** How many trailing values each series keeps. */
  const Kept: nat := 3000

  /**
   * The reduction as the script writes it: `s[-(3000-len(s)):]`. It keeps a
   * suffix of `s`, but only a series of at least 3000 values keeps exactly
   * 3000; a shorter one keeps `min(len, 3000 - len)` values.
   */
  function ReduceAsWritten<T>(s: seq<T>): (r: seq<T>)
    ensures |r| <= |s| && r == s[|s| - |r|..]
    ensures |s| >= Kept ==> |r| == Kept
    ensures |s| < Kept ==> |r| == if Kept - |s| <= |s| then Kept - |s| else |s|
  {
    SliceFrom(s, -(Kept - |s|))
  }

  /** The intended reduction `s[-3000:]`: the last 3000 values, or the whole of a shorter series. */
  function LastValues<T>(s: seq<T>): (r: seq<T>)
    ensures |r| == if |s| <= Kept then |s| else Kept
    ensures r == s[|s| - |r|..]
  {
    SliceFrom(s, -(Kept as int))
  }

  /** Whenever a series has at least 3000 values, the written slice is the intended one. */
  lemma AsWrittenLongSeries<T>(s: seq<T>)
    requires |s| >= Kept
    ensures ReduceAsWritten(s) == LastValues(s)
    ensures |ReduceAsWritten(s)| == Kept
  {
  }

  /** A series of 2000 values: the written slice drops its first 1000, the intended one keeps them all. */
  lemma AsWrittenDropsValues()
    ensures var s := seq(2000, i => i as real);
      ReduceAsWritten(s) == s[1000..] && LastValues(s) == s && ReduceAsWritten(s) != LastValues(s)
  {
  }

  /** Two series of at least 3000 values reduce to series of equal length, as the scatter plot needs. */
  lemma EqualLengths<T, U>(a: seq<T>, b: seq<U>)
    requires |a| >= Kept && |b| >= Kept
    ensures |LastValues(a)| == |LastValues(b)| == Kept
  {
  }

  /**
   * `r` is what the written slice keeps of `s`: a suffix of `s`, the last
   * 3000 values of a series of at least 3000, and only `min(len, 3000 - len)`
   * values of a shorter one.
   */
  predicate CutAsWritten<T(==)>(s: seq<T>, r: seq<T>)
  {
    && |r| <= |s| && r == s[|s| - |r|..]
    && (|s| >= Kept ==> r == LastValues(s) && |r| == Kept)
    && (|s| < Kept ==> |r| == if Kept - |s| <= |s| then Kept - |s| else |s|)
  }

  /** One carrier's production series cut with the slice as written (`df_fluss_red`, `df_photo_red`). */
  function ReducedProduction(rows: seq<Record>, carrier: string): (r: seq<real>)
    ensures CutAsWritten(ProductionColumn(ByCarrier(rows, carrier)), r)
  {
    var s := ProductionColumn(ByCarrier(rows, carrier));
    if |s| >= Kept then AsWrittenLongSeries(s); ReduceAsWritten(s) else ReduceAsWritten(s)
  }

  /**
   * The script from the carrier list to the two reduced series:
   * `Energiearten`, then the river-power and photovoltaic frames (the other
   * four frames only feed plots), each cut with the slice as written.
   */
  method ScatterSeries(rows: seq<Record>) returns (kinds: seq<string>, flussRed: seq<real>, photoRed: seq<real>)
    ensures NoDuplicates(kinds)
    ensures forall c :: c in kinds <==> c in CarrierColumn(rows)
    ensures forall i, j :: 0 <= i < j < |kinds| ==>
      FirstIndex(CarrierColumn(rows), kinds[i]) < FirstIndex(CarrierColumn(rows), kinds[j])
    ensures CutAsWritten(ProductionColumn(ByCarrier(rows, Fluss)), flussRed)
    ensures CutAsWritten(ProductionColumn(ByCarrier(rows, Photo)), photoRed)
    ensures |ByCarrier(rows, Fluss)| >= Kept && |ByCarrier(rows, Photo)| >= Kept ==>
      |flussRed| == |photoRed| == Kept
  {
    var column := CarrierColumn(rows);
    kinds := DistinctCarriers(column);
    flussRed := ReducedProduction(rows, Fluss);
    photoRed := ReducedProduction(rows, Photo);
  }
}
