/**
 * Grouping the Swissgrid production table by energy carrier (the
 * Stromproduktion scripts): the list of distinct carriers in order of first
 * appearance, and one frame of rows per carrier.
 */
module Carriers {
  import opened Frames

  /** One row of the production table: date, carrier (`Energietraeger`) and production in GWh. */
  datatype Record = Record(date: string, carrier: string, production: real)

  /** The column `df['Energietraeger']`. */
  function CarrierColumn(rows: seq<Record>): (col: seq<string>)
    ensures |col| == |rows| && forall i :: 0 <= i < |rows| ==> col[i] == rows[i].carrier
  {
    seq(|rows|, i requires 0 <= i < |rows| => rows[i].carrier)
  }

  /** The column `Produktion_GWh` of a frame. */
  function ProductionColumn(rows: seq<Record>): (col: seq<real>)
    ensures |col| == |rows| && forall i :: 0 <= i < |rows| ==> col[i] == rows[i].production
  {
    seq(|rows|, i requires 0 <= i < |rows| => rows[i].production)
  }

  /** Each value of `s` at its first appearance, in order of appearance. */
  function Distinct<T(==)>(s: seq<T>): seq<T>
  {
    if s == [] then []
    else
      var d := Distinct(s[..|s| - 1]);
      if s[|s| - 1] in d then d else d + [s[|s| - 1]]
  }

  /** The distinct list holds every value of `s`, nothing else, and none twice. */
  lemma {:induction false} DistinctElements<T>(s: seq<T>)
    ensures NoDuplicates(Distinct(s))
    ensures forall x | x in s :: x in Distinct(s)
    ensures forall x | x in Distinct(s) :: x in s
  {
    if s != [] {
      var init := s[..|s| - 1];
      DistinctElements(init);
      assert s == init + [s[|s| - 1]];
    }
  }

  /** Values are listed in the order of their first occurrence in `s`. */
  lemma {:induction false} DistinctOrder<T>(s: seq<T>)
    ensures forall x | x in Distinct(s) :: x in s
    ensures forall i, j :: 0 <= i < j < |Distinct(s)| ==> FirstIndex(s, Distinct(s)[i]) < FirstIndex(s, Distinct(s)[j])
  {
    DistinctElements(s);
    if s != [] {
      var init := s[..|s| - 1];
      var last := s[|s| - 1];
      var d := Distinct(init);
      DistinctOrder(init);
      DistinctElements(init);
      assert s == init + [last];
      forall x | x in d
        ensures FirstIndex(s, x) == FirstIndex(init, x)
      {
        FirstIndexAppend(init, [last], x);
      }
      if last !in d {
        assert last !in init;
        assert FirstIndex(s, last) == |init|;
      }
    }
  }

  /**
   * The loop over `df['Energietraeger']` that appends a carrier to
   * `Energiearten` unless it is already there.
   */
  method DistinctCarriers(column: seq<string>) returns (kinds: seq<string>)
    ensures kinds == Distinct(column)
    ensures NoDuplicates(kinds)
    ensures forall c | c in column :: c in kinds
    ensures forall c | c in kinds :: c in column
    ensures forall i, j :: 0 <= i < j < |kinds| ==> FirstIndex(column, kinds[i]) < FirstIndex(column, kinds[j])
  {
    kinds := [];
    for i := 0 to |column|
      invariant kinds == Distinct(column[..i])
    {
      assert column[..i + 1][..i] == column[..i];
      if !(column[i] in kinds) {
        kinds := kinds + [column[i]];
      }
    }
    assert column[..|column|] == column;
    DistinctElements(column);
    DistinctOrder(column);
  }

  /** `df.loc[df['Energietraeger'] == label]`: exactly the rows of that carrier. */
  function ByCarrier(rows: seq<Record>, carrier: string): (r: seq<Record>)
    ensures forall x :: x in r <==> x in rows && x.carrier == carrier
  {
    Where(rows, (x: Record) => x.carrier == carrier)
  }

  /** The carrier filter keeps the original row order: it distributes over concatenation. */
  lemma ByCarrierAppend(a: seq<Record>, b: seq<Record>, carrier: string)
    ensures ByCarrier(a + b, carrier) == ByCarrier(a, carrier) + ByCarrier(b, carrier)
  {
    WhereAppend(a, b, (x: Record) => x.carrier == carrier);
  }

  /** The six carriers the scripts select by name. */
  const Fluss: string := "Flusskraft"
  const Kern: string := "Kernkraft"
  const Speicher: string := "Speicherkraft"
  const Therm: string := "Thermische"
  const Photo: string := "Photovoltaik"
  const Wind: string := "Wind"
  const Labels: seq<string> := [Fluss, Kern, Speicher, Therm, Photo, Wind]

  /** The six names the script filters on are pairwise different. */
  lemma LabelsDistinct()
    ensures NoDuplicates(Labels)
  {
  }

  /** `df_fluss`, `df_kern`, `df_speicher`, `df_therm`, `df_photo`, `df_wind`, in that order. */
  function CarrierFrames(rows: seq<Record>): (frames: seq<seq<Record>>)
    ensures |frames| == |Labels|
    ensures forall i, x :: 0 <= i < |Labels| ==> (x in frames[i] <==> x in rows && x.carrier == Labels[i])
    ensures forall i, j, x :: 0 <= i < j < |Labels| && x in frames[i] ==> x !in frames[j]
  {
    seq(|Labels|, i requires 0 <= i < |Labels| => ByCarrier(rows, Labels[i]))
  }

  /** Total number of rows the filters for `labels` select. */
  function TotalSelected(rows: seq<Record>, labels: seq<string>): nat
  {
    if labels == [] then 0 else |ByCarrier(rows, labels[0])| + TotalSelected(rows, labels[1..])
  }

  /** How often `c` occurs in `labels`. */
  function Occurrences(labels: seq<string>, c: string): nat
  {
    if labels == [] then 0 else (if labels[0] == c then 1 else 0) + Occurrences(labels[1..], c)
  }

  /** One more row adds one selected row per label equal to its carrier. */
  lemma {:induction false} TotalSelectedAppend(rows: seq<Record>, x: Record, labels: seq<string>)
    ensures TotalSelected(rows + [x], labels) == TotalSelected(rows, labels) + Occurrences(labels, x.carrier)
  {
    if labels != [] {
      var keep := (y: Record) => y.carrier == labels[0];
      WhereAppend(rows, [x], keep);
      assert Where([x], keep) == Where([], keep) + (if keep(x) then [x] else []);
      TotalSelectedAppend(rows, x, labels[1..]);
    }
  }

  /** A label list without duplicates holds each of its labels once. */
  lemma {:induction false} OccursOnce(labels: seq<string>, c: string)
    requires NoDuplicates(labels)
    ensures Occurrences(labels, c) == if c in labels then 1 else 0
  {
    if labels != [] {
      OccursOnce(labels[1..], c);
      if labels[0] == c {
        assert c !in labels[1..];
      }
    }
  }

  /**
   * Filters for distinct labels that cover every carrier in the table split
   * it: together they select each row exactly once.
   */
  lemma {:induction false} Partition(rows: seq<Record>, labels: seq<string>)
    requires NoDuplicates(labels)
    requires forall x | x in rows :: x.carrier in labels
    ensures TotalSelected(rows, labels) == |rows|
  {
    if rows == [] {
      ZeroSelected(labels);
    } else {
      var init := rows[..|rows| - 1];
      var last := rows[|rows| - 1];
      assert rows == init + [last];
      Partition(init, labels);
      TotalSelectedAppend(init, last, labels);
      OccursOnce(labels, last.carrier);
    }
  }

  /** Nothing is selected from an empty table. */
  lemma {:induction false} ZeroSelected(labels: seq<string>)
    ensures TotalSelected([], labels) == 0
  {
    if labels != [] {
      ZeroSelected(labels[1..]);
    }
  }

  /** The per-carrier frames for the distinct carrier list together hold every row once. */
  lemma DistinctCarriersPartition(rows: seq<Record>)
    ensures TotalSelected(rows, Distinct(CarrierColumn(rows))) == |rows|
  {
    var col := CarrierColumn(rows);
    DistinctElements(col);
    forall x | x in rows
      ensures x.carrier in Distinct(col)
    {
      var i :| 0 <= i < |rows| && rows[i] == x;
      assert col[i] == x.carrier;
    }
    Partition(rows, Distinct(col));
  }

  /**
   * When every row belongs to one of the six named carriers, the six counts
   * the script prints add up to the number of rows.
   */
  lemma SixFramesPartition(rows: seq<Record>)
    requires forall x | x in rows :: x.carrier in Labels
    ensures |ByCarrier(rows, Fluss)| + |ByCarrier(rows, Kern)| + |ByCarrier(rows, Speicher)|
          + |ByCarrier(rows, Therm)| + |ByCarrier(rows, Photo)| + |ByCarrier(rows, Wind)| == |rows|
  {
    var labels := Labels;
    LabelsDistinct();
    Partition(rows, labels);
    var l1 := labels[1..];
    var l2 := l1[1..];
    var l3 := l2[1..];
    var l4 := l3[1..];
    var l5 := l4[1..];
    assert labels[0] == Fluss && l1[0] == Kern && l2[0] == Speicher && l3[0] == Therm && l4[0] == Photo && l5 == [Wind];
    assert TotalSelected(rows, l5[1..]) == 0;
    assert TotalSelected(rows, l5) == |ByCarrier(rows, Wind)|;
    assert TotalSelected(rows, l4) == |ByCarrier(rows, Photo)| + TotalSelected(rows, l5);
    assert TotalSelected(rows, l3) == |ByCarrier(rows, Therm)| + TotalSelected(rows, l4);
    assert TotalSelected(rows, l2) == |ByCarrier(rows, Speicher)| + TotalSelected(rows, l3);
    assert TotalSelected(rows, l1) == |ByCarrier(rows, Kern)| + TotalSelected(rows, l2);
  }
}
