/**
 * Joining the cantonal rent table to the canton boundaries for the rent map:
 * keep one boundary row per canton, drop the Switzerland total from the rent
 * table, translate two canton names, pair the two sorted tables by position
 * (`m_kanton`) and finally look up a rent for every boundary row by name
 * (`miet_geo`). `sort_values` is represented by its output: the sorted tables
 * are inputs, and only what the script does with them is modelled.
 */
module RentMap {
  import opened Wrappers
  import opened Frames

  /** A row of the boundaries file: canton `NAME` and canton area `KANTONSFLA`, missing on secondary parts of a canton. */
  datatype GeoRow = GeoRow(name: string, area: Option<real>)

  /** A row of the rent table: canton name (`Unnamed: 0`) and mean rent (`Durch-schnittlicher Mietpreis `). */
  datatype RentRow = RentRow(name: string, rent: real)

  /** The exception that ends the script: a missing row label (`KeyError`) or a name `list.index` cannot find (`ValueError`). */
  datatype LookupError = KeyError(index: nat) | ValueError(name: string)

  /** `geo_df[geo_df['KANTONSFLA'].notna()]`: the rows that carry a canton area, one per canton. */
  function MainEntries(geo: seq<GeoRow>): (r: seq<GeoRow>)
    ensures forall g :: g in r <==> g in geo && g.area.Some?
  {
    Where(geo, (g: GeoRow) => g.area.Some?)
  }

  /** The area filter keeps the file's order: it distributes over concatenation. */
  lemma MainEntriesAppend(a: seq<GeoRow>, b: seq<GeoRow>)
    ensures MainEntries(a + b) == MainEntries(a) + MainEntries(b)
  {
    WhereAppend(a, b, (g: GeoRow) => g.area.Some?);
  }

  /** `df1s[1:]`: every row but the first (the total for Switzerland), in order. */
  function DropTotal(rows: seq<RentRow>): (r: seq<RentRow>)
    ensures |r| == if rows == [] then 0 else |rows| - 1
    ensures forall i :: 0 <= i < |r| ==> r[i] == rows[i + 1]
  {
    SliceFrom(rows, 1)
  }

  /** `df.replace({'Unnamed: 0': {from: to}})`: a canton called `from` is renamed `to`; every other name and every rent is kept. */
  function Rename(rows: seq<RentRow>, from: string, to: string): (r: seq<RentRow>)
    ensures |r| == |rows|
    ensures forall i :: 0 <= i < |rows| ==> r[i].rent == rows[i].rent
    ensures forall i :: 0 <= i < |rows| && rows[i].name != from ==> r[i].name == rows[i].name
    ensures forall i :: 0 <= i < |rows| && rows[i].name == from ==> r[i].name == to
  {
    seq(|rows|, i requires 0 <= i < |rows| => if rows[i].name == from then RentRow(to, rows[i].rent) else rows[i])
  }

  const Wallis: string := "Wallis"
  const Valais: string := "Valais"
  const Tessin: string := "Tessin"
  const Ticino: string := "Ticino"

  /** The two translations the script applies, Wallis to Valais and then Tessin to Ticino. */
  function Translate(rows: seq<RentRow>): seq<RentRow>
  {
    Rename(Rename(rows, Wallis, Valais), Tessin, Ticino)
  }

  /**
   * Translating touches only the two German names: they become the names the
   * boundaries file uses, no row keeps either of them, and all other names
   * and all rents stay as they were.
   */
  lemma TranslateEffect(rows: seq<RentRow>)
    ensures |Translate(rows)| == |rows|
    ensures forall i :: 0 <= i < |rows| ==> Translate(rows)[i].rent == rows[i].rent
    ensures forall i :: 0 <= i < |rows| && rows[i].name == Wallis ==> Translate(rows)[i].name == Valais
    ensures forall i :: 0 <= i < |rows| && rows[i].name == Tessin ==> Translate(rows)[i].name == Ticino
    ensures forall i :: 0 <= i < |rows| && rows[i].name != Wallis && rows[i].name != Tessin ==>
      Translate(rows)[i].name == rows[i].name
    ensures forall i :: 0 <= i < |rows| ==> Translate(rows)[i].name != Wallis && Translate(rows)[i].name != Tessin
  {
  }

  /** Translating twice is translating once. */
  lemma TranslateIdempotent(rows: seq<RentRow>)
    ensures Translate(Translate(rows)) == Translate(rows)
  {
    TranslateEffect(rows);
    TranslateEffect(Translate(rows));
  }

  /** The name column of a frame of rent rows. */
  function RentNames(rows: seq<RentRow>): (col: seq<string>)
    ensures |col| == |rows| && forall i :: 0 <= i < |rows| ==> col[i] == rows[i].name
  {
    seq(|rows|, i requires 0 <= i < |rows| => rows[i].name)
  }

  /**
   * The `m_kanton` loop: for every row number of the sorted rent table, append
   * the sorted boundary table's name at that row. A boundary table with fewer
   * rows raises `KeyError` at the first row number it lacks.
   */
  method KantonNames(geoSort: seq<GeoRow>, rents: seq<RentRow>) returns (res: Result<seq<string>, LookupError>)
    ensures res.Success? <==> |rents| <= |geoSort|
    ensures res.Success? ==> |res.value| == |rents| && forall i :: 0 <= i < |rents| ==> res.value[i] == geoSort[i].name
    ensures res.Failure? ==> res.error == KeyError(|geoSort|)
  {
    var mKanton: seq<string> := [];
    for num := 0 to |rents|
      invariant num <= |geoSort|
      invariant |mKanton| == num && forall i :: 0 <= i < num ==> mKanton[i] == geoSort[i].name
    {
      if num >= |geoSort| {
        return Failure(KeyError(num));
      }
      mKanton := mKanton + [geoSort[num].name];
    }
    return Success(mKanton);
  }

  /**
   * The `miet_geo` loop: for every row of the full boundary table, the rent
   * at the first position of its name in `m_kanton`. The first name that
   * `m_kanton` lacks makes `list.index` raise `ValueError`.
   */
  method RentsByGeoRow(geo: seq<GeoRow>, mKanton: seq<string>, rents: seq<RentRow>) returns (res: Result<seq<real>, LookupError>)
    requires |mKanton| == |rents|
    ensures res.Success? <==> forall j :: 0 <= j < |geo| ==> geo[j].name in mKanton
    ensures res.Success? ==> |res.value| == |geo|
    ensures res.Success? ==> forall j :: 0 <= j < |geo| ==> res.value[j] == rents[FirstIndex(mKanton, geo[j].name)].rent
    ensures res.Failure? ==>
              exists j :: (0 <= j < |geo| && geo[j].name !in mKanton && res.error == ValueError(geo[j].name) &&
                           forall k :: 0 <= k < j ==> geo[k].name in mKanton)
  {
    var mietGeo: seq<real> := [];
    for j := 0 to |geo|
      invariant |mietGeo| == j
      invariant forall k :: 0 <= k < j ==> geo[k].name in mKanton && mietGeo[k] == rents[FirstIndex(mKanton, geo[k].name)].rent
    {
      var item := geo[j].name;
      match IndexOf(mKanton, item)
      case None =>
        return Failure(ValueError(item));
      case Some(idx) =>
        mietGeo := mietGeo + [rents[idx].rent];
    }
    return Success(mietGeo);
  }

  /** The boundary and rent tables are paired row by row: row i of both names the same canton. */
  predicate Aligned(geoSort: seq<GeoRow>, rents: seq<RentRow>)
  {
    |rents| <= |geoSort| && forall i :: 0 <= i < |rents| ==> geoSort[i].name == rents[i].name
  }

  /**
   * From the sorted tables to `miet_geo`: build `m_kanton`, then look up every
   * boundary row. When the tables are aligned (the point of sorting and
   * translating) and no canton is listed twice, the lookup succeeds exactly
   * when every boundary name is a canton of the rent table, and each boundary
   * row then gets the rent of its own canton.
   */
  method RentMapping(geo: seq<GeoRow>, geoSort: seq<GeoRow>, rents: seq<RentRow>) returns (res: Result<seq<real>, LookupError>)
    ensures |rents| > |geoSort| ==> res == Failure(KeyError(|geoSort|))
    ensures res.Success? ==> |res.value| == |geo|
    ensures Aligned(geoSort, rents) ==> (res.Success? <==> forall j :: 0 <= j < |geo| ==> geo[j].name in RentNames(rents))
    ensures Aligned(geoSort, rents) && NoDuplicates(RentNames(rents)) && res.Success? ==>
      forall j, i :: 0 <= j < |geo| && 0 <= i < |rents| && rents[i].name == geo[j].name ==> res.value[j] == rents[i].rent
  {
    var names := KantonNames(geoSort, rents);
    if names.Failure? {
      return Failure(names.error);
    }
    var mKanton := names.value;
    res := RentsByGeoRow(geo, mKanton, rents);
    if Aligned(geoSort, rents) {
      assert mKanton == RentNames(rents);
      if res.Success? && NoDuplicates(RentNames(rents)) {
        forall j, i | 0 <= j < |geo| && 0 <= i < |rents| && rents[i].name == geo[j].name
          ensures res.value[j] == rents[i].rent
        {
          FirstIndexUnique(mKanton, i);
        }
      }
    }
  }
}
