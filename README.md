# Data-visualisation teaching scripts: a verified model of their data handling

The repository is a set of teaching scripts that simulate Brownian motion, load
energy-production and rent-price tables, and plot them. This project models the
parts of those scripts that compute something, and proves what they compute:

- **Brownian trajectories** (`brownian.dfy`, module `Brownian`). The function
  `brownian(x0, n, dt, delta, out)` writes the running sums of the normal draws
  into a caller's buffer in place, then adds each row's start value. The draws
  enter as a matrix of increments with one row per start value. A numpy view
  `x[:, col:]` is a `View(buf, col)` over a Dafny `array2<real>`. The method
  fills the view in place and returns it. The call sites preallocate an
  `m × (n+1)` matrix, set column 0 to the origin and pass `x[:, 1:]`. All three
  call sites are `SimulatePaths`: 1D at lines 99-104, 2D at 143-150 and 3D at
  205-212 of `Visualisierung_Basics/Brownian_motion_1D_2D_3D.py`. The 2D and 3D
  sites use `np.zeros` instead of `np.empty`, so column 0 is the origin there
  too.
- **The scalar walk** (`random_walk.dfy`, module `RandomWalk`). This is the loop
  of the basics script that moves `x` by one draw per step and appends to the
  `traj` and `zeit` lists. It is specified by the same `Trajectory` function as
  one row of `brownian`.
- **Grouping by energy carrier** (`carriers.dfy`, module `Carriers`). This is
  the `Energiearten` loop, which lists each carrier at its first appearance. It
  also covers the six `df.loc[df['Energietraeger'] == ...]` filters.
- **The scatter script's series** (`scatter.dfy`, module `Scatter`). It repeats
  the grouping, then cuts the river-power and photovoltaic series with the
  slice the script writes. That slice keeps the last 3000 values only of a
  series with at least 3000 of them (see "## Findings").
- **The rent map join** (`rent_map.dfy`, module `RentMap`). It keeps the
  boundary rows that carry a canton area and drops the Switzerland total. It
  translates two canton names and pairs the sorted tables by position
  (`m_kanton`). Finally it looks up a rent for every boundary row by name
  (`miet_geo`). A failed lookup raises in Python; here it is a `Failure`
  result.
- `frames.dfy` (module `Frames`) holds the Python and pandas primitives these
  steps share. These are boolean-mask selection, `s[start:]` with Python's
  clamping of negative starts, and `list.index`. `wrappers.dfy` holds
  `Option` and `Result`.

Positions and production values are `real`. Nothing here says anything about
floating-point rounding.

## Model

| member | source | states |
|---|---|---|
| `Brownian.Brownian` | Visualisierung_Basics/Brownian_motion_1D_2D_3D.py:59-76 | Without `out`, the method fills and returns a fresh buffer of shape `(len(x0), n)`. With an `out` view of that shape, it fills the view in place and returns that same view. Either way, entry `(i, k)` is `x0[i]` plus increments `0..k` of row `i` only. Columns left of the view are unchanged. A view of another shape fails with `ShapeMismatch` and leaves the buffer untouched. |
| `Brownian.CumSumInto` | Visualisierung_Basics/Brownian_motion_1D_2D_3D.py:71 | `np.cumsum(r, axis=-1, out=v)`: cell `k` of row `i` of the view is the sum of increments `0..k` of row `i`. Nothing left of the view changes. |
| `Brownian.AddStart` | Visualisierung_Basics/Brownian_motion_1D_2D_3D.py:74 | `out += expand_dims(x0)`: every cell of row `i` of the view grows by `x0[i]`. Nothing left of the view changes. |
| `Brownian.Trajectory` | Visualisierung_Basics/Brownian_motion_1D_2D_3D.py:71-74 | One row of the result has exactly one position per increment (`n` positions). |
| `Brownian.TrajectorySteps` | Visualisierung_Basics/Brownian_motion_1D_2D_3D.py:71-74 | The first position minus the start is increment 0. Consecutive positions differ by exactly one increment. |
| `Brownian.TrajectoryUnique` | Visualisierung_Basics/Brownian_motion_1D_2D_3D.py:71-74 | Converse of the step property: any sequence of `n` positions that moves by the increments from the start is the trajectory. |
| `Brownian.ZeroIncrements` | Visualisierung_Basics/Brownian_motion_1D_2D_3D.py:71-74 | When every increment is zero, every position equals the row's start value. |
| `Brownian.TrajectoryAppend` | 01_Visualisierung_Basics/visualization_basics.py:140-141 | One more increment appends exactly one position: the previous end plus that increment. |
| `Brownian.PathShape` | Visualisierung_Basics/Brownian_motion_1D_2D_3D.py:100-104 | A plotted path has `n + 1` positions and starts at the start value. It moves by one increment per step and ends at the start plus all increments. |
| `Brownian.SimulatePaths` | Visualisierung_Basics/Brownian_motion_1D_2D_3D.py:99-104 | The call site returns a fresh `m × (n+1)` matrix. Column 0 is the origin, untouched by the call. Row `i` is the whole path of start 0.0 under the increments of row `i`. |
| `RandomWalk.Walk` | 01_Visualisierung_Basics/visualization_basics.py:135-142 | After `n` steps, `traj` and `zeit` hold `n` entries each and `zeit[k] = k*dt`. `traj[k]` is the start plus steps `0..k`, and `traj[k] - traj[k-1]` is step `k`. The final `x` is the last entry of `traj`, or the start when `n = 0`. |
| `Carriers.DistinctCarriers` | 02-Zeitreihen_Beispiel_Stromproduktion/Bsp2_Visualisierung_Stromproduktion.py:83-86 | `Energiearten` has no duplicates. It holds exactly the values of the carrier column, in order of first occurrence. |
| `Carriers.DistinctElements` | 02-Zeitreihen_Beispiel_Stromproduktion/Bsp2_Visualisierung_Stromproduktion.py:84-86 | The distinct list holds every value of the column and nothing else, none twice. |
| `Carriers.DistinctOrder` | 02-Zeitreihen_Beispiel_Stromproduktion/Bsp2_Visualisierung_Stromproduktion.py:84-86 | If value `a` comes before `b` in the distinct list, the first occurrence of `a` in the column comes before that of `b`. |
| `Carriers.ByCarrier` | 02-Zeitreihen_Beispiel_Stromproduktion/Bsp2_Visualisierung_Stromproduktion.py:99 | A carrier filter holds a row if and only if the row is in the table with that carrier. |
| `Carriers.ByCarrierAppend` | 02-Zeitreihen_Beispiel_Stromproduktion/Bsp2_Visualisierung_Stromproduktion.py:99-104 | The filter keeps the table's order: filtering `a + b` gives the filtered `a` followed by the filtered `b`. |
| `Carriers.LabelsDistinct` | 02-Zeitreihen_Beispiel_Stromproduktion/Bsp2_Visualisierung_Stromproduktion.py:99-104 | The six carrier names the script filters on are pairwise different. |
| `Carriers.CarrierFrames` | 02-Zeitreihen_Beispiel_Stromproduktion/Bsp2_Visualisierung_Stromproduktion.py:99-104 | Frame `i` of the six holds exactly the rows of carrier `i`. No row is in two frames. |
| `Carriers.Partition` | 02-Zeitreihen_Beispiel_Stromproduktion/Bsp2_Visualisierung_Stromproduktion.py:110-117 | Filters for distinct names that cover every carrier select each row exactly once, so their counts add up to the table's length. |
| `Carriers.DistinctCarriersPartition` | 02-Zeitreihen_Beispiel_Stromproduktion/Bsp2_Visualisierung_Stromproduktion.py:83-104 | Filtering by every entry of `Energiearten` selects each row of the table exactly once. |
| `Carriers.SixFramesPartition` | 02-Zeitreihen_Beispiel_Stromproduktion/Bsp2_Visualisierung_Stromproduktion.py:110-117 | If every row belongs to one of the six named carriers, the six printed counts add up to the number of rows. |
| `Scatter.ReducedProduction` | 02-Zeitreihen_Beispiel_Stromproduktion/Bsp2_Scatterplot_Regression_Korrelation.py:206-207 | A carrier's production column cut as written (`df_fluss_red`, `df_photo_red`) is a suffix of it. A column of at least 3000 values keeps exactly its last 3000. A shorter one keeps only `min(len, 3000-len)` values. |
| `Scatter.ScatterSeries` | 02-Zeitreihen_Beispiel_Stromproduktion/Bsp2_Scatterplot_Regression_Korrelation.py:79-207 | Same guarantees for `Energiearten` as above. `df_fluss_red` and `df_photo_red` are their carriers' production series cut as written. When both series have at least 3000 values, both reduced series have exactly 3000 values. |
| `Scatter.ReduceAsWritten` | 02-Zeitreihen_Beispiel_Stromproduktion/Bsp2_Scatterplot_Regression_Korrelation.py:206-207 | `s[-(3000-len(s)):]` as written always keeps a suffix. It keeps exactly 3000 values when the series has at least 3000. A shorter series keeps only `min(len, 3000-len)`. |
| `Scatter.LastValues` | 02-Zeitreihen_Beispiel_Stromproduktion/Bsp2_Scatterplot_Regression_Korrelation.py:206-207 | The intended `s[-3000:]` is the suffix of length `min(len, 3000)`. |
| `Scatter.AsWrittenLongSeries` | 02-Zeitreihen_Beispiel_Stromproduktion/Bsp2_Scatterplot_Regression_Korrelation.py:206-207 | For a series of at least 3000 values, the slice as written equals the intended one and has 3000 values. |
| `Scatter.AsWrittenDropsValues` | 02-Zeitreihen_Beispiel_Stromproduktion/Bsp2_Scatterplot_Regression_Korrelation.py:206-207 | On a series of 2000 values, the slice as written keeps only the last 1000. The intended slice keeps all 2000. |
| `Scatter.EqualLengths` | 02-Zeitreihen_Beispiel_Stromproduktion/Bsp2_Scatterplot_Regression_Korrelation.py:200-207 | Two series of at least 3000 values reduce to series of the same length, 3000, as the scatter plot and the fit need. |
| `Frames.Where` | 03_Diagramm_und_Karte_Beispiel_Mietpreise/mietpreis_kartendarstellung.py:157 | Boolean-mask selection holds a row if and only if the row is in the frame and satisfies the mask. It is never longer than the frame. |
| `Frames.WhereAppend` | 03_Diagramm_und_Karte_Beispiel_Mietpreise/mietpreis_kartendarstellung.py:157 | Mask selection keeps row order: it distributes over concatenation. |
| `Frames.SliceFrom` | 02-Zeitreihen_Beispiel_Stromproduktion/Bsp2_Scatterplot_Regression_Korrelation.py:206-207 | `s[start:]` is a suffix of `s`. A non-negative start drops `start` values, or all of them. A negative start keeps the last `-start` values, or the whole sequence. |
| `Frames.FirstIndex` | 03_Diagramm_und_Karte_Beispiel_Mietpreise/mietpreis_kartendarstellung.py:276 | The returned position holds the value, and no earlier position does. |
| `Frames.IndexOf` | 03_Diagramm_und_Karte_Beispiel_Mietpreise/mietpreis_kartendarstellung.py:276 | `list.index` fails exactly when the value is absent. Otherwise it gives the first position holding the value. |
| `RentMap.MainEntries` | 03_Diagramm_und_Karte_Beispiel_Mietpreise/mietpreis_kartendarstellung.py:157 | `geo_notna` holds a row if and only if the row is in `geo_df` with `KANTONSFLA` present. |
| `RentMap.MainEntriesAppend` | 03_Diagramm_und_Karte_Beispiel_Mietpreise/mietpreis_kartendarstellung.py:157 | The area filter keeps the file's row order. |
| `RentMap.DropTotal` | 03_Diagramm_und_Karte_Beispiel_Mietpreise/mietpreis_kartendarstellung.py:199 | `df1s[1:]` is one row shorter, or empty for an empty table. Its row `i` is row `i + 1` of the input. |
| `RentMap.Rename` | 03_Diagramm_und_Karte_Beispiel_Mietpreise/mietpreis_kartendarstellung.py:216 | `replace` keeps the row count and every rent. It renames exactly the rows carrying the old name and keeps every other name. |
| `RentMap.TranslateEffect` | 03_Diagramm_und_Karte_Beispiel_Mietpreise/mietpreis_kartendarstellung.py:216-223 | After both renames, 'Wallis' rows are 'Valais' and 'Tessin' rows are 'Ticino'. Every other name and every rent is unchanged. No row is named 'Wallis' or 'Tessin' any more. |
| `RentMap.TranslateIdempotent` | 03_Diagramm_und_Karte_Beispiel_Mietpreise/mietpreis_kartendarstellung.py:216-223 | Applying the two renames again changes nothing. |
| `RentMap.KantonNames` | 03_Diagramm_und_Karte_Beispiel_Mietpreise/mietpreis_kartendarstellung.py:243-246 | `m_kanton` has one entry per rent row, and entry `i` is `geo_sort` NAME `i`. If `geo_sort` has fewer rows, the loop raises `KeyError` at the first missing row number. |
| `RentMap.RentsByGeoRow` | 03_Diagramm_und_Karte_Beispiel_Mietpreise/mietpreis_kartendarstellung.py:273-276 | The lookup succeeds exactly when every `geo_df` name is in `m_kanton`. `miet_geo` then has one entry per `geo_df` row, in order. Entry `j` is the rent at the first position of its name in `m_kanton`. Otherwise the loop raises `ValueError` for the first absent name. |
| `RentMap.RentMapping` | 03_Diagramm_und_Karte_Beispiel_Mietpreise/mietpreis_kartendarstellung.py:243-276 | The join from the sorted tables to `miet_geo`. Suppose the two sorted tables name the same canton in every row. Then it succeeds exactly when every boundary name is a canton of the rent table. If no canton is listed twice, each boundary row gets the rent of its own canton. |

## Left out

- The random draws (`norm.rvs`) are inputs: the increment matrix of `brownian` and the step list of the walk. Their distribution is not modelled. That includes the scales `delta*sqrt(dt)` and `delta**2*dt`, variance growth, independence between dimensions and seeded reproducibility. `dt` and `delta` only shape that distribution, so `brownian` takes neither.
- No error for `n < 0` or `dt <= 0`. `brownian` has no argument checks of its own. A negative `n` or `dt` could only fail inside the sampler, which is outside the model. So `n` is a `nat`, the shape of the draws.
- Only a one-dimensional `x0` (one start value per row) is modelled, which is how every call site uses `brownian`. A scalar `x0` and higher-rank start arrays are not.
- `x0` is passed as a copied sequence. In the scripts it is the view `x[:, 0]` of the same matrix. `Brownian.Brownian` proves that the columns left of the output view are never written, so the copy and the view agree throughout the call.
- All floating-point numerics: rounding, `np.sqrt`, `np.linspace` (the time axis of the Brownian plots), `np.arange`/`sin`/`cos`, `np.polyfit` and `np.corrcoef`.
- All plotting, figure state, `savefig`, `print` and displaying of frames.
- All file and dataset loading (`read_csv`, `read_excel`, `gpd.read_file`). Table columns enter as sequences of records.
- `sort_values`: the sorted tables `geo_sort` and `df1sr_sorted` are inputs to `RentMap.RentMapping`. Their alphabetical order is not modelled. The renames are stated on any rent table. The sorted result `df1sr_sorted` is an input, so the intermediate `df1s_sorted` does not appear.
- Pandas index labels: after `ignore_index=True` labels and positions coincide, so rows are addressed by position. The carrier filters keep the original labels, and the tail slices of the scatter script are read as positional slices.
- The four frames `df_kern`, `df_speicher`, `df_therm` and `df_wind` of the scatter script only feed plots, so `Scatter.ScatterSeries` builds just the river-power and photovoltaic frames. All six are modelled by `Carriers.CarrierFrames`.
- The single lookups `m_kanton.index('Zug')` and the matching rent cell (mietpreis_kartendarstellung.py:255, 262) are instances of `Frames.IndexOf`.
- `04-Molekulare_Visualisierung/Molecular_visualization.py`, `Beispiel_Mietpreise_Schweiz/mietpreis_diagramme.py` and `02-Zeitreihen_Beispiel_Stromproduktion/Bsp1_Visualisierung_Elektrizitaetsbilanz.py` are not part of this model. They wrap chemistry and plotting libraries or do plotting only.

## Findings

| source | as written | input that shows it | evidently intended | confidence | as-written member | corrected member |
|---|---|---|---|---|---|---|
| 02-Zeitreihen_Beispiel_Stromproduktion/Bsp2_Scatterplot_Regression_Korrelation.py:206-207 | `s[-(3000-len(s)):]` keeps the last 3000 values only when `len(s) >= 3000`. A shorter series keeps `min(len, 3000-len)` values. | A production series of 2000 values: the slice keeps only its last 1000 (`Scatter.AsWrittenDropsValues`) | `s[-3000:]`: the last 3000 values, or the whole of a shorter series, as the comment at line 200 says | medium: latent while every carrier has at least 3000 rows; not executed | `Scatter.ReduceAsWritten` | `Scatter.LastValues` |
