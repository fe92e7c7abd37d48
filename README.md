# AutoCAD conflict detection, modelled in Dafny

`conflict-detection.py` checks CAD features that were converted into a
geodatabase. It looks for features that come too close to a feature of
interest: by default these are the features on the `RunningLine` layer.
The script does three things:

- It reads a threshold table into a catalog, per shape category (point,
  polyline, polygon, multipatch), of the clearance each layer needs.
- It converts candidate diameters between units. Only centimetres are
  known.
- It scans every interest feature against the candidates of every feature
  class of every category. A candidate is a conflict when its distance is
  within its layer's clearance plus its own radius.

The scan has two flags. `use_all_features` is meant to examine every layer
but the interest layer, not only the layers in the catalog; the model gives
its where clause that meaning (see "## Left out"). `find_all_conflicts`
keeps searching after the first conflict instead of stopping.

The project has five modules:

- `Units` (units.dfy) is `convert`.
- `Thresholds` (thresholds.dfy) is the catalog and its loading loop. The
  loop is the method `LoadThresholds`. It is proved equal to the
  specification function `Load`, and the loaded catalog's contents are
  proved as lemmas.
- `Scan` (scan.dfy) is the scan. It consists of four nested loop methods:
  `DetectConflicts` over interest features, `FindConflicts` over
  categories, `ScanCategory` over feature classes and `ScanRows` over rows.
  Their early-exit breaks are kept. Each method is proved equal to a
  specification function: `Report` or `Search`. `Search` walks the
  flattened visit order category → class → row.
- `ScanProperties` (scan_properties.dfy) proves what the scan promises:
  - where a run fails and why;
  - what each of the two search modes records, and how the two modes agree;
  - which rows are examined;
  - that a run in default mode over a loaded catalog cannot fail;
  - what the final list of conflicting features holds.
- `Wrappers` (wrappers.dfy) holds `Option`, `Result` and `Prepend`. A
  `Failure` result stands for a Python exception that ends the run.

The geodatabase is a value of type `Scan.FeatureSource`. It holds:

- the interest-class rows;
- the feature classes of each category;
- the rows of each class;
- the geometry engine's distance, as a given function over an abstract
  `Geometry` type.

The configuration globals are the value `Scan.Config`.

## Model

| member | source | states |
|---|---|---|
| Units.Convert | conflict-detection.py:43-49 | Converting between equal units, or between two units neither of which is `'cm'`, leaves the value unchanged. From `'cm'` it scales by 0.01 and to `'cm'` by 100. The sign is kept. |
| Units.ConvertRoundTrip | conflict-detection.py:43-49 | Converting there and back returns the value for any two unit names (over reals). |
| Units.ConvertExamples | conflict-detection.py:43-49 | 100 cm convert to 1 m. An unknown unit converts with factor 1. 1 m converts to 100 cm. |
| Thresholds.KeyRoundTrip | conflict-detection.py:76-82 | Each category's dictionary key selects that category and no other key does. |
| Thresholds.LabelSelects | conflict-detection.py:86-89 | A threshold row's label selects category `c` exactly when, lower-cased, it is `c`'s key, or it is `line` and `c` is polyline. |
| Thresholds.FileRow | conflict-detection.py:86-90 | The loop body lower-cases the label and reads `line` as `polyline`. A key that names no category fails with that row and key. Otherwise the row's distance is entered for its layer in that category and the layer is appended to the category's list. |
| Thresholds.FileNext | conflict-detection.py:84-90 | After a loaded prefix, a row whose label names no category fails the whole load with that row's error. Any other row extends the loaded prefix by one filed row. |
| Thresholds.LoadThresholds | conflict-detection.py:78-90 | The loading loop returns exactly the catalog, or the first error, that `Load` specifies for the table. |
| Thresholds.FileKeepsFailure | conflict-detection.py:84-89 | Once a row fails to load, loading the rest of the table keeps that error. |
| Thresholds.LoadFailsOnUnknownLabel | conflict-detection.py:86-89 | Loading fails exactly when some label names no category. The error names the first such row and the key it looked up. |
| Thresholds.LoadedLayers | conflict-detection.py:90 | After a load, each category's list of defined layers holds the layers of the rows filed under it, in table order, with repeats. |
| Thresholds.LayersOfMembers | conflict-detection.py:90 | A layer is on a category's list exactly when some row files it under that category. |
| Thresholds.ThresholdDefined | conflict-detection.py:89 | After a load, a layer has a clearance in a category exactly when some row files it there. |
| Thresholds.LastThresholdWins | conflict-detection.py:89 | The clearance of a layer in a category is the distance of the last row filing it there. |
| Thresholds.LoadedConsistent | conflict-detection.py:89-90 | In a loaded catalog, a layer has a clearance in a category exactly when it is on that category's list. |
| Scan.Where | conflict-detection.py:103 | A cursor with a where clause yields no more rows than the table, and exactly the rows that the clause admits. |
| Scan.WhereAppend | conflict-detection.py:103 | A cursor keeps the table's order: the admitted rows of two runs of rows are those of the first run followed by those of the second. |
| Scan.SearchAppend | conflict-detection.py:105-129 | Searching two runs of candidates is searching the first one, then going on with the second only if the first neither failed nor (in first-conflict mode) found a conflict. |
| Scan.ScanRows | conflict-detection.py:117-125 | The row loop with its break adds to the conflicts found so far exactly what the search of that class's rows specifies. |
| Scan.ContinueSearch | conflict-detection.py:124-129 | After a class or category, the conflicts found so far are final if the search failed or (in first-conflict mode) found one. Otherwise the search goes on from them. |
| Scan.ScanCategory | conflict-detection.py:107-127 | The class loop, with its Annotation skip and break, adds to the conflicts exactly what the search of the category's classes specifies. |
| Scan.FindConflicts | conflict-detection.py:105-129 | The category loop with its break returns exactly the conflict list, or the error, of the search in category → class → row order. |
| Scan.DetectConflicts | conflict-detection.py:102-131 | The interest-feature loop returns exactly `conflicting_features` as `Report` specifies it over the interest rows on the interest layer, or the first error. |
| ScanProperties.SearchFailure | conflict-detection.py:118 | A failed search reached a candidate whose layer has no clearance in its category. Every earlier candidate let the search go on. The error is that candidate's. |
| ScanProperties.SearchFailsAt | conflict-detection.py:118 | A search that reaches a candidate whose layer has no clearance fails. |
| ScanProperties.SearchRecords | conflict-detection.py:122-123 | Every recorded conflict is the record of some candidate that was within its threshold. |
| ScanProperties.QualifyingMembers | conflict-detection.py:120-123 | A record is among the qualifying records exactly when some candidate's assessment yields it. |
| ScanProperties.ExhaustiveSearch | conflict-detection.py:105-129 | With `find_all_conflicts`, the search succeeds exactly when every lookup does. It then records exactly the qualifying candidates, in search order. |
| ScanProperties.FirstConflictSearch | conflict-detection.py:124-129 | Without `find_all_conflicts`, a successful search records only the first qualifying candidate, or nothing when none qualifies. |
| ScanProperties.FirstConflictNone | conflict-detection.py:124-129 | Without `find_all_conflicts`, the search succeeds with no conflict exactly when every candidate's lookup succeeds and none is within its threshold. |
| ScanProperties.FirstConflictFound | conflict-detection.py:124-129 | Without `find_all_conflicts`, a conflict that is recorded is the record of some candidate, and every candidate before it was examined without a conflict. |
| ScanProperties.ModesAgree | conflict-detection.py:124-129 | A first-conflict search finds the first conflict of an exhaustive one. It fails only where the exhaustive one fails, and with the same error. |
| ScanProperties.LookupsSucceed | conflict-detection.py:118 | A search in which every lookup succeeds succeeds. |
| ScanProperties.VisitsOfMembers | conflict-detection.py:116-117 | The candidates of one class are its admitted rows, under its category and class. |
| ScanProperties.ClassVisitsMembers | conflict-detection.py:108-116 | The candidates of a category come from its classes other than Annotation, and are the rows the category's where clause admits. |
| ScanProperties.CategoryVisitsMembers | conflict-detection.py:106-108 | The candidates of a run of categories are those of each category in the run. |
| ScanProperties.InSearchOrder | conflict-detection.py:106-116 | The scan examines a row exactly when its class is listed for the row's category, the class is not Annotation, the row belongs to the class, and the where clause admits it. |
| ScanProperties.DefaultModeSucceeds | conflict-detection.py:111-118 | Without `use_all_features`, and with a consistent catalog, the search of an interest feature cannot fail, with the where clause as modelled (an empty layer list admits nothing). |
| ScanProperties.ReportSucceeds | conflict-detection.py:102-131 | A run succeeds exactly when the search of every interest feature succeeds. |
| ScanProperties.ReportFailure | conflict-detection.py:104-131 | A failed run fails with the error of the first interest feature whose search fails. |
| ScanProperties.ReportSplits | conflict-detection.py:130-131 | A successful report over interest features is the first feature's entry, present only when its conflict list is not empty, followed by the report over the rest. |
| ScanProperties.ReportAppend | conflict-detection.py:102-131 | Entries are appended in interest-row order: the report over two runs of interest features is the first run's report followed by the second's, and a failure in the first run ends the report. |
| ScanProperties.ReportEntries | conflict-detection.py:130-131 | A successful report has at most one entry per interest feature. Each entry is an interest feature with its non-empty conflict list. |
| ScanProperties.ReportListsConflicting | conflict-detection.py:130-131 | In a successful report, every interest feature with a non-empty conflict list has its entry. |
| ScanProperties.ReportedFeatures | conflict-detection.py:103-131 | Each reported entry is an interest-class row on the interest layer, with its non-empty conflict list. |
| ScanProperties.DefaultRunSucceeds | conflict-detection.py:84-131 | Without `use_all_features`, a run over a catalog that loaded cannot fail, with the where clause as modelled (an empty layer list admits nothing). |
| ScanProperties.RecordedDistance | conflict-detection.py:118-123 | A lookup fails exactly when the layer has no clearance in its category. A candidate is recorded exactly when its distance is within the clearance plus its converted radius. The record names its class, row and layer. Its value is the distance less the radius, floored at 0: never negative and never above max(0, clearance). |
| ScanProperties.RecordedConflicts | conflict-detection.py:108-123 | Every conflict found for an interest feature comes from a row the scan examined. That row is never in Annotation and is always admitted by its category's where clause. |
| ScanProperties.TwoQualifyingCandidates | conflict-detection.py:117-125 | With two qualifying candidates, a first-conflict search records only the first. An exhaustive search records both, in order. |
| ScanProperties.ClearanceExample | conflict-detection.py:118-123 | A candidate 10 away, of diameter 2, on a layer with clearance 8 is recorded with value 8. |

## Left out

- The arcpy calls are not modelled: the cursors, `ListFeatureClasses`, `AddFieldDelimiters`, `env.workspace` and `AddMessage`. Neither are the `message`/`print` output (conflict-detection.py:38-40, 51, 92-97, 133). They are GIS I/O. The geodatabase is the value `FeatureSource` and its rows come in the order the cursors yield them.
- `distanceTo` (conflict-detection.py:121) is a foreign geometry engine. Distance is the given function `FeatureSource.distance` over the abstract type `Geometry`.
- The SQL where clauses (conflict-detection.py:99-100, 111-115) are predicates on the layer name (`InterestFeatures`, `Admits`), not text. Three consequences:
  - The clause at :113 has no closing quote after the interest layer's name. As written it is malformed SQL, and the cursor at :116 would presumably reject it, so a run with `use_all_features` would end at the first feature class other than Annotation, before any lookup at :118. The model reads :113 as its evident meaning, "the layer differs from the interest layer" (`Admits`). Every result the model gives under `use_all_features`, `Failure(MissingThreshold(..))` included, describes that intended clause, not the script as written.
  - An empty defined list becomes `IN ('')`, which would admit a layer named by the empty string. The model admits no layer then. `DefaultModeSucceeds` and `DefaultRunSucceeds` rely on this: as written, a default-mode run fails at :118 with `KeyError` on a row whose layer is `''` in a category that has no threshold rows.
  - Layer names that contain quotes are not modelled.
  - Layer names in the where clauses are compared exactly, as the dictionary lookup at :118 compares them. A store that compared them ignoring case or trailing blanks would admit rows whose lookup at :118 then fails; `DefaultModeSucceeds` and `DefaultRunSucceeds` rely on the exact comparison.
- The hard-coded `testing` configuration (conflict-detection.py:54-74) is the parameter `Config`. The conflict-table notes (conflict-detection.py:135-145) are dead text.
- validation.py is not part of this model. It is a tool-dialog helper.
- Floating point is modelled as reals, so `ConvertRoundTrip` holds only over reals.
- `str.lower` (conflict-detection.py:86) is modelled on ASCII letters. Only one non-ASCII character, the Kelvin sign, lower-cases to an ASCII letter ('k'). No category key contains 'k', so which category a label selects is the same.
- Null fields (`None` labels, distances or diameters) are not modelled.
- In three places the script's evident intent could be read differently. The model follows the code:
  - `convert` knows only `'cm'`. Any other unit name has factor 1.
  - The recorded value is `max(0, distance - radius)`, with the radius taken as the whole converted diameter. The clearance is not subtracted as well. So a candidate 10 away, of diameter 2, on a layer with clearance 8 is recorded with 8 (`ClearanceExample`), not with a deficit of 6.
  - Under `use_all_features`, read with the intended clause at :113, a candidate whose layer has no clearance in its category makes the lookup at :118 raise `KeyError`, which ends the run. The model returns `Failure(MissingThreshold(..))`; it does not skip the candidate.
- An exception ends the run, and the partly built dictionaries and lists are discarded. So a `Failure` carries no catalog or conflict list.
- ReportEntries: states the report's entries by membership, not their order. The converse is `ReportListsConflicting`, and the order, interest-row order, is `ReportAppend`.
- DefaultModeSucceeds: holds for the modelled where clause, under which an empty layer list admits no row; it does not hold for the `IN ('')` that :115 builds, which admits a `''` layer whose lookup at :118 fails.
- DefaultRunSucceeds: likewise holds only for the modelled where clause, for the reason given under `DefaultModeSucceeds`.
- SearchRecords: states only that recorded conflicts come from qualifying candidates. The converse, and the order, are in `ExhaustiveSearch` and `FirstConflictSearch`.
