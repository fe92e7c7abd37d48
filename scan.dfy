/**
 * The conflict scan of conflict-detection.py:99-131: for every interest
 * feature, search the candidate features category by category, feature class
 * by feature class, row by row, and record those that come closer than their
 * layer's clearance plus their own radius.
 */
module Scan {
  import opened Wrappers
  import opened Units
  import opened Thresholds

  /** A geometry handle of the feature source; only its distances are used. */
  type Geometry(==, !new)

  /** The settings the source holds in globals (conflict-detection.py:54-74). */
  datatype Config = Config(
    diameterUnits: string,
    thresholdUnits: string,
    interestLayer: string,
    useAllFeatures: bool,
    findAllConflicts: bool)

  /** A row of the interest feature class: OBJECTID, SHAPE@, handle, and its layer. */
  datatype InterestRow = InterestRow(oid: int, shape: Geometry, handle: string, layer: string)

  /** A row of a candidate feature class: OBJECTID, SHAPE@, handle, layer, diameter. */
  datatype CandidateRow = CandidateRow(oid: int, shape: Geometry, handle: string, layer: string, diameter: real)

  /**
   * What the scan reads from the geodatabase: the rows of the interest
   * feature class, the feature classes of each shape category, the rows of
   * each feature class, and the geometry engine's distance.
   */
  datatype FeatureSource = FeatureSource(
    interestRows: seq<InterestRow>,
    featureClasses: ShapeCategory -> seq<string>,
    rows: string -> seq<CandidateRow>,
    distance: (Geometry, Geometry) -> real)

  /** One recorded conflict: (feature_class, oid, handle, layer, distance). */
  datatype ConflictRecord = ConflictRecord(featureClass: string, oid: int, handle: string, layer: string, distance: real)

  /** One entry of `conflicting_features`: the interest feature and its conflicts. */
  datatype ConflictingFeature = ConflictingFeature(oid: int, handle: string, conflicts: seq<ConflictRecord>)

  /** The lookup `threshold_distances[shapeType][layer]` failing (conflict-detection.py:118). */
  datatype ScanError = MissingThreshold(category: ShapeCategory, layer: string)

  /** The feature class the source never treats as a candidate. */
  const Annotation := "Annotation"

  function Max(a: real, b: real): real
  {
    if a >= b then a else b
  }

  /** A cursor with a where clause: the rows the clause admits, in their order. */
  function Where<T(==, !new)>(rows: seq<T>, admits: T -> bool): (r: seq<T>)
    ensures |r| <= |rows|
    ensures forall x :: x in r <==> x in rows && admits(x)
  {
    if rows == [] then []
    else (if admits(rows[0]) then [rows[0]] else []) + Where(rows[1..], admits)
  }

  /** A cursor keeps the table's order: filtering two runs of rows is filtering each in turn. */
  lemma {:induction false} WhereAppend<T(!new)>(a: seq<T>, b: seq<T>, admits: T -> bool)
    ensures Where(a + b, admits) == Where(a, admits) + Where(b, admits)
  {
    if a == [] {
      assert a + b == b;
    } else {
      assert (a + b)[0] == a[0] && (a + b)[1..] == a[1..] + b;
      WhereAppend(a[1..], b, admits);
    }
  }

  /** The interest features: rows of the interest class on the interest layer (conflict-detection.py:99-103). */
  function InterestFeatures(cfg: Config, src: FeatureSource): seq<InterestRow>
  {
    Where(src.interestRows, (f: InterestRow) => f.layer == cfg.interestLayer)
  }

  /**
   * The candidate where clause of conflict-detection.py:111-115: under
   * use_all_features every layer but the interest layer (the evident meaning
   * of the clause at :113, whose closing quote is missing), otherwise the
   * layers with a clearance defined for the category. Layer names compare
   * exactly.
   */
  predicate Admits(cfg: Config, cat: Catalog, c: ShapeCategory, row: CandidateRow)
  {
    if cfg.useAllFeatures then row.layer != cfg.interestLayer
    else row.layer in cat.defined.Get(c)
  }

  /** The rows the candidate cursor of feature class `featureClass` yields. */
  function Candidates(cfg: Config, cat: Catalog, c: ShapeCategory, src: FeatureSource, featureClass: string): seq<CandidateRow>
  {
    Where(src.rows(featureClass), (row: CandidateRow) => Admits(cfg, cat, c, row))
  }

  /** One candidate the scan examines, with the category and class it came from. */
  datatype Visit = Visit(category: ShapeCategory, featureClass: string, row: CandidateRow)

  function VisitsOf(c: ShapeCategory, featureClass: string, rows: seq<CandidateRow>): (vs: seq<Visit>)
    ensures |vs| == |rows|
    ensures forall j :: 0 <= j < |rows| ==> vs[j] == Visit(c, featureClass, rows[j])
  {
    if rows == [] then [] else [Visit(c, featureClass, rows[0])] + VisitsOf(c, featureClass, rows[1..])
  }

  /** The candidates of category `c` in feature classes `classes`, in search order. */
  function ClassVisits(cfg: Config, cat: Catalog, src: FeatureSource, c: ShapeCategory, classes: seq<string>): seq<Visit>
  {
    if classes == [] then []
    else
      (if classes[0] == Annotation then [] else VisitsOf(c, classes[0], Candidates(cfg, cat, c, src, classes[0])))
      + ClassVisits(cfg, cat, src, c, classes[1..])
  }

  /** The candidates of the categories `cs`, in search order. */
  function CategoryVisits(cfg: Config, cat: Catalog, src: FeatureSource, cs: seq<ShapeCategory>): seq<Visit>
  {
    if cs == [] then []
    else ClassVisits(cfg, cat, src, cs[0], src.featureClasses(cs[0])) + CategoryVisits(cfg, cat, src, cs[1..])
  }

  /** Every candidate in the order the scan meets it: category, then class, then row. */
  function SearchOrder(cfg: Config, cat: Catalog, src: FeatureSource): seq<Visit>
  {
    CategoryVisits(cfg, cat, src, ShapeTypes)
  }

  /**
   * The decision for one candidate (conflict-detection.py:118-123): its
   * layer's clearance plus its radius (the whole diameter, converted to the
   * threshold units) is the detection threshold; a candidate no farther than
   * that is recorded with its distance less the radius, floored at 0.
   */
  function Assess(cfg: Config, cat: Catalog, src: FeatureSource, f: InterestRow, v: Visit): Result<Option<ConflictRecord>, ScanError>
  {
    var thresholds := cat.distances.Get(v.category);
    if v.row.layer !in thresholds then Failure(MissingThreshold(v.category, v.row.layer))
    else
      var radius := Convert(v.row.diameter, cfg.diameterUnits, cfg.thresholdUnits);
      var detectionThreshold := thresholds[v.row.layer] + radius;
      var distance := src.distance(f.shape, v.row.shape);
      if distance <= detectionThreshold then
        Success(Some(ConflictRecord(v.featureClass, v.row.oid, v.row.handle, v.row.layer, Max(0.0, distance - radius))))
      else Success(None)
  }

  /**
   * The conflicts found for `f` among the candidates `vs`, met in order: the
   * first lookup failure ends the run; without find_all_conflicts the search
   * stops at the first conflict.
   */
  function Search(cfg: Config, cat: Catalog, src: FeatureSource, f: InterestRow, vs: seq<Visit>): Result<seq<ConflictRecord>, ScanError>
  {
    if vs == [] then Success([])
    else
      match Assess(cfg, cat, src, f, vs[0])
      case Failure(e) => Failure(e)
      case Success(None) => Search(cfg, cat, src, f, vs[1..])
      case Success(Some(rec)) =>
        if cfg.findAllConflicts then Prepend([rec], Search(cfg, cat, src, f, vs[1..]))
        else Success([rec])
  }

  /** The conflict list of one interest feature. */
  function Conflicts(cfg: Config, cat: Catalog, src: FeatureSource, f: InterestRow): Result<seq<ConflictRecord>, ScanError>
  {
    Search(cfg, cat, src, f, SearchOrder(cfg, cat, src))
  }

  /** `conflicting_features` after the interest features `fs`: one entry per feature with a conflict. */
  function Report(cfg: Config, cat: Catalog, src: FeatureSource, fs: seq<InterestRow>): Result<seq<ConflictingFeature>, ScanError>
  {
    if fs == [] then Success([])
    else
      match Conflicts(cfg, cat, src, fs[0])
      case Failure(e) => Failure(e)
      case Success(conflicts) =>
        var entry := if conflicts == [] then [] else [ConflictingFeature(fs[0].oid, fs[0].handle, conflicts)];
        Prepend(entry, Report(cfg, cat, src, fs[1..]))
  }

  /**
   * Searching `a` and then `b` is searching `a` and, unless that failed or
   * (without find_all_conflicts) already found a conflict, going on with `b`.
   */
  lemma {:induction false} SearchAppend(cfg: Config, cat: Catalog, src: FeatureSource, f: InterestRow, a: seq<Visit>, b: seq<Visit>)
    ensures Search(cfg, cat, src, f, a).Failure? ==>
      Search(cfg, cat, src, f, a + b) == Search(cfg, cat, src, f, a)
    ensures Search(cfg, cat, src, f, a).Success? && !cfg.findAllConflicts && Search(cfg, cat, src, f, a).value != [] ==>
      Search(cfg, cat, src, f, a + b) == Search(cfg, cat, src, f, a)
    ensures Search(cfg, cat, src, f, a).Success? && (cfg.findAllConflicts || Search(cfg, cat, src, f, a).value == []) ==>
      Search(cfg, cat, src, f, a + b) == Prepend(Search(cfg, cat, src, f, a).value, Search(cfg, cat, src, f, b))
  {
    if a == [] {
      assert a + b == b;
    } else {
      assert (a + b)[0] == a[0] && (a + b)[1..] == a[1..] + b;
      SearchAppend(cfg, cat, src, f, a[1..], b);
      var first := Assess(cfg, cat, src, f, a[0]);
      if first.Success? && first.value.Some? && Search(cfg, cat, src, f, a[1..]).Success? && Search(cfg, cat, src, f, b).Success? {
        var t := Search(cfg, cat, src, f, a[1..]).value;
        var s := Search(cfg, cat, src, f, b).value;
        assert [first.value.value] + t + s == [first.value.value] + (t + s);
      }
    }
  }

  /** Searching from one more candidate: assess it, then stop, fail or go on. */
  lemma SearchStep(cfg: Config, cat: Catalog, src: FeatureSource, f: InterestRow, v: Visit, rest: seq<Visit>)
    ensures Assess(cfg, cat, src, f, v).Failure? ==>
      Search(cfg, cat, src, f, [v] + rest) == Failure(Assess(cfg, cat, src, f, v).error)
    ensures Assess(cfg, cat, src, f, v) == Success(None) ==>
      Search(cfg, cat, src, f, [v] + rest) == Search(cfg, cat, src, f, rest)
    ensures Assess(cfg, cat, src, f, v).Success? && Assess(cfg, cat, src, f, v).value.Some? ==>
      var rec := Assess(cfg, cat, src, f, v).value.value;
      Search(cfg, cat, src, f, [v] + rest) ==
        if cfg.findAllConflicts then Prepend([rec], Search(cfg, cat, src, f, rest)) else Success([rec])
  {
  }

  /**
   * The body of the row loop (conflict-detection.py:118-123): look up the
   * clearance of the row's layer, widen it by the row's radius and measure.
   * It computes what `Assess` specifies, kept as a method so that the loop
   * in `ScanRows` has the source's shape; the promises are proved of `Assess`.
   */
  method AssessRow(cfg: Config, cat: Catalog, src: FeatureSource, f: InterestRow, shapeType: ShapeCategory,
                   featureClass: string, feature: CandidateRow)
    returns (r: Result<Option<ConflictRecord>, ScanError>)
    ensures r == Assess(cfg, cat, src, f, Visit(shapeType, featureClass, feature))
  {
    if feature.layer !in cat.distances.Get(shapeType) {
      return Failure(MissingThreshold(shapeType, feature.layer));
    }
    var detectionThreshold := cat.distances.Get(shapeType)[feature.layer];
    var radius := Convert(feature.diameter, cfg.diameterUnits, cfg.thresholdUnits);
    detectionThreshold := detectionThreshold + radius;
    var distance := src.distance(f.shape, feature.shape);
    if distance <= detectionThreshold {
      return Success(Some(ConflictRecord(featureClass, feature.oid, feature.handle, feature.layer, Max(0.0, distance - radius))));
    }
    return Success(None);
  }

  /**
   * The row loop of conflict-detection.py:117-125 over the rows the cursor
   * of one feature class yields: each is assessed; without
   * find_all_conflicts the loop breaks at the first conflict.
   */
  method ScanRows(cfg: Config, cat: Catalog, src: FeatureSource, f: InterestRow, shapeType: ShapeCategory,
                  featureClass: string, potentialConflicts: seq<CandidateRow>, conflicts0: seq<ConflictRecord>)
    returns (r: Result<seq<ConflictRecord>, ScanError>)
    requires cfg.findAllConflicts || conflicts0 == []
    ensures r == Prepend(conflicts0, Search(cfg, cat, src, f, VisitsOf(shapeType, featureClass, potentialConflicts)))
  {
    ghost var visits := VisitsOf(shapeType, featureClass, potentialConflicts);
    ghost var outcome := Prepend(conflicts0, Search(cfg, cat, src, f, visits));
    var conflicts := conflicts0;
    assert visits[0..] == visits;
    for j := 0 to |potentialConflicts|
      invariant cfg.findAllConflicts || conflicts == []
      invariant outcome == Prepend(conflicts, Search(cfg, cat, src, f, visits[j..]))
    {
      assert visits[j..] == [visits[j]] + visits[j + 1..];
      SearchStep(cfg, cat, src, f, visits[j], visits[j + 1..]);
      var decision := AssessRow(cfg, cat, src, f, shapeType, featureClass, potentialConflicts[j]);
      if decision.Failure? {
        return Failure(decision.error);
      }
      if decision.value.Some? {
        PrependTwice(conflicts, [decision.value.value], Search(cfg, cat, src, f, visits[j + 1..]));
        conflicts := conflicts + [decision.value.value];
        if !cfg.findAllConflicts {
          assert outcome == Success(conflicts);
          break;
        }
      }
    }
    assert outcome == Success(conflicts) by {
      assert visits[|potentialConflicts|..] == [];
      SearchDone(cfg, cat, src, f, conflicts);
    }
    return Success(conflicts);
  }

  /**
   * Going on with `b` after the search of `a` has added to `conflicts`: the
   * outcome stays that of `a` if it failed or (without find_all_conflicts)
   * found a conflict, and otherwise continues from what `a` left.
   */
  lemma ContinueSearch(cfg: Config, cat: Catalog, src: FeatureSource, f: InterestRow,
                       conflicts: seq<ConflictRecord>, a: seq<Visit>, b: seq<Visit>)
    requires cfg.findAllConflicts || conflicts == []
    ensures var r := Prepend(conflicts, Search(cfg, cat, src, f, a));
      && (r.Failure? ==> Prepend(conflicts, Search(cfg, cat, src, f, a + b)) == r)
      && (r.Success? && !cfg.findAllConflicts && r.value != [] ==> Prepend(conflicts, Search(cfg, cat, src, f, a + b)) == r)
      && (r.Success? && (cfg.findAllConflicts || r.value == []) ==>
            Prepend(conflicts, Search(cfg, cat, src, f, a + b)) == Prepend(r.value, Search(cfg, cat, src, f, b)))
  {
    SearchAppend(cfg, cat, src, f, a, b);
    var sa := Search(cfg, cat, src, f, a);
    if sa.Success? && (cfg.findAllConflicts || sa.value == []) {
      PrependTwice(conflicts, sa.value, Search(cfg, cat, src, f, b));
    }
  }

  /** The candidates of the classes from the `k`-th on: those of the `k`-th, then the rest. */
  lemma ClassVisitsAt(cfg: Config, cat: Catalog, src: FeatureSource, c: ShapeCategory, classes: seq<string>, k: nat)
    requires k < |classes|
    ensures ClassVisits(cfg, cat, src, c, classes[k..]) ==
      (if classes[k] == Annotation then [] else VisitsOf(c, classes[k], Candidates(cfg, cat, c, src, classes[k])))
      + ClassVisits(cfg, cat, src, c, classes[k + 1..])
  {
  }

  /** The candidates of the categories from the `i`-th on: those of the `i`-th, then the rest. */
  lemma CategoryVisitsAt(cfg: Config, cat: Catalog, src: FeatureSource, cs: seq<ShapeCategory>, i: nat)
    requires i < |cs|
    ensures CategoryVisits(cfg, cat, src, cs[i..]) ==
      ClassVisits(cfg, cat, src, cs[i], src.featureClasses(cs[i])) + CategoryVisits(cfg, cat, src, cs[i + 1..])
  {
  }

  /** Nothing left to search: the conflicts found so far are the outcome. */
  lemma SearchDone(cfg: Config, cat: Catalog, src: FeatureSource, f: InterestRow, conflicts: seq<ConflictRecord>)
    ensures Prepend(conflicts, Search(cfg, cat, src, f, [])) == Success(conflicts)
  {
    assert conflicts + [] == conflicts;
  }

  /**
   * The feature-class loop of conflict-detection.py:107-127 for one category:
   * Annotation is skipped; without find_all_conflicts the loop breaks once a
   * conflict is recorded.
   */
  method ScanCategory(cfg: Config, cat: Catalog, src: FeatureSource, f: InterestRow,
                      shapeType: ShapeCategory, conflicts0: seq<ConflictRecord>)
    returns (r: Result<seq<ConflictRecord>, ScanError>)
    requires cfg.findAllConflicts || conflicts0 == []
    ensures r == Prepend(conflicts0, Search(cfg, cat, src, f,
      ClassVisits(cfg, cat, src, shapeType, src.featureClasses(shapeType))))
  {
    var featureClasses := src.featureClasses(shapeType);
    ghost var outcome := Prepend(conflicts0, Search(cfg, cat, src, f, ClassVisits(cfg, cat, src, shapeType, featureClasses)));
    var conflicts := conflicts0;
    assert featureClasses[0..] == featureClasses;
    for k := 0 to |featureClasses|
      invariant cfg.findAllConflicts || conflicts == []
      invariant outcome == Prepend(conflicts, Search(cfg, cat, src, f, ClassVisits(cfg, cat, src, shapeType, featureClasses[k..])))
    {
      var featureClass := featureClasses[k];
      ClassVisitsAt(cfg, cat, src, shapeType, featureClasses, k);
      ghost var later := ClassVisits(cfg, cat, src, shapeType, featureClasses[k + 1..]);
      if featureClass == Annotation {
        assert [] + later == later;
        continue;
      }
      var potentialConflicts := Candidates(cfg, cat, shapeType, src, featureClass);
      ContinueSearch(cfg, cat, src, f, conflicts, VisitsOf(shapeType, featureClass, potentialConflicts), later);
      var found := ScanRows(cfg, cat, src, f, shapeType, featureClass, potentialConflicts, conflicts);
      if found.Failure? {
        return found;
      }
      conflicts := found.value;
      if !cfg.findAllConflicts && |conflicts| > 0 {
        break;
      }
    }
    assert outcome == Success(conflicts) by {
      assert featureClasses[|featureClasses|..] == [];
      SearchDone(cfg, cat, src, f, conflicts);
    }
    return Success(conflicts);
  }

  /**
   * The search for one interest feature (conflict-detection.py:105-129):
   * the categories in fixed order; without find_all_conflicts the loop
   * breaks once a conflict is recorded.
   */
  method FindConflicts(cfg: Config, cat: Catalog, src: FeatureSource, f: InterestRow)
    returns (r: Result<seq<ConflictRecord>, ScanError>)
    ensures r == Conflicts(cfg, cat, src, f)
  {
    ghost var outcome := Conflicts(cfg, cat, src, f);
    var conflicts: seq<ConflictRecord> := [];
    assert ShapeTypes[0..] == ShapeTypes;
    for i := 0 to |ShapeTypes|
      invariant cfg.findAllConflicts || conflicts == []
      invariant outcome == Prepend(conflicts, Search(cfg, cat, src, f, CategoryVisits(cfg, cat, src, ShapeTypes[i..])))
    {
      var shapeType := ShapeTypes[i];
      CategoryVisitsAt(cfg, cat, src, ShapeTypes, i);
      ContinueSearch(cfg, cat, src, f, conflicts,
        ClassVisits(cfg, cat, src, shapeType, src.featureClasses(shapeType)),
        CategoryVisits(cfg, cat, src, ShapeTypes[i + 1..]));
      var found := ScanCategory(cfg, cat, src, f, shapeType, conflicts);
      if found.Failure? {
        return found;
      }
      conflicts := found.value;
      if !cfg.findAllConflicts && |conflicts| > 0 {
        break;
      }
    }
    assert outcome == Success(conflicts) by {
      assert ShapeTypes[|ShapeTypes|..] == [];
      SearchDone(cfg, cat, src, f, conflicts);
    }
    return Success(conflicts);
  }

  /** The report from the `n`-th interest feature on: its entry, if it has conflicts, then the rest. */
  lemma ReportAt(cfg: Config, cat: Catalog, src: FeatureSource, fs: seq<InterestRow>, n: nat)
    requires n < |fs|
    ensures Conflicts(cfg, cat, src, fs[n]).Failure? ==>
      Report(cfg, cat, src, fs[n..]) == Failure(Conflicts(cfg, cat, src, fs[n]).error)
    ensures Conflicts(cfg, cat, src, fs[n]) == Success([]) ==>
      Report(cfg, cat, src, fs[n..]) == Report(cfg, cat, src, fs[n + 1..])
    ensures Conflicts(cfg, cat, src, fs[n]).Success? && Conflicts(cfg, cat, src, fs[n]).value != [] ==>
      Report(cfg, cat, src, fs[n..]) ==
        Prepend([ConflictingFeature(fs[n].oid, fs[n].handle, Conflicts(cfg, cat, src, fs[n]).value)], Report(cfg, cat, src, fs[n + 1..]))
  {
  }

  /**
   * The whole scan (conflict-detection.py:102-131): for each interest
   * feature, find its conflicts and, when there are any, append the feature
   * with them to `conflicting_features`.
   */
  method DetectConflicts(cfg: Config, cat: Catalog, src: FeatureSource)
    returns (r: Result<seq<ConflictingFeature>, ScanError>)
    ensures r == Report(cfg, cat, src, InterestFeatures(cfg, src))
  {
    var conflictFeatureLookup := InterestFeatures(cfg, src);
    ghost var outcome := Report(cfg, cat, src, conflictFeatureLookup);
    var conflictingFeatures: seq<ConflictingFeature> := [];
    assert conflictFeatureLookup[0..] == conflictFeatureLookup;
    assert outcome == Prepend([], outcome);
    for n := 0 to |conflictFeatureLookup|
      invariant outcome == Prepend(conflictingFeatures, Report(cfg, cat, src, conflictFeatureLookup[n..]))
    {
      var row := conflictFeatureLookup[n];
      ReportAt(cfg, cat, src, conflictFeatureLookup, n);
      var conflicts := FindConflicts(cfg, cat, src, row);
      if conflicts.Failure? {
        return Failure(conflicts.error);
      }
      if |conflicts.value| > 0 {
        var entry := ConflictingFeature(row.oid, row.handle, conflicts.value);
        PrependTwice(conflictingFeatures, [entry], Report(cfg, cat, src, conflictFeatureLookup[n + 1..]));
        conflictingFeatures := conflictingFeatures + [entry];
      }
    }
    assert outcome == Success(conflictingFeatures) by {
      assert conflictFeatureLookup[|conflictFeatureLookup|..] == [];
      assert conflictingFeatures + [] == conflictingFeatures;
    }
    return Success(conflictingFeatures);
  }
}
