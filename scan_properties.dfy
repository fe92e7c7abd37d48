/**
 * What the conflict scan promises: where a run stops and why, which
 * candidates end up recorded in each of the two search modes, how the two
 * modes relate, and when a run cannot fail.
 */
module ScanProperties {
  import opened Wrappers
  import opened Units
  import opened Thresholds
  import opened Scan

  /** The search goes on after candidate `v`: its lookup succeeded and it did not end a first-conflict search. */
  predicate Passes(cfg: Config, cat: Catalog, src: FeatureSource, f: InterestRow, v: Visit)
  {
    Assess(cfg, cat, src, f, v).Success? && (cfg.findAllConflicts || Assess(cfg, cat, src, f, v).value.None?)
  }

  /** The search of `vs` reaches its `i`-th candidate and fails on it. */
  predicate FailsAt(cfg: Config, cat: Catalog, src: FeatureSource, f: InterestRow, vs: seq<Visit>, i: int)
  {
    && 0 <= i < |vs|
    && Assess(cfg, cat, src, f, vs[i]).Failure?
    && forall j :: 0 <= j < i ==> Passes(cfg, cat, src, f, vs[j])
  }

  /** A search that fails has reached a candidate whose layer has no clearance, and reports it. */
  lemma {:induction false} SearchFailure(cfg: Config, cat: Catalog, src: FeatureSource, f: InterestRow, vs: seq<Visit>)
    requires Search(cfg, cat, src, f, vs).Failure?
    ensures exists i :: FailsAt(cfg, cat, src, f, vs, i) &&
                        Assess(cfg, cat, src, f, vs[i]).error == Search(cfg, cat, src, f, vs).error
  {
    var tail := vs[1..];
    if Assess(cfg, cat, src, f, vs[0]).Failure? {
      assert FailsAt(cfg, cat, src, f, vs, 0);
    } else {
      assert Search(cfg, cat, src, f, tail).Failure?;
      SearchFailure(cfg, cat, src, f, tail);
      var k :| FailsAt(cfg, cat, src, f, tail, k)
        && Assess(cfg, cat, src, f, tail[k]).error == Search(cfg, cat, src, f, tail).error;
      assert vs[k + 1] == tail[k];
      forall j | 0 < j < k + 1
        ensures Passes(cfg, cat, src, f, vs[j])
      {
        assert vs[j] == tail[j - 1];
      }
      assert FailsAt(cfg, cat, src, f, vs, k + 1);
    }
  }

  /** A search that reaches a candidate whose layer has no clearance fails. */
  lemma {:induction false} SearchFailsAt(cfg: Config, cat: Catalog, src: FeatureSource, f: InterestRow, vs: seq<Visit>, i: int)
    requires FailsAt(cfg, cat, src, f, vs, i)
    ensures Search(cfg, cat, src, f, vs).Failure?
    decreases i
  {
    if i > 0 {
      var tail := vs[1..];
      assert Passes(cfg, cat, src, f, vs[0]);
      forall j | 0 <= j < i - 1
        ensures Passes(cfg, cat, src, f, tail[j])
      {
        assert tail[j] == vs[j + 1];
      }
      assert tail[i - 1] == vs[i];
      SearchFailsAt(cfg, cat, src, f, tail, i - 1);
    }
  }

  /** Every recorded conflict is the record of a candidate the search assessed. */
  lemma {:induction false} SearchRecords(cfg: Config, cat: Catalog, src: FeatureSource, f: InterestRow, vs: seq<Visit>)
    ensures Search(cfg, cat, src, f, vs).Success? ==>
      forall rec :: rec in Search(cfg, cat, src, f, vs).value ==>
        exists i :: 0 <= i < |vs| && Assess(cfg, cat, src, f, vs[i]) == Success(Some(rec))
  {
    if vs != [] && Search(cfg, cat, src, f, vs).Success? {
      var tail := vs[1..];
      SearchRecords(cfg, cat, src, f, tail);
      forall rec | rec in Search(cfg, cat, src, f, vs).value
        ensures exists i :: 0 <= i < |vs| && Assess(cfg, cat, src, f, vs[i]) == Success(Some(rec))
      {
        if Assess(cfg, cat, src, f, vs[0]) != Success(Some(rec)) {
          assert rec in Search(cfg, cat, src, f, tail).value;
          var k :| 0 <= k < |tail| && Assess(cfg, cat, src, f, tail[k]) == Success(Some(rec));
          assert vs[k + 1] == tail[k];
        }
      }
    }
  }

  /** The records of the candidates within their thresholds, in the order the search meets them. */
  function Qualifying(cfg: Config, cat: Catalog, src: FeatureSource, f: InterestRow, vs: seq<Visit>): seq<ConflictRecord>
  {
    if vs == [] then []
    else
      var a := Assess(cfg, cat, src, f, vs[0]);
      (if a.Success? && a.value.Some? then [a.value.value] else []) + Qualifying(cfg, cat, src, f, vs[1..])
  }

  /** A record qualifies exactly when some candidate's assessment yields it. */
  lemma {:induction false} QualifyingMembers(cfg: Config, cat: Catalog, src: FeatureSource, f: InterestRow, vs: seq<Visit>, rec: ConflictRecord)
    ensures rec in Qualifying(cfg, cat, src, f, vs) <==>
      exists i :: 0 <= i < |vs| && Assess(cfg, cat, src, f, vs[i]) == Success(Some(rec))
  {
    if vs != [] {
      var tail := vs[1..];
      QualifyingMembers(cfg, cat, src, f, tail, rec);
      if exists i :: 0 <= i < |vs| && Assess(cfg, cat, src, f, vs[i]) == Success(Some(rec)) {
        var i :| 0 <= i < |vs| && Assess(cfg, cat, src, f, vs[i]) == Success(Some(rec));
        if i > 0 {
          assert tail[i - 1] == vs[i];
        }
      }
      if rec in Qualifying(cfg, cat, src, f, tail) {
        var k :| 0 <= k < |tail| && Assess(cfg, cat, src, f, tail[k]) == Success(Some(rec));
        assert vs[k + 1] == tail[k];
      }
    }
  }

  /**
   * With find_all_conflicts the search succeeds exactly when every lookup
   * succeeds, and then records exactly the qualifying candidates, in order.
   */
  lemma {:induction false} ExhaustiveSearch(cfg: Config, cat: Catalog, src: FeatureSource, f: InterestRow, vs: seq<Visit>)
    requires cfg.findAllConflicts
    ensures Search(cfg, cat, src, f, vs).Success? <==>
      forall i :: 0 <= i < |vs| ==> Assess(cfg, cat, src, f, vs[i]).Success?
    ensures Search(cfg, cat, src, f, vs).Success? ==>
      Search(cfg, cat, src, f, vs).value == Qualifying(cfg, cat, src, f, vs)
  {
    if vs != [] {
      var tail := vs[1..];
      ExhaustiveSearch(cfg, cat, src, f, tail);
      assert forall i :: 0 < i < |vs| ==> vs[i] == tail[i - 1];
    }
  }

  /**
   * Without find_all_conflicts the search records at most one conflict: the
   * first qualifying candidate, if there is one.
   */
  lemma {:induction false} FirstConflictSearch(cfg: Config, cat: Catalog, src: FeatureSource, f: InterestRow, vs: seq<Visit>)
    requires !cfg.findAllConflicts
    ensures Search(cfg, cat, src, f, vs).Success? ==>
      var q := Qualifying(cfg, cat, src, f, vs);
      Search(cfg, cat, src, f, vs).value == if q == [] then [] else [q[0]]
  {
    if vs != [] {
      FirstConflictSearch(cfg, cat, src, f, vs[1..]);
    }
  }

  /**
   * Without find_all_conflicts the search records nothing exactly when every
   * candidate is assessed without a conflict.
   */
  lemma {:induction false} FirstConflictNone(cfg: Config, cat: Catalog, src: FeatureSource, f: InterestRow, vs: seq<Visit>)
    requires !cfg.findAllConflicts
    ensures Search(cfg, cat, src, f, vs) == Success([]) <==>
      forall i :: 0 <= i < |vs| ==> Assess(cfg, cat, src, f, vs[i]) == Success(None)
  {
    if vs != [] {
      var tail := vs[1..];
      FirstConflictNone(cfg, cat, src, f, tail);
      assert forall i :: 0 < i < |vs| ==> vs[i] == tail[i - 1];
    }
  }

  /**
   * Without find_all_conflicts a recorded conflict is that of a candidate
   * before which every candidate was assessed without a conflict.
   */
  lemma {:induction false} FirstConflictFound(cfg: Config, cat: Catalog, src: FeatureSource, f: InterestRow, vs: seq<Visit>)
    requires !cfg.findAllConflicts
    requires Search(cfg, cat, src, f, vs).Success? && Search(cfg, cat, src, f, vs).value != []
    ensures exists i :: 0 <= i < |vs| && Assess(cfg, cat, src, f, vs[i]) == Success(Some(Search(cfg, cat, src, f, vs).value[0])) &&
                        forall j :: 0 <= j < i ==> Assess(cfg, cat, src, f, vs[j]) == Success(None)
  {
    var r := Search(cfg, cat, src, f, vs);
    if Assess(cfg, cat, src, f, vs[0]) == Success(None) {
      var tail := vs[1..];
      FirstConflictFound(cfg, cat, src, f, tail);
      var k :| 0 <= k < |tail| && Assess(cfg, cat, src, f, tail[k]) == Success(Some(r.value[0])) &&
               forall j :: 0 <= j < k ==> Assess(cfg, cat, src, f, tail[j]) == Success(None);
      assert vs[k + 1] == tail[k];
      forall j | 0 < j < k + 1
        ensures Assess(cfg, cat, src, f, vs[j]) == Success(None)
      {
        assert vs[j] == tail[j - 1];
      }
    } else {
      assert Assess(cfg, cat, src, f, vs[0]) == Success(Some(r.value[0]));
    }
  }

  /**
   * The two search modes agree: a first-conflict search finds the first
   * conflict of an exhaustive one, and fails only where the exhaustive one
   * fails with the same error.
   */
  lemma {:induction false} ModesAgree(cfg: Config, cat: Catalog, src: FeatureSource, f: InterestRow, vs: seq<Visit>)
    ensures var all := Search(cfg.(findAllConflicts := true), cat, src, f, vs);
      var first := Search(cfg.(findAllConflicts := false), cat, src, f, vs);
      && (all.Success? ==> first == Success(if all.value == [] then [] else [all.value[0]]))
      && (first.Failure? ==> all == first)
  {
    var allCfg := cfg.(findAllConflicts := true);
    var firstCfg := cfg.(findAllConflicts := false);
    if vs != [] {
      ModesAgree(cfg, cat, src, f, vs[1..]);
      assert Assess(allCfg, cat, src, f, vs[0]) == Assess(firstCfg, cat, src, f, vs[0]);
    }
  }

  /** A search in which every lookup succeeds succeeds. */
  lemma {:induction false} LookupsSucceed(cfg: Config, cat: Catalog, src: FeatureSource, f: InterestRow, vs: seq<Visit>)
    requires forall i :: 0 <= i < |vs| ==> Assess(cfg, cat, src, f, vs[i]).Success?
    ensures Search(cfg, cat, src, f, vs).Success?
  {
    if vs != [] {
      var tail := vs[1..];
      assert forall i :: 0 <= i < |tail| ==> tail[i] == vs[i + 1];
      LookupsSucceed(cfg, cat, src, f, tail);
    }
  }

  /** The candidates of feature class `g` are its admitted rows, visited under category `c`. */
  lemma VisitsOfMembers(c: ShapeCategory, g: string, rows: seq<CandidateRow>, v: Visit)
    ensures v in VisitsOf(c, g, rows) <==> v.category == c && v.featureClass == g && v.row in rows
  {
  }

  /** The candidates of category `c` in `classes`: rows the where clause admits, outside Annotation. */
  lemma {:induction false} ClassVisitsMembers(cfg: Config, cat: Catalog, src: FeatureSource, c: ShapeCategory, classes: seq<string>, v: Visit)
    ensures v in ClassVisits(cfg, cat, src, c, classes) <==>
      && v.category == c
      && v.featureClass in classes
      && v.featureClass != Annotation
      && v.row in Candidates(cfg, cat, c, src, v.featureClass)
  {
    if classes != [] {
      ClassVisitsMembers(cfg, cat, src, c, classes[1..], v);
      if classes[0] != Annotation {
        VisitsOfMembers(c, classes[0], Candidates(cfg, cat, c, src, classes[0]), v);
      }
      assert v.featureClass in classes <==> v.featureClass == classes[0] || v.featureClass in classes[1..];
    }
  }

  /** The candidates of the categories `cs`: those of each category in `cs`. */
  lemma {:induction false} CategoryVisitsMembers(cfg: Config, cat: Catalog, src: FeatureSource, cs: seq<ShapeCategory>, v: Visit)
    ensures v in CategoryVisits(cfg, cat, src, cs) <==>
      v.category in cs && v in ClassVisits(cfg, cat, src, v.category, src.featureClasses(v.category))
  {
    if cs != [] {
      CategoryVisitsMembers(cfg, cat, src, cs[1..], v);
      ClassVisitsMembers(cfg, cat, src, cs[0], src.featureClasses(cs[0]), v);
      assert v.category in cs <==> v.category == cs[0] || v.category in cs[1..];
    }
  }

  /**
   * The scan examines exactly the rows, in every feature class of their
   * category but Annotation, that the candidate where clause admits.
   */
  lemma InSearchOrder(cfg: Config, cat: Catalog, src: FeatureSource, v: Visit)
    ensures v in SearchOrder(cfg, cat, src) <==>
      && v.featureClass in src.featureClasses(v.category)
      && v.featureClass != Annotation
      && v.row in src.rows(v.featureClass)
      && Admits(cfg, cat, v.category, v.row)
  {
    CategoryVisitsMembers(cfg, cat, src, ShapeTypes, v);
    ClassVisitsMembers(cfg, cat, src, v.category, src.featureClasses(v.category), v);
    assert v.category in ShapeTypes by {
      match v.category
      case Point => assert ShapeTypes[0] == Point;
      case Polyline => assert ShapeTypes[1] == Polyline;
      case Polygon => assert ShapeTypes[2] == Polygon;
      case Multipatch => assert ShapeTypes[3] == Multipatch;
    }
  }

  /**
   * Without use_all_features, and with a consistent catalog, no lookup can
   * fail: the where clause only admits layers that have a clearance.
   */
  lemma DefaultModeSucceeds(cfg: Config, cat: Catalog, src: FeatureSource, f: InterestRow)
    requires !cfg.useAllFeatures && Consistent(cat)
    ensures Conflicts(cfg, cat, src, f).Success?
  {
    var vs := SearchOrder(cfg, cat, src);
    forall i | 0 <= i < |vs|
      ensures Assess(cfg, cat, src, f, vs[i]).Success?
    {
      InSearchOrder(cfg, cat, src, vs[i]);
    }
    LookupsSucceed(cfg, cat, src, f, vs);
  }

  /** The whole scan succeeds exactly when the search of every interest feature does. */
  lemma {:induction false} ReportSucceeds(cfg: Config, cat: Catalog, src: FeatureSource, fs: seq<InterestRow>)
    ensures Report(cfg, cat, src, fs).Success? <==> forall n :: 0 <= n < |fs| ==> Conflicts(cfg, cat, src, fs[n]).Success?
  {
    if fs != [] {
      ReportSucceeds(cfg, cat, src, fs[1..]);
      assert forall n :: 0 < n < |fs| ==> fs[n] == fs[1..][n - 1];
    }
  }

  /** A failed scan fails with the error of the first interest feature whose search fails. */
  lemma {:induction false} ReportFailure(cfg: Config, cat: Catalog, src: FeatureSource, fs: seq<InterestRow>)
    requires Report(cfg, cat, src, fs).Failure?
    ensures exists n :: 0 <= n < |fs| && Conflicts(cfg, cat, src, fs[n]) == Failure(Report(cfg, cat, src, fs).error) &&
                        forall m :: 0 <= m < n ==> Conflicts(cfg, cat, src, fs[m]).Success?
  {
    if Conflicts(cfg, cat, src, fs[0]).Success? {
      var tail := fs[1..];
      ReportFailure(cfg, cat, src, tail);
      var k :| 0 <= k < |tail| && Conflicts(cfg, cat, src, tail[k]) == Failure(Report(cfg, cat, src, tail).error) &&
               forall m :: 0 <= m < k ==> Conflicts(cfg, cat, src, tail[m]).Success?;
      assert fs[k + 1] == tail[k];
      forall m | 0 < m < k + 1
        ensures Conflicts(cfg, cat, src, fs[m]).Success?
      {
        assert fs[m] == tail[m - 1];
      }
    }
  }

  /** A successful report is the first feature's entry, if any, followed by the report of the rest. */
  lemma ReportSplits(cfg: Config, cat: Catalog, src: FeatureSource, fs: seq<InterestRow>)
    requires fs != [] && Report(cfg, cat, src, fs).Success?
    ensures Conflicts(cfg, cat, src, fs[0]).Success? && Report(cfg, cat, src, fs[1..]).Success?
    ensures var conflicts := Conflicts(cfg, cat, src, fs[0]).value;
      Report(cfg, cat, src, fs).value ==
        (if conflicts == [] then [] else [ConflictingFeature(fs[0].oid, fs[0].handle, conflicts)])
        + Report(cfg, cat, src, fs[1..]).value
  {
  }

  /**
   * The report keeps interest-row order: reporting two runs of interest
   * features is reporting the first and then, unless it failed, the second.
   */
  lemma {:induction false} ReportAppend(cfg: Config, cat: Catalog, src: FeatureSource, a: seq<InterestRow>, b: seq<InterestRow>)
    ensures Report(cfg, cat, src, a).Failure? ==> Report(cfg, cat, src, a + b) == Report(cfg, cat, src, a)
    ensures Report(cfg, cat, src, a).Success? ==>
      Report(cfg, cat, src, a + b) == Prepend(Report(cfg, cat, src, a).value, Report(cfg, cat, src, b))
  {
    if a == [] {
      assert a + b == b;
    } else {
      assert (a + b)[0] == a[0] && (a + b)[1..] == a[1..] + b;
      ReportAppend(cfg, cat, src, a[1..], b);
      PrependTwice<ConflictingFeature, ScanError>(
        if Conflicts(cfg, cat, src, a[0]).Success? && Conflicts(cfg, cat, src, a[0]).value != []
        then [ConflictingFeature(a[0].oid, a[0].handle, Conflicts(cfg, cat, src, a[0]).value)] else [],
        if Report(cfg, cat, src, a[1..]).Success? then Report(cfg, cat, src, a[1..]).value else [],
        Report(cfg, cat, src, b));
    }
  }

  /**
   * A successful scan has at most one entry per interest feature, and each
   * entry is an interest feature with its non-empty conflict list.
   */
  lemma {:induction false} ReportEntries(cfg: Config, cat: Catalog, src: FeatureSource, fs: seq<InterestRow>)
    requires Report(cfg, cat, src, fs).Success?
    ensures |Report(cfg, cat, src, fs).value| <= |fs|
    ensures forall e :: e in Report(cfg, cat, src, fs).value ==>
      e.conflicts != [] &&
      exists n :: 0 <= n < |fs| && e == ConflictingFeature(fs[n].oid, fs[n].handle, e.conflicts) &&
                  Conflicts(cfg, cat, src, fs[n]) == Success(e.conflicts)
  {
    if fs != [] {
      var tail := fs[1..];
      ReportSplits(cfg, cat, src, fs);
      ReportEntries(cfg, cat, src, tail);
      var rest := Report(cfg, cat, src, tail).value;
      forall e | e in Report(cfg, cat, src, fs).value
        ensures e.conflicts != [] &&
          exists n :: 0 <= n < |fs| && e == ConflictingFeature(fs[n].oid, fs[n].handle, e.conflicts) &&
                      Conflicts(cfg, cat, src, fs[n]) == Success(e.conflicts)
      {
        if e !in rest {
          assert e == ConflictingFeature(fs[0].oid, fs[0].handle, Conflicts(cfg, cat, src, fs[0]).value);
        } else {
          var k :| 0 <= k < |tail| && e == ConflictingFeature(tail[k].oid, tail[k].handle, e.conflicts) &&
                   Conflicts(cfg, cat, src, tail[k]) == Success(e.conflicts);
          assert fs[k + 1] == tail[k];
        }
      }
    }
  }

  /** A successful scan lists every interest feature whose conflict list is not empty, with that list. */
  lemma {:induction false} ReportListsConflicting(cfg: Config, cat: Catalog, src: FeatureSource, fs: seq<InterestRow>)
    requires Report(cfg, cat, src, fs).Success?
    ensures forall n :: 0 <= n < |fs| && Conflicts(cfg, cat, src, fs[n]).Success? && Conflicts(cfg, cat, src, fs[n]).value != [] ==>
      ConflictingFeature(fs[n].oid, fs[n].handle, Conflicts(cfg, cat, src, fs[n]).value) in Report(cfg, cat, src, fs).value
  {
    if fs != [] {
      var tail := fs[1..];
      ReportSplits(cfg, cat, src, fs);
      ReportListsConflicting(cfg, cat, src, tail);
      assert forall n :: 0 < n < |fs| ==> fs[n] == tail[n - 1];
    }
  }

  /**
   * Each entry of a successful scan is an interest-class row on the interest
   * layer, with its non-empty conflict list.
   */
  lemma ReportedFeatures(cfg: Config, cat: Catalog, src: FeatureSource)
    requires Report(cfg, cat, src, InterestFeatures(cfg, src)).Success?
    ensures forall e :: e in Report(cfg, cat, src, InterestFeatures(cfg, src)).value ==>
      exists f :: f in src.interestRows && f.layer == cfg.interestLayer &&
                  e == ConflictingFeature(f.oid, f.handle, e.conflicts) &&
                  e.conflicts != [] && Conflicts(cfg, cat, src, f) == Success(e.conflicts)
  {
    var fs := InterestFeatures(cfg, src);
    ReportEntries(cfg, cat, src, fs);
    forall e | e in Report(cfg, cat, src, fs).value
      ensures exists f :: f in src.interestRows && f.layer == cfg.interestLayer &&
                          e == ConflictingFeature(f.oid, f.handle, e.conflicts) &&
                          e.conflicts != [] && Conflicts(cfg, cat, src, f) == Success(e.conflicts)
    {
      var n :| 0 <= n < |fs| && e == ConflictingFeature(fs[n].oid, fs[n].handle, e.conflicts) &&
               Conflicts(cfg, cat, src, fs[n]) == Success(e.conflicts);
      assert fs[n] in fs;
    }
  }

  /**
   * Without use_all_features a run over a catalog that loaded cannot fail:
   * every candidate's layer has a clearance.
   */
  lemma DefaultRunSucceeds(cfg: Config, rows: seq<ThresholdRow>, src: FeatureSource)
    requires !cfg.useAllFeatures && Load(rows).Success?
    ensures Report(cfg, Load(rows).value, src, InterestFeatures(cfg, src)).Success?
  {
    var cat := Load(rows).value;
    LoadedConsistent(rows, Classify(rows), |rows|);
    var fs := InterestFeatures(cfg, src);
    forall n | 0 <= n < |fs|
      ensures Conflicts(cfg, cat, src, fs[n]).Success?
    {
      DefaultModeSucceeds(cfg, cat, src, fs[n]);
    }
    ReportSucceeds(cfg, cat, src, fs);
  }

  /**
   * A candidate is recorded exactly when its distance is within its layer's
   * clearance plus its radius; the record names its class, row and layer,
   * and holds the distance less the radius, floored at 0, so it is never
   * negative and never exceeds the (non-negative part of the) clearance.
   */
  lemma RecordedDistance(cfg: Config, cat: Catalog, src: FeatureSource, f: InterestRow, v: Visit)
    ensures Assess(cfg, cat, src, f, v).Failure? <==> v.row.layer !in cat.distances.Get(v.category)
    ensures Assess(cfg, cat, src, f, v).Failure? ==> Assess(cfg, cat, src, f, v).error == MissingThreshold(v.category, v.row.layer)
    ensures Assess(cfg, cat, src, f, v).Success? ==>
      var clearance := cat.distances.Get(v.category)[v.row.layer];
      var radius := Convert(v.row.diameter, cfg.diameterUnits, cfg.thresholdUnits);
      var distance := src.distance(f.shape, v.row.shape);
      && (Assess(cfg, cat, src, f, v).value.Some? <==> distance <= clearance + radius)
      && (Assess(cfg, cat, src, f, v).value.Some? ==>
            var rec := Assess(cfg, cat, src, f, v).value.value;
            && rec == ConflictRecord(v.featureClass, v.row.oid, v.row.handle, v.row.layer, rec.distance)
            && 0.0 <= rec.distance <= Max(0.0, clearance)
            && (rec.distance == distance - radius || (rec.distance == 0.0 && distance <= radius)))
  {
  }

  /**
   * Every conflict found for an interest feature is the record of a row the
   * scan examined: never from Annotation, always admitted by the where
   * clause of its category.
   */
  lemma RecordedConflicts(cfg: Config, cat: Catalog, src: FeatureSource, f: InterestRow)
    requires Conflicts(cfg, cat, src, f).Success?
    ensures forall rec :: rec in Conflicts(cfg, cat, src, f).value ==>
      exists v :: v in SearchOrder(cfg, cat, src) && Assess(cfg, cat, src, f, v) == Success(Some(rec)) &&
                  rec.featureClass == v.featureClass && v.featureClass != Annotation &&
                  v.featureClass in src.featureClasses(v.category) &&
                  v.row in src.rows(v.featureClass) && Admits(cfg, cat, v.category, v.row)
  {
    var vs := SearchOrder(cfg, cat, src);
    SearchRecords(cfg, cat, src, f, vs);
    forall rec | rec in Conflicts(cfg, cat, src, f).value
      ensures exists v :: v in vs && Assess(cfg, cat, src, f, v) == Success(Some(rec)) &&
                          rec.featureClass == v.featureClass && v.featureClass != Annotation &&
                          v.featureClass in src.featureClasses(v.category) &&
                          v.row in src.rows(v.featureClass) && Admits(cfg, cat, v.category, v.row)
    {
      var i :| 0 <= i < |vs| && Assess(cfg, cat, src, f, vs[i]) == Success(Some(rec));
      InSearchOrder(cfg, cat, src, vs[i]);
      RecordedDistance(cfg, cat, src, f, vs[i]);
    }
  }

  /**
   * Two candidates both within their thresholds: a first-conflict search
   * records the first only, an exhaustive one records both, in order.
   */
  lemma TwoQualifyingCandidates(cfg: Config, cat: Catalog, src: FeatureSource, f: InterestRow, v1: Visit, v2: Visit)
    requires Assess(cfg, cat, src, f, v1).Success? && Assess(cfg, cat, src, f, v1).value.Some?
    requires Assess(cfg, cat, src, f, v2).Success? && Assess(cfg, cat, src, f, v2).value.Some?
    ensures Search(cfg.(findAllConflicts := false), cat, src, f, [v1, v2]) ==
      Success([Assess(cfg, cat, src, f, v1).value.value])
    ensures Search(cfg.(findAllConflicts := true), cat, src, f, [v1, v2]) ==
      Success([Assess(cfg, cat, src, f, v1).value.value, Assess(cfg, cat, src, f, v2).value.value])
  {
    var all := cfg.(findAllConflicts := true);
    var first := cfg.(findAllConflicts := false);
    assert Assess(all, cat, src, f, v1) == Assess(cfg, cat, src, f, v1) == Assess(first, cat, src, f, v1);
    assert Assess(all, cat, src, f, v2) == Assess(cfg, cat, src, f, v2);
    assert [v1, v2][1..] == [v2] && [v2][1..] == [];
    var r1 := Assess(cfg, cat, src, f, v1).value.value;
    var r2 := Assess(cfg, cat, src, f, v2).value.value;
    assert [r2] + [] == [r2] && [r1] + [r2] == [r1, r2];
    assert Search(all, cat, src, f, [v2]) == Prepend([r2], Search(all, cat, src, f, []));
    assert Search(all, cat, src, f, [v1, v2]) == Prepend([r1], Search(all, cat, src, f, [v2]));
  }

  /**
   * A candidate 10 away, of diameter 2 in the threshold units, on a layer
   * with clearance 8 is within 8 + 2 and is recorded with 10 - 2 = 8.
   */
  lemma ClearanceExample(cfg: Config, cat: Catalog, src: FeatureSource, f: InterestRow, v: Visit)
    requires cfg.diameterUnits == cfg.thresholdUnits && v.row.diameter == 2.0
    requires v.row.layer in cat.distances.Get(v.category) && cat.distances.Get(v.category)[v.row.layer] == 8.0
    requires src.distance(f.shape, v.row.shape) == 10.0
    ensures Assess(cfg, cat, src, f, v) ==
      Success(Some(ConflictRecord(v.featureClass, v.row.oid, v.row.handle, v.row.layer, 8.0)))
  {
  }
}
