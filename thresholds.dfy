/**
 * The threshold catalog: per shape category, the clearance of every layer
 * named in the threshold table (`threshold_distances`) and the list of those
 * layer names in table order (`defined_threshold_layers`).
 */
module Thresholds {
  import opened Wrappers

  datatype ShapeCategory = Point | Polyline | Polygon | Multipatch

  /** `RELEVANT_SHAPE_TYPES`, in the order the scan visits them. */
  const ShapeTypes: seq<ShapeCategory> := [Point, Polyline, Polygon, Multipatch]

  /** The dictionary key under which the source files a category. */
  function Key(c: ShapeCategory): string
  {
    match c
    case Point => "point"
    case Polyline => "polyline"
    case Polygon => "polygon"
    case Multipatch => "multipatch"
  }

  /** Indexing the catalog by a key: only the four category keys exist. */
  function CategoryOf(key: string): Option<ShapeCategory>
  {
    if key == "point" then Some(Point)
    else if key == "polyline" then Some(Polyline)
    else if key == "polygon" then Some(Polygon)
    else if key == "multipatch" then Some(Multipatch)
    else None
  }

  /** Each category is found under its own key and under no other. */
  lemma KeyRoundTrip(c: ShapeCategory, key: string)
    ensures CategoryOf(Key(c)) == Some(c)
    ensures CategoryOf(key) == Some(c) ==> key == Key(c)
  {
  }

  function LowerChar(ch: char): char
  {
    if 'A' <= ch <= 'Z' then (ch as int - 'A' as int + 'a' as int) as char else ch
  }

  function Lower(s: string): string
  {
    seq(|s|, i requires 0 <= i < |s| => LowerChar(s[i]))
  }

  /** The key a threshold row's shape label selects: lower-cased, "line" read as "polyline". */
  function FeatureType(shapeLabel: string): string
  {
    var t := Lower(shapeLabel);
    if t == "line" then "polyline" else t
  }

  /**
   * A label selects category `c` when, lower-cased, it is the key of `c`, or
   * it is "line" and `c` is Polyline.
   */
  lemma LabelSelects(shapeLabel: string, c: ShapeCategory)
    ensures CategoryOf(FeatureType(shapeLabel)) == Some(c) <==>
      Lower(shapeLabel) == Key(c) || (c == Polyline && Lower(shapeLabel) == "line")
  {
  }

  /** One row of the threshold table: layer name, clearance, shape label. */
  datatype ThresholdRow = ThresholdRow(layer: string, distance: real, outputType: string)

  /**
   * The category each row's shape label selects, in table order; None where
   * the lookup `threshold_distances[feature_type]` would fail.
   */
  function Classify(rows: seq<ThresholdRow>): (shapes: seq<Option<ShapeCategory>>)
    ensures |shapes| == |rows|
  {
    seq(|rows|, i requires 0 <= i < |rows| => CategoryOf(FeatureType(rows[i].outputType)))
  }

  /**
   * A dictionary keyed by the four categories. The source creates each entry
   * before reading the table and never adds or removes one, so the entries
   * are fields.
   */
  datatype ByShape<V> = ByShape(point: V, polyline: V, polygon: V, multipatch: V)
  {
    function Get(c: ShapeCategory): V
    {
      match c
      case Point => point
      case Polyline => polyline
      case Polygon => polygon
      case Multipatch => multipatch
    }

    function Set(c: ShapeCategory, v: V): (r: ByShape<V>)
      ensures r.Get(c) == v
      ensures forall d :: d != c ==> r.Get(d) == Get(d)
    {
      match c
      case Point => this.(point := v)
      case Polyline => this.(polyline := v)
      case Polygon => this.(polygon := v)
      case Multipatch => this.(multipatch := v)
    }
  }

  /** `threshold_distances` and `defined_threshold_layers`. */
  datatype Catalog = Catalog(distances: ByShape<map<string, real>>, defined: ByShape<seq<string>>)

  /** A layer has a clearance in a category exactly when it is on that category's list. */
  ghost predicate Consistent(cat: Catalog)
  {
    forall c, name :: name in cat.distances.Get(c) <==> name in cat.defined.Get(c)
  }

  /** The error the dictionary lookup raises: a row whose label is no category. */
  datatype LoadError = UnknownShapeType(row: nat, key: string)

  /** Both tables with an empty entry for each category (conflict-detection.py:78-82). */
  const EmptyCatalog: Catalog :=
    Catalog(ByShape(map[], map[], map[], map[]), ByShape([], [], [], []))

  /** Filing one row: set its clearance and append its layer to the category's list. */
  function Enter(cat: Catalog, c: ShapeCategory, row: ThresholdRow): Catalog
  {
    Catalog(
      cat.distances.Set(c, cat.distances.Get(c)[row.layer := row.distance]),
      cat.defined.Set(c, cat.defined.Get(c) + [row.layer]))
  }

  /**
   * The catalog the loading loop leaves after the first `n` rows of the
   * table, whose labels select the categories `shapes`, or the error that
   * ends the loop.
   */
  function File(rows: seq<ThresholdRow>, shapes: seq<Option<ShapeCategory>>, n: nat): Result<Catalog, LoadError>
    requires |shapes| == |rows| && n <= |rows|
  {
    if n == 0 then Success(EmptyCatalog)
    else
      match File(rows, shapes, n - 1)
      case Failure(e) => Failure(e)
      case Success(cat) =>
        match shapes[n - 1]
        case None => Failure(UnknownShapeType(n - 1, FeatureType(rows[n - 1].outputType)))
        case Some(c) => Success(Enter(cat, c, rows[n - 1]))
  }

  /** Loading the whole threshold table. */
  function Load(rows: seq<ThresholdRow>): Result<Catalog, LoadError>
  {
    File(rows, Classify(rows), |rows|)
  }

  /** The first `n` rows of the table load into `cat`. */
  ghost predicate Filed(rows: seq<ThresholdRow>, shapes: seq<Option<ShapeCategory>>, n: nat, cat: Catalog)
  {
    |shapes| == |rows| && n <= |rows| && File(rows, shapes, n) == Success(cat)
  }

  /**
   * Filing row `n` after the first `n` rows loaded into `cat`: a label that
   * names no category fails the whole load, any other files the row.
   */
  lemma FileNext(rows: seq<ThresholdRow>, shapes: seq<Option<ShapeCategory>>, n: nat, cat: Catalog)
    requires Filed(rows, shapes, n, cat) && n < |rows|
    ensures shapes[n].None? ==> File(rows, shapes, |rows|) == Failure(UnknownShapeType(n, FeatureType(rows[n].outputType)))
    ensures shapes[n].Some? ==> Filed(rows, shapes, n + 1, Enter(cat, shapes[n].value, rows[n]))
  {
    if shapes[n].None? {
      FileKeepsFailure(rows, shapes, n + 1, |rows|);
    }
  }

  /**
   * The body of the loading loop (conflict-detection.py:86-90): lower the
   * label, read "line" as "polyline", and file the row under the category
   * of that key; a key that is no category fails. It computes one step of
   * `File` (via `Enter`), kept as a method so that `LoadThresholds` has the
   * source's loop; the promises are proved of `File` and `Load`.
   */
  method FileRow(thresholdDistances: ByShape<map<string, real>>, definedThresholdLayers: ByShape<seq<string>>,
                 row: ThresholdRow, i: nat)
    returns (r: Result<Catalog, LoadError>)
    ensures CategoryOf(FeatureType(row.outputType)).None? ==>
      r == Failure(UnknownShapeType(i, FeatureType(row.outputType)))
    ensures CategoryOf(FeatureType(row.outputType)).Some? ==>
      r == Success(Enter(Catalog(thresholdDistances, definedThresholdLayers), CategoryOf(FeatureType(row.outputType)).value, row))
  {
    var featureType := Lower(row.outputType);
    if featureType == "line" {
      featureType := "polyline";
    }
    var shapeType := CategoryOf(featureType);
    if shapeType.None? {
      return Failure(UnknownShapeType(i, featureType));
    }
    var c := shapeType.value;
    return Success(Catalog(
      thresholdDistances.Set(c, thresholdDistances.Get(c)[row.layer := row.distance]),
      definedThresholdLayers.Set(c, definedThresholdLayers.Get(c) + [row.layer])));
  }

  /**
   * The loop at conflict-detection.py:84-90: file each row of the threshold
   * table in turn.
   */
  method LoadThresholds(rows: seq<ThresholdRow>) returns (r: Result<Catalog, LoadError>)
    ensures r == Load(rows)
  {
    ghost var shapes := Classify(rows);
    var thresholdDistances := EmptyCatalog.distances;
    var definedThresholdLayers := EmptyCatalog.defined;
    for i := 0 to |rows|
      invariant Filed(rows, shapes, i, Catalog(thresholdDistances, definedThresholdLayers))
    {
      FileNext(rows, shapes, i, Catalog(thresholdDistances, definedThresholdLayers));
      var filed := FileRow(thresholdDistances, definedThresholdLayers, rows[i], i);
      match filed
      case Failure(_) =>
        return filed;
      case Success(cat) =>
        thresholdDistances := cat.distances;
        definedThresholdLayers := cat.defined;
    }
    return Success(Catalog(thresholdDistances, definedThresholdLayers));
  }

  /** Once the first `n` rows fail to load, every longer prefix fails the same way. */
  lemma {:induction false} FileKeepsFailure(rows: seq<ThresholdRow>, shapes: seq<Option<ShapeCategory>>, n: nat, m: nat)
    requires |shapes| == |rows| && n <= m <= |rows| && File(rows, shapes, n).Failure?
    ensures File(rows, shapes, m) == File(rows, shapes, n)
    decreases m
  {
    if n < m {
      FileKeepsFailure(rows, shapes, n, m - 1);
    }
  }

  /**
   * Loading fails exactly when some row's label names no category, and the
   * error reports the first such row and the key it looked up.
   */
  lemma {:induction false} LoadFailsOnUnknownLabel(rows: seq<ThresholdRow>, shapes: seq<Option<ShapeCategory>>, n: nat)
    requires |shapes| == |rows| && n <= |rows|
    ensures File(rows, shapes, n).Failure? <==> exists i :: 0 <= i < n && shapes[i].None?
    ensures File(rows, shapes, n).Failure? ==>
      var i := File(rows, shapes, n).error.row;
      && i < n
      && shapes[i].None?
      && File(rows, shapes, n).error.key == FeatureType(rows[i].outputType)
      && forall j :: 0 <= j < i ==> shapes[j].Some?
  {
    if n > 0 {
      LoadFailsOnUnknownLabel(rows, shapes, n - 1);
    }
  }

  /** The layer names of the first `n` rows filed under `c`, in table order, repeats kept. */
  function LayersOf(rows: seq<ThresholdRow>, shapes: seq<Option<ShapeCategory>>, c: ShapeCategory, n: nat): seq<string>
    requires |shapes| == |rows| && n <= |rows|
  {
    if n == 0 then []
    else LayersOf(rows, shapes, c, n - 1) + if shapes[n - 1] == Some(c) then [rows[n - 1].layer] else []
  }

  /**
   * After a successful load, each category's list holds the layer names of
   * the rows filed under it, in table order and with repeats.
   */
  lemma {:induction false} LoadedLayers(rows: seq<ThresholdRow>, shapes: seq<Option<ShapeCategory>>, c: ShapeCategory, n: nat)
    requires |shapes| == |rows| && n <= |rows| && File(rows, shapes, n).Success?
    ensures File(rows, shapes, n).value.defined.Get(c) == LayersOf(rows, shapes, c, n)
  {
    if n > 0 {
      LoadedLayers(rows, shapes, c, n - 1);
    }
  }

  /** A layer is on the list of `c` exactly when one of the first `n` rows files it there. */
  lemma {:induction false} LayersOfMembers(rows: seq<ThresholdRow>, shapes: seq<Option<ShapeCategory>>, c: ShapeCategory, name: string, n: nat)
    requires |shapes| == |rows| && n <= |rows|
    ensures name in LayersOf(rows, shapes, c, n) <==>
      exists i :: 0 <= i < n && shapes[i] == Some(c) && rows[i].layer == name
  {
    if n > 0 {
      LayersOfMembers(rows, shapes, c, name, n - 1);
    }
  }

  /**
   * After a successful load, a layer has a clearance in category `c` exactly
   * when some row of the table files it there.
   */
  lemma {:induction false} ThresholdDefined(rows: seq<ThresholdRow>, shapes: seq<Option<ShapeCategory>>, c: ShapeCategory, name: string, n: nat)
    requires |shapes| == |rows| && n <= |rows| && File(rows, shapes, n).Success?
    ensures name in File(rows, shapes, n).value.distances.Get(c) <==>
      exists i :: 0 <= i < n && shapes[i] == Some(c) && rows[i].layer == name
  {
    if n > 0 {
      ThresholdDefined(rows, shapes, c, name, n - 1);
    }
  }

  /**
   * After a successful load, the clearance of layer `name` in category `c` is
   * that of the last row filing it there: later rows overwrite earlier ones.
   */
  lemma {:induction false} LastThresholdWins(rows: seq<ThresholdRow>, shapes: seq<Option<ShapeCategory>>, c: ShapeCategory, name: string, n: nat, i: nat)
    requires |shapes| == |rows| && n <= |rows| && File(rows, shapes, n).Success?
    requires i < n && shapes[i] == Some(c) && rows[i].layer == name
    requires forall j :: i < j < n ==> shapes[j] != Some(c) || rows[j].layer != name
    ensures name in File(rows, shapes, n).value.distances.Get(c)
    ensures File(rows, shapes, n).value.distances.Get(c)[name] == rows[i].distance
  {
    if i < n - 1 {
      LastThresholdWins(rows, shapes, c, name, n - 1, i);
    }
  }

  /** A loaded catalog is consistent: its two tables name the same layers per category. */
  lemma LoadedConsistent(rows: seq<ThresholdRow>, shapes: seq<Option<ShapeCategory>>, n: nat)
    requires |shapes| == |rows| && n <= |rows| && File(rows, shapes, n).Success?
    ensures Consistent(File(rows, shapes, n).value)
  {
  }
}
