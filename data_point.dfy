/**
 * The observation record `DataPoint` and the fixed screen grid that the
 * scan cycle probes. Distances are whole hundredths of a foot: the
 * geometry query rounds its feet value to two decimals before storing it.
 */
module DataPoints {

  /** A screen coordinate; the grid only uses whole-point coordinates. */
  datatype ScreenPoint = ScreenPoint(x: int, y: int)

  /** A resolved observation: where on screen, how far (in 0.01 ft), and what surface. */
  datatype DataPoint = DataPoint(point: ScreenPoint, distance: nat, classification: string)

  /** The distance of the "no reading yet" point the closest-point search starts from (100 ft). */
  const SentinelDistance: nat := 10000

  /** `init(cgPoint:)`: only the screen point is known; distance 0, no classification. */
  function AtScreenPoint(p: ScreenPoint): (d: DataPoint)
    ensures d.point == p && d.distance == 0 && d.classification == ""
  {
    DataPoint(p, 0, "")
  }

  /** `init(distance:)`: a point at the screen origin with the given distance and no classification. */
  function WithDistance(d: nat): (r: DataPoint)
    ensures r.point == ScreenPoint(0, 0) && r.distance == d && r.classification == ""
  {
    DataPoint(ScreenPoint(0, 0), d, "")
  }

  const GridColumns: seq<int> := [50, 200, 350]
  const GridRows: seq<int> := [100, 350, 500, 650]

  /** The twelve points `simulateTaps` probes on every scan tick, in the order it lists them. */
  const SampleGrid: seq<ScreenPoint> := [
    ScreenPoint(50, 100), ScreenPoint(200, 100), ScreenPoint(350, 100),
    ScreenPoint(50, 350), ScreenPoint(200, 350), ScreenPoint(350, 350),
    ScreenPoint(50, 500), ScreenPoint(200, 500), ScreenPoint(350, 500),
    ScreenPoint(50, 650), ScreenPoint(200, 650), ScreenPoint(350, 650)
  ]

  /** The unresolved observations one scan tick creates, one per grid point. */
  function ScanRequests(): (ps: seq<DataPoint>)
    ensures |ps| == |GridColumns| * |GridRows|
    ensures forall i | 0 <= i < |ps| ::
              ps[i] == DataPoint(ScreenPoint(GridColumns[i % 3], GridRows[i / 3]), 0, "")
  {
    SampleGridIsRowMajorProduct();
    seq(|SampleGrid|, i requires 0 <= i < |SampleGrid| => AtScreenPoint(SampleGrid[i]))
  }

  /**
   * The completion of a geometry query for `request`: the point keeps its
   * screen coordinate and takes the measured distance and classification.
   */
  function Resolve(request: DataPoint, distance: nat, classification: string): (p: DataPoint)
    ensures p.point == request.point && p.distance == distance && p.classification == classification
  {
    DataPoint(request.point, distance, classification)
  }

  /**
   * The grid is the row-major product of three columns and four rows:
   * twelve distinct points, each column of each row exactly once.
   */
  lemma SampleGridIsRowMajorProduct()
    ensures |SampleGrid| == |GridColumns| * |GridRows| == 12
    ensures forall i | 0 <= i < |SampleGrid| ::
              SampleGrid[i] == ScreenPoint(GridColumns[i % 3], GridRows[i / 3])
    ensures forall i, j | 0 <= i < j < |SampleGrid| :: SampleGrid[i] != SampleGrid[j]
  {
  }

  /** A point is in the grid exactly when its x is a grid column and its y a grid row. */
  lemma SampleGridMembership(p: ScreenPoint)
    ensures p in SampleGrid <==> p.x in GridColumns && p.y in GridRows
  {
  }
}
