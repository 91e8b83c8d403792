/**
 * The controller state the two timers share: the queue of resolved
 * observations, filled by geometry-query completions and drained by the
 * process tick.
 */
module Pipeline {
  import opened Wrappers
  import opened Decimal
  import opened DataPoints
  import opened Fifo
  import opened Guidance

  class GuidancePipeline {
    const pointQueue: Queue<DataPoint>

    ghost predicate Valid()
      reads this, pointQueue
    {
      pointQueue.Valid()
    }

    constructor ()
      ensures Valid() && fresh(pointQueue)
      ensures pointQueue.Contents == [] && pointQueue.Enqueued == [] && pointQueue.Removed == []
    {
      pointQueue := new Queue<DataPoint>();
    }

    /**
     * The completion of a geometry query: the point, now carrying its
     * distance and classification, joins the back of the queue.
     */
    method OnPointResolved(p: DataPoint)
      requires Valid()
      modifies pointQueue
      ensures Valid()
      ensures pointQueue.Contents == old(pointQueue.Contents) + [p]
      ensures pointQueue.Enqueued == old(pointQueue.Enqueued) + [p]
      ensures pointQueue.Removed == old(pointQueue.Removed)
    {
      pointQueue.Enqueue(p);
    }

    /**
     * One process tick. On an empty queue nothing happens and nothing is
     * said. Otherwise the whole queue is drained, whether or not anything
     * is said, and the result is the sentence for the drained batch, if any.
     */
    method ProcessData() returns (utterance: Option<string>)
      requires Valid()
      modifies pointQueue
      ensures Valid()
      ensures pointQueue.Enqueued == old(pointQueue.Enqueued)
      ensures old(pointQueue.Contents) == [] ==>
                && utterance == None
                && pointQueue.Contents == [] && pointQueue.Removed == old(pointQueue.Removed)
      ensures old(pointQueue.Contents) != [] ==>
                && pointQueue.Contents == []
                && pointQueue.Removed == old(pointQueue.Removed) + old(pointQueue.Contents)
                && utterance == Decide(old(pointQueue.Contents))
    {
      if pointQueue.IsEmpty() {
        return None;
      }
      var pointList := pointQueue.DequeueAll();
      var closestPoint := FindClosest(pointList);
      if closestPoint.distance >= SpeakThreshold {
        return None;
      }
      var distance := closestPoint.distance / 100;
      if closestPoint.classification == FloorLabel {
        return None;
      }
      var position := Position(closestPoint.point.x);
      utterance := Some(closestPoint.classification + DecimalString(distance) + "feet" + position);
    }
  }

  /** The batch of the scenario below: a door at 5.10 ft ahead, then a wall at 4.37 ft on the left. */
  lemma DoorThenWallBatch()
    ensures Decide([DataPoint(ScreenPoint(200, 350), 510, "Door"), DataPoint(ScreenPoint(50, 500), 437, "Wall")])
              == Some("Wall4feetleft")
  {
    var far := DataPoint(ScreenPoint(200, 350), 510, "Door");
    var near := DataPoint(ScreenPoint(50, 500), 437, "Wall");
    assert [far, near][..1] == [far] && [far][..0] == [];
    assert Closest([far]) == far;
    assert Closest([far, near]) == near;
    assert DecimalString(437 / 100) == "4";
    assert Utterance(near) == "Wall" + "4" + "feet" + "left" == "Wall4feetleft";
  }

  /**
   * Two scan completions and two process ticks: the first tick speaks about
   * the nearer point and empties the queue; the second is silent, and both
   * points were handed out exactly once.
   */
  method TwoCompletionsThenTwoTicks() returns (first: Option<string>, second: Option<string>)
    ensures first == Some("Wall4feetleft") && second == None
  {
    var pipeline := new GuidancePipeline();
    var far := DataPoint(ScreenPoint(200, 350), 510, "Door");
    var near := DataPoint(ScreenPoint(50, 500), 437, "Wall");
    pipeline.OnPointResolved(far);
    pipeline.OnPointResolved(near);
    assert pipeline.pointQueue.Contents == [far, near];
    DoorThenWallBatch();
    first := pipeline.ProcessData();
    second := pipeline.ProcessData();
    assert pipeline.pointQueue.Removed == [far, near] == pipeline.pointQueue.Enqueued;
  }
}
