/**
 * The decision step of a process tick: pick the closest observation of a
 * drained batch, decide whether it is worth announcing, and compose the
 * sentence the speech synthesizer is given.
 */
module Guidance {
  import opened Wrappers
  import opened Decimal
  import opened DataPoints

  /** Nothing at 6.00 ft or farther is announced. */
  const SpeakThreshold: nat := 600
  /** The one classification that is never announced. */
  const FloorLabel: string := "Floor"
  const LeftX: int := 50
  const AheadX: int := 200

  // ---------------------------------------------------------------------------
  // Closest-point selection

  /**
   * Specification of the closest-point scan: start from the sentinel and
   * replace the candidate by each point strictly nearer than it, in batch order.
   */
  function Closest(batch: seq<DataPoint>): (c: DataPoint)
    ensures c.distance <= SentinelDistance
    ensures c == WithDistance(SentinelDistance) || c in batch
  {
    if batch == [] then WithDistance(SentinelDistance)
    else
      var rest := Closest(batch[..|batch| - 1]);
      var last := batch[|batch| - 1];
      if last.distance < rest.distance then last else rest
  }

  /** The loop of `processData` that finds the closest point. */
  method FindClosest(batch: seq<DataPoint>) returns (closest: DataPoint)
    ensures closest == Closest(batch)
  {
    closest := WithDistance(SentinelDistance);
    for i := 0 to |batch|
      invariant closest == Closest(batch[..i])
    {
      assert batch[..i + 1][..i] == batch[..i];
      if batch[i].distance < closest.distance {
        closest := batch[i];
      }
    }
    assert batch[..|batch|] == batch;
  }

  /** Some observation of the batch is strictly nearer than the sentinel. */
  ghost predicate HasReading(batch: seq<DataPoint>) {
    exists j | 0 <= j < |batch| :: batch[j].distance < SentinelDistance
  }

  /**
   * The selected point is the earliest observation of minimum distance among
   * those below the sentinel; when there is none, it is the sentinel itself.
   */
  lemma {:induction false} ClosestIsEarliestMinimum(batch: seq<DataPoint>)
    ensures Closest(batch).distance <= SentinelDistance
    ensures forall j | 0 <= j < |batch| :: Closest(batch).distance <= batch[j].distance
    ensures !HasReading(batch) ==> Closest(batch) == WithDistance(SentinelDistance)
    ensures HasReading(batch) ==>
              exists k | 0 <= k < |batch| ::
                && batch[k] == Closest(batch)
                && batch[k].distance < SentinelDistance
                && forall j | 0 <= j < k :: batch[j].distance > batch[k].distance
  {
    if batch != [] {
      var init := batch[..|batch| - 1];
      var last := batch[|batch| - 1];
      ClosestIsEarliestMinimum(init);
      assert forall j | 0 <= j < |init| :: init[j] == batch[j];
      if HasReading(init) {
        var k :| 0 <= k < |init| && init[k] == Closest(init) && init[k].distance < SentinelDistance
          && forall j | 0 <= j < k :: init[j].distance > init[k].distance;
        if last.distance < Closest(init).distance {
          assert batch[|batch| - 1] == Closest(batch);
        } else {
          assert batch[k] == Closest(batch);
        }
      } else if last.distance < SentinelDistance {
        assert batch[|batch| - 1] == Closest(batch);
      } else {
        assert !HasReading(batch) by {
          forall j | 0 <= j < |batch| ensures batch[j].distance >= SentinelDistance {
            if j < |init| { assert batch[j] == init[j]; }
          }
        }
      }
    }
  }

  /** A selected point other than the sentinel is one of the batch's observations. */
  lemma {:induction false} ClosestComesFromBatch(batch: seq<DataPoint>)
    ensures Closest(batch).distance < SentinelDistance ==> Closest(batch) in batch
    ensures Closest(batch).distance < SentinelDistance <==> HasReading(batch)
  {
    ClosestIsEarliestMinimum(batch);
  }

  // ---------------------------------------------------------------------------
  // Direction and utterance

  predicate IsPosition(s: string) {
    s == "left" || s == "ahead" || s == "right"
  }

  /** The direction word for a screen x: the left column, the middle column, or anything else. */
  function Position(x: int): (r: string)
    ensures IsPosition(r)
    ensures r == "left" <==> x == LeftX
    ensures r == "ahead" <==> x == AheadX
  {
    if x == LeftX then "left" else if x == AheadX then "ahead" else "right"
  }

  /**
   * On the sample grid the three columns are, in order, left, ahead and
   * right; so are the requests of a scan tick, whose points `Resolve` keeps.
   */
  lemma SampleGridPositions()
    ensures forall i | 0 <= i < |SampleGrid| ::
              Position(SampleGrid[i].x) == ["left", "ahead", "right"][i % 3]
    ensures forall i | 0 <= i < |ScanRequests()| ::
              Position(ScanRequests()[i].point.x) == ["left", "ahead", "right"][i % 3]
  {
  }

  /** Classification, whole feet, the word "feet", then the direction, with no separators. */
  function Utterance(p: DataPoint): (u: string)
    ensures var c, w := |p.classification|, |Position(p.point.x)|;
            && c < |u| - w - 4
            && u[..c] == p.classification
            && Canonical(u[c..|u| - w - 4])
            && DecimalValue(u[c..|u| - w - 4]) == p.distance / 100
            && u[|u| - w - 4..|u| - w] == "feet"
            && u[|u| - w..] == Position(p.point.x)
  {
    var numeral, position := DecimalString(p.distance / 100), Position(p.point.x);
    ValueOfDecimalString(p.distance / 100);
    var u := p.classification + numeral + "feet" + position;
    assert u[|p.classification|..|u| - |position| - 4] == numeral;
    u
  }

  /** What is announced for a selected point, if anything. */
  function Announce(p: DataPoint): (r: Option<string>)
    ensures r.Some? <==> p.distance < SpeakThreshold && p.classification != FloorLabel
    ensures r.Some? ==> r.value == Utterance(p)
  {
    if p.distance >= SpeakThreshold then None
    else if p.classification == FloorLabel then None
    else Some(Utterance(p))
  }

  /**
   * What a process tick announces for a drained batch: when anything, the
   * sentence of one of the batch's own observations, nearer than 6.00 ft
   * and not floor.
   */
  function Decide(batch: seq<DataPoint>): (r: Option<string>)
    ensures r.Some? ==>
              exists k | 0 <= k < |batch| ::
                && r.value == Utterance(batch[k])
                && batch[k].distance < SpeakThreshold
                && batch[k].classification != FloorLabel
  {
    ClosestComesFromBatch(batch);
    Announce(Closest(batch))
  }

  /**
   * A batch is announced exactly when its selected point is nearer than
   * 6.00 ft and not floor; then the sentence is that point's, the point comes
   * from the batch, and the spoken number of feet is at most five.
   */
  lemma {:induction false} DecideSpeaksIff(batch: seq<DataPoint>)
    ensures Decide(batch).Some? <==>
              Closest(batch).distance < SpeakThreshold && Closest(batch).classification != FloorLabel
    ensures Decide(batch).Some? ==>
              && Closest(batch) in batch
              && Decide(batch).value == Utterance(Closest(batch))
              && Closest(batch).distance / 100 <= 5
  {
  }

  /** Threshold and floor are tested on the selected point only: a nearer floor point silences the batch. */
  lemma FloorShadowsFartherObstacles(batch: seq<DataPoint>, k: nat)
    requires k < |batch| && batch[k].classification == FloorLabel
    requires forall j | 0 <= j < |batch| && j != k :: batch[k].distance < batch[j].distance
    ensures Decide(batch) == None
  {
    ClosestIsEarliestMinimum(batch);
    if HasReading(batch) {
      var m :| 0 <= m < |batch| && batch[m] == Closest(batch) && batch[m].distance < SentinelDistance
        && forall j | 0 <= j < m :: batch[j].distance > batch[m].distance;
      assert m == k;
    }
  }

  /** With no observation nearer than 6.00 ft (including an all-sentinel batch) nothing is said. */
  lemma {:induction false} NothingNearIsSilent(batch: seq<DataPoint>)
    requires forall j | 0 <= j < |batch| :: batch[j].distance >= SpeakThreshold
    ensures Decide(batch) == None
  {
  }

  /** Worked cases: exactly 6.00 ft is silent, 5.99 ft is announced as 5 feet. */
  lemma ThresholdExamples()
    ensures Decide([DataPoint(ScreenPoint(200, 350), 600, "Wall")]) == None
    ensures Decide([DataPoint(ScreenPoint(200, 350), 599, "Wall")]) == Some("Wall5feetahead")
  {
    var ahead := DataPoint(ScreenPoint(200, 350), 599, "Wall");
    assert [ahead][..0] == [];
    assert Closest([ahead]) == ahead;
    assert DecimalString(599 / 100) == "5";
    assert Utterance(ahead) == "Wall" + "5" + "feet" + "ahead" == "Wall5feetahead";
  }

  /** Worked cases: a nearer floor point silences a wall; a farther one leaves it announced. */
  lemma FloorExamples()
    ensures Decide([DataPoint(ScreenPoint(350, 100), 300, "Wall"), DataPoint(ScreenPoint(50, 650), 120, "Floor")]) == None
    ensures Decide([DataPoint(ScreenPoint(350, 100), 300, "Wall"), DataPoint(ScreenPoint(50, 650), 720, "Floor")]) == Some("Wall3feetright")
  {
    var b := [DataPoint(ScreenPoint(350, 100), 300, "Wall"), DataPoint(ScreenPoint(50, 650), 120, "Floor")];
    assert b[..1] == [b[0]];
    var c := [DataPoint(ScreenPoint(350, 100), 300, "Wall"), DataPoint(ScreenPoint(50, 650), 720, "Floor")];
    assert c[..1] == [c[0]];
    assert [c[0]][..0] == [];
    assert Closest(c) == c[0];
    assert DecimalString(300 / 100) == "3";
    assert Utterance(c[0]) == "Wall" + "3" + "feet" + "right" == "Wall3feetright";
  }

  /** Worked case: of two points at the same distance, the earlier one is announced. */
  lemma TieExample()
    ensures Decide([DataPoint(ScreenPoint(50, 100), 250, "Seat"), DataPoint(ScreenPoint(350, 500), 250, "Table")]) == Some("Seat2feetleft")
  {
    var d := [DataPoint(ScreenPoint(50, 100), 250, "Seat"), DataPoint(ScreenPoint(350, 500), 250, "Table")];
    assert d[..1] == [d[0]];
    assert [d[0]][..0] == [];
    assert Closest(d) == d[0];
    assert DecimalString(250 / 100) == "2";
    assert Utterance(d[0]) == "Seat" + "2" + "feet" + "left" == "Seat2feetleft";
  }

  // ---------------------------------------------------------------------------
  // Reading an utterance back

  /** The three parts an utterance is made of. */
  datatype Announcement = Announcement(classification: string, feet: nat, position: string)

  function NonDigitPrefix(s: string): (n: nat)
    ensures n <= |s| && NoDigits(s[..n])
    ensures n < |s| ==> IsDigit(s[n])
  {
    if s == [] || IsDigit(s[0]) then 0
    else
      var n := 1 + NonDigitPrefix(s[1..]);
      assert forall i | 1 <= i < n :: s[..n][i] == s[1..][..n - 1][i - 1];
      n
  }

  function DigitPrefix(s: string): (n: nat)
    ensures n <= |s| && AllDigits(s[..n])
    ensures n < |s| ==> !IsDigit(s[n])
  {
    if s == [] || !IsDigit(s[0]) then 0
    else
      var n := 1 + DigitPrefix(s[1..]);
      assert forall i | 1 <= i < n :: s[..n][i] == s[1..][..n - 1][i - 1];
      n
  }

  /**
   * Splits a sentence into classification, number and direction: the
   * classification is everything before the first digit, the number the
   * digit run after it, which must be followed by "feet" and a direction word.
   */
  function ParseUtterance(u: string): Option<Announcement> {
    var i := NonDigitPrefix(u);
    var rest := u[i..];
    var j := DigitPrefix(rest);
    var after := rest[j..];
    if j == 0 || |after| < 4 || after[..4] != "feet" || !IsPosition(after[4..]) then None
    else Some(Announcement(u[..i], DecimalValue(rest[..j]), after[4..]))
  }

  lemma {:induction false} NonDigitPrefixOfConcat(a: string, b: string)
    requires NoDigits(a) && b != [] && IsDigit(b[0])
    ensures NonDigitPrefix(a + b) == |a|
  {
    if a != [] {
      assert (a + b)[0] == a[0];
      assert (a + b)[1..] == a[1..] + b;
      NonDigitPrefixOfConcat(a[1..], b);
    }
  }

  lemma {:induction false} DigitPrefixOfConcat(a: string, b: string)
    requires AllDigits(a) && b != [] && !IsDigit(b[0])
    ensures DigitPrefix(a + b) == |a|
  {
    if a != [] {
      assert (a + b)[0] == a[0];
      assert (a + b)[1..] == a[1..] + b;
      DigitPrefixOfConcat(a[1..], b);
    }
  }

  /**
   * An utterance is unambiguous when the classification holds no digit (as
   * every mesh classification name does): reading it back yields the
   * classification, the truncated number of feet and the direction.
   */
  lemma ParseUtteranceRoundTrip(p: DataPoint)
    requires NoDigits(p.classification)
    ensures ParseUtterance(Utterance(p)) ==
              Some(Announcement(p.classification, p.distance / 100, Position(p.point.x)))
  {
    var c, ds, pos := p.classification, DecimalString(p.distance / 100), Position(p.point.x);
    var tail := "feet" + pos;
    var u := c + (ds + tail);
    assert u == Utterance(p);
    NonDigitPrefixOfConcat(c, ds + tail);
    assert u[|c|..] == ds + tail;
    assert u[..|c|] == c;
    DigitPrefixOfConcat(ds, tail);
    assert (ds + tail)[|ds|..] == tail;
    assert (ds + tail)[..|ds|] == ds;
    assert tail[..4] == "feet" && tail[4..] == pos;
    ValueOfDecimalString(p.distance / 100);
  }
}
