/** The rolling buffer of the EKG / pressure chart: every reading is pushed,
    and once the buffer exceeds `maxPoints` the oldest point is shifted out.
    Drawing is not modelled. */
module EkgChart {
  import opened Common
  import Db

  /** `EkgPressurePoint`. */
  datatype EkgPressurePoint = EkgPressurePoint(time: Time, ekg: Number, pressure: Number)

  /** The point drawn for a reading. */
  function PointOf(reading: Db.SensorData): (p: EkgPressurePoint)
    ensures p.time == reading.timestamp && p.ekg == reading.ekg && p.pressure == reading.pressure
  {
    EkgPressurePoint(reading.timestamp, reading.ekg, reading.pressure)
  }

  /** One update: push, then shift once if the length exceeds `maxPoints`. */
  function Step<T>(buffer: seq<T>, p: T, maxPoints: nat): (r: seq<T>)
    ensures |r| == if |buffer| + 1 > maxPoints then |buffer| else |buffer| + 1
  {
    var pushed := buffer + [p];
    if |pushed| > maxPoints then pushed[1..] else pushed
  }

  /** The buffer after the given points arrived one by one into an empty one. */
  function Replay<T>(points: seq<T>, maxPoints: nat): seq<T> {
    if points == [] then []
    else Step(Replay(points[..|points| - 1], maxPoints), points[|points| - 1], maxPoints)
  }

  /** The last `n` points (all of them when there are fewer). */
  function LastN<T>(points: seq<T>, n: nat): (r: seq<T>)
    ensures |r| == if |points| <= n then |points| else n
    ensures r == points[|points| - |r|..]
  {
    if |points| <= n then points else points[|points| - n..]
  }

  /** Below capacity a step appends; at capacity it drops the oldest point and
      appends; either way the new point is last and the bound is kept. */
  lemma StepShape<T>(buffer: seq<T>, p: T, maxPoints: nat)
    requires 0 < maxPoints && |buffer| <= maxPoints
    ensures var r := Step(buffer, p, maxPoints);
            && |r| <= maxPoints && r[|r| - 1] == p
            && (|buffer| < maxPoints ==> r == buffer + [p])
            && (|buffer| == maxPoints ==> r == buffer[1..] + [p])
  {
  }

  /** A step on a full buffer drops its oldest point. */
  lemma StepAtCapacity<T>(buffer: seq<T>, p: T, maxPoints: nat)
    requires 0 < maxPoints && |buffer| == maxPoints
    ensures Step(buffer, p, maxPoints) == buffer[1..] + [p]
  {
    assert (buffer + [p])[1..] == buffer[1..] + [p];
  }

  /** The buffer is FIFO: after any arrival history it holds exactly the last
      `maxPoints` points in arrival order. */
  lemma {:induction false} ReplayIsLastN<T>(points: seq<T>, maxPoints: nat)
    requires 0 < maxPoints
    ensures Replay(points, maxPoints) == LastN(points, maxPoints)
  {
    if points != [] {
      var init := points[..|points| - 1];
      var p := points[|points| - 1];
      ReplayIsLastN(init, maxPoints);
      assert points == init + [p];
      LastNStep(init, p, maxPoints);
    }
  }

  /** Taking the last `n` points commutes with a step. */
  lemma LastNStep<T>(init: seq<T>, p: T, n: nat)
    requires 0 < n
    ensures Step(LastN(init, n), p, n) == LastN(init + [p], n)
  {
    if |init| < n {
      assert Step(init, p, n) == init + [p];
    } else {
      var w := init[|init| - n..];
      StepAtCapacity(w, p, n);
      assert w[1..] + [p] == (init + [p])[|init| + 1 - n..];
    }
  }

  class EkgPressureChartComponent {
    const maxPoints: nat := 200
    /** `data`: the points drawn, oldest first. */
    var data: seq<EkgPressurePoint>
    /** Every point handled so far, oldest first. */
    ghost var received: seq<EkgPressurePoint>

    ghost predicate Valid()
      reads this
    {
      data == Replay(received, maxPoints)
    }

    constructor ()
      ensures Valid() && data == [] && received == []
    {
      data := [];
      received := [];
    }

    /** `handleNewReading`. */
    method HandleNewReading(reading: Db.SensorData)
      requires Valid()
      modifies this`data, this`received
      ensures Valid()
      ensures received == old(received) + [PointOf(reading)]
      ensures data == Step(old(data), PointOf(reading), maxPoints)
      ensures data == LastN(received, maxPoints)
      ensures |data| <= maxPoints && data[|data| - 1] == PointOf(reading)
      ensures |old(data)| < maxPoints ==> data == old(data) + [PointOf(reading)]
      ensures |old(data)| == maxPoints ==> data == old(data)[1..] + [PointOf(reading)]
    {
      var point := PointOf(reading);
      ghost var history := received + [point];
      assert history[..|history| - 1] == received;
      ReplayIsLastN(received, maxPoints);
      ReplayIsLastN(history, maxPoints);
      StepShape(data, point, maxPoints);
      var buffer := data + [point];
      if |buffer| > maxPoints {
        buffer := buffer[1..];
      }
      data := buffer;
      received := history;
    }
  }
}
