/** The point-cloud viewer: it accepts a non-empty array of points from the
    point-cloud channel, remembers it, and replaces the single points object of
    the scene with one built from a flat position buffer. Rendering, camera
    placement and the animation loop are not modelled. */
module PointcloudViewer {
  import opened Common
  import CppApi

  /** The flat position buffer of a cloud: `x, y, z` of each point in turn;
      normals are not used. */
  function Positions(data: seq<Point>): (r: seq<Number>)
    ensures |r| == 3 * |data|
    ensures forall i | 0 <= i < |data| ::
              r[3 * i] == data[i].x && r[3 * i + 1] == data[i].y && r[3 * i + 2] == data[i].z
  {
    if data == [] then []
    else
      assert forall i | 1 <= i < |data| :: data[1..][i - 1] == data[i];
      [data[0].x, data[0].y, data[0].z] + Positions(data[1..])
  }

  /** The flattening loop: fills a new buffer of `3 * n` numbers. */
  method FillPositions(data: seq<Point>) returns (positions: array<Number>)
    ensures fresh(positions)
    ensures positions.Length == 3 * |data|
    ensures positions[..] == Positions(data)
  {
    positions := new Number[3 * |data|];
    var i := 0;
    while i < |data|
      invariant 0 <= i <= |data|
      invariant forall j | 0 <= j < i ::
                  positions[3 * j] == data[j].x && positions[3 * j + 1] == data[j].y
                  && positions[3 * j + 2] == data[j].z
    {
      positions[3 * i] := data[i].x;
      positions[3 * i + 1] := data[i].y;
      positions[3 * i + 2] := data[i].z;
      i := i + 1;
    }
    var expected := Positions(data);
    forall k | 0 <= k < 3 * |data|
      ensures positions[k] == expected[k]
    {
      var j := k / 3;
      assert 0 <= j < |data| && data[j] == data[j];
      assert k == 3 * j || k == 3 * j + 1 || k == 3 * j + 2;
    }
  }

  /** A `THREE.Points` object over a position buffer. */
  class PointsObject {
    const positions: array<Number>

    constructor (positions: array<Number>)
      ensures this.positions == positions
    {
      this.positions := positions;
    }
  }

  /** A child of the scene. */
  datatype SceneNode = AmbientLight | DirectionalLight | Cloud(points: PointsObject)

  /** The lights added when the scene is set up. */
  const Lighting: seq<SceneNode> := [AmbientLight, DirectionalLight]

  /** `scene.remove(node)`: its first occurrence, if any, is taken out. */
  function Remove(children: seq<SceneNode>, node: SceneNode): seq<SceneNode> {
    if children == [] then []
    else if children[0] == node then children[1..]
    else [children[0]] + Remove(children[1..], node)
  }

  /** Removing a node that occurs only at the end leaves what is before it. */
  lemma {:induction false} RemoveLast(children: seq<SceneNode>, node: SceneNode)
    requires node !in children
    ensures Remove(children + [node], node) == children
  {
    if children != [] {
      assert (children + [node])[1..] == children[1..] + [node];
      RemoveLast(children[1..], node);
    }
  }

  /** The subscription guard: `Array.isArray(data) && data.length > 0`. */
  function Accepts(data: CppApi.CloudData): (accepted: bool)
    ensures data.PlyText? ==> !accepted
    ensures accepted ==> data.ParsedCloud? && data.json.PointArray? && |Positions(data.json.points)| >= 3
  {
    data.ParsedCloud? && data.json.PointArray? && |data.json.points| > 0
  }

  class PointcloudViewerComponent {
    /** The children of the scene, in insertion order. */
    var scene: seq<SceneNode>
    var latestPointCloud: Option<seq<Point>>
    var pointCloudObject: PointsObject?

    /** The scene holds the two lights and, when there is one, the current
        points object, and no other points object. */
    ghost predicate Valid()
      reads this
    {
      scene == Lighting + if pointCloudObject == null then [] else [Cloud(pointCloudObject)]
    }

    /** Construction and `initThree`. */
    constructor ()
      ensures Valid() && latestPointCloud == None && pointCloudObject == null
    {
      scene := Lighting;
      latestPointCloud := None;
      pointCloudObject := null;
    }

    /** The point-cloud subscription: empty or non-array data is rejected and
        changes nothing; accepted data becomes the latest cloud and is built. */
    method OnPointCloud(frame: CppApi.CloudFrame)
      requires Valid()
      modifies this`scene, this`latestPointCloud, this`pointCloudObject
      ensures Valid()
      ensures !Accepts(frame.data) ==> && scene == old(scene) && latestPointCloud == old(latestPointCloud)
                                       && pointCloudObject == old(pointCloudObject)
      ensures Accepts(frame.data) ==> && latestPointCloud == Some(frame.data.json.points)
                                      && pointCloudObject != null && fresh(pointCloudObject)
                                      && pointCloudObject.positions[..] == Positions(frame.data.json.points)
    {
      if !Accepts(frame.data) {
        return;
      }
      var cloudArray := frame.data.json.points;
      latestPointCloud := Some(cloudArray);
      BuildPointCloudObject(cloudArray);
    }

    /** `buildPointCloudObject`: the previous points object leaves the scene
        before the new one enters it, so there is always at most one. */
    method BuildPointCloudObject(data: seq<Point>)
      requires Valid()
      modifies this`scene, this`pointCloudObject
      ensures Valid()
      ensures pointCloudObject != null && fresh(pointCloudObject)
      ensures pointCloudObject.positions[..] == Positions(data)
      ensures scene == Lighting + [Cloud(pointCloudObject)]
    {
      if pointCloudObject != null {
        RemoveLast(Lighting, Cloud(pointCloudObject));
        scene := Remove(scene, Cloud(pointCloudObject));
        pointCloudObject := null;
      }
      var positions := FillPositions(data);
      var points := new PointsObject(positions);
      pointCloudObject := points;
      scene := scene + [Cloud(points)];
    }
  }
}
