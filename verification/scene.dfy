/**
 * The scene layout: where the markers, project stations and skill crystals
 * are placed, the portfolio data that drives them, and how the layout
 * fits the proximity list used for interaction.
 */
module Scene {
  import opened Optional
  import opened Geometry
  import Store
  import Proximity
  import Camera
  import Joystick
  import FishMotion

  /** The three projects in data order. */
  const Projects: seq<Store.Project> := [
    Store.Project("total-job-tracker", "Total Job Tracker"),
    Store.Project("portfolio-site", "Portfolio Website"),
    Store.Project("distance-converter", "Distance Converter")
  ]

  /** The decorative surface marker; it has no entry in the proximity list. */
  const SurfacePosition: Vec3 := Vec3(0.0, 15.0, 0.0)

  /** The camera settings the scene passes to the camera hook. */
  function SceneCameraConfig(isMobile: bool): Camera.Config {
    Camera.Config(2.5, true, true, isMobile)
  }

  /** The kinds of marker the scene renders. */
  datatype Marker =
    | SurfaceMarker
    | IntroMarker
    | ProjectMarker(project: Store.Project)
    | ExperienceMarker
    | ContactMarker

  datatype Placed = Placed(marker: Marker, position: Vec3)

  /** The station of project `index`: 8 units right and 5 deeper per index. */
  function ProjectStation(index: nat): (r: Vec3)
    ensures r.y == -5.0
    ensures index > 0 ==> r.x > ProjectStation(index - 1).x && r.z < ProjectStation(index - 1).z
  {
    Vec3(-15.0 + (index as real) * 8.0, -5.0, -10.0 - (index as real) * 5.0)
  }

  /** The rendered markers in scene order. */
  function Markers(projects: seq<Store.Project>): (r: seq<Placed>)
    ensures |r| == |projects| + 4
    ensures r[0] == Placed(SurfaceMarker, SurfacePosition)
    ensures r[1] == Placed(IntroMarker, Proximity.IntroPosition)
    ensures forall i :: 0 <= i < |projects| ==> r[i + 2] == Placed(ProjectMarker(projects[i]), ProjectStation(i))
    ensures r[|projects| + 2] == Placed(ExperienceMarker, Proximity.ExperiencePosition)
    ensures r[|projects| + 3] == Placed(ContactMarker, Proximity.ContactPosition)
  {
    [Placed(SurfaceMarker, SurfacePosition), Placed(IntroMarker, Vec3(10.0, 0.0, -5.0))]
    + seq(|projects|, i requires 0 <= i < |projects| => Placed(ProjectMarker(projects[i]), ProjectStation(i)))
    + [Placed(ExperienceMarker, Vec3(0.0, -20.0, -40.0)), Placed(ContactMarker, Vec3(0.0, -30.0, -60.0))]
  }

  /**
   * Every interactive marker stands exactly where the proximity list looks
   * for it: the scene's project stations and the proximity list's project
   * points are the same for every index and every project list.
   */
  lemma MarkersMatchProximity(projects: seq<Store.Project>)
    ensures var m := Markers(projects);
      var pois := Proximity.SectionPositions(projects);
      && m[1].position == pois[0].position
      && (forall i :: 0 <= i < |projects| ==>
            m[i + 2].position == pois[i + 1].position && pois[i + 1].kind == Proximity.PoiKind.ProjectPoi(projects[i]))
      && m[|projects| + 2].position == pois[|projects| + 1].position
      && m[|projects| + 3].position == pois[|projects| + 2].position
  {
  }

  /** The surface marker is never interactive: no point of the proximity list is at its position. */
  lemma SurfaceNotInteractive(projects: seq<Store.Project>)
    ensures forall p :: p in Proximity.SectionPositions(projects) ==> p.position != SurfacePosition
  {
    var pois := Proximity.SectionPositions(projects);
    forall p | p in pois
      ensures p.position != SurfacePosition
    {
      var k :| 0 <= k < |pois| && pois[k] == p;
      if 1 <= k <= |projects| {
        assert p == Proximity.ProjectEntry(projects, k - 1);
      }
    }
  }

  /** The crystal of skill `index`: four to a row, rows 5 apart going deeper. */
  function SkillPosition(index: nat): (r: Vec3)
    ensures r.y == -15.0
    ensures r.x == -25.0 || r.x == -20.0 || r.x == -15.0 || r.x == -10.0
    ensures r.z <= -25.0
  {
    Vec3(-25.0 + ((index % 4) as real) * 5.0, -15.0, -25.0 - ((index / 4) as real) * 5.0)
  }

  /** No two skills share a crystal position. */
  lemma SkillPositionsDistinct(i: nat, j: nat)
    requires i != j
    ensures SkillPosition(i) != SkillPosition(j)
  {
    if i % 4 != j % 4 {
      assert SkillPosition(i).x != SkillPosition(j).x;
    } else {
      assert i / 4 != j / 4;
      assert SkillPosition(i).z != SkillPosition(j).z;
    }
  }

  /** The scene's camera settles without overshoot for every frame of at most 0.4 s. */
  lemma SceneCameraFrame(s: Camera.CameraState, delta: real, isMobile: bool)
    requires Camera.Valid(s) && 0.0 <= delta <= 0.4
    ensures Camera.Valid(Camera.Frame(s, SceneCameraConfig(isMobile).smoothing, delta))
  {
    Camera.FramePreservesValid(s, SceneCameraConfig(isMobile).smoothing, delta);
  }

  // ----------------------------------------------------- interaction in the scene

  /** Project stations are at least 8 apart along x, so no fish is within the auto-trigger radius 3 of two of them. */
  lemma StationsApart(i: nat, j: nat)
    requires i != j
    ensures DistSq(Proximity.ProjectPoint(i), Proximity.ProjectPoint(j)) >= 64.0
  {
    var a := Proximity.ProjectPoint(i);
    var b := Proximity.ProjectPoint(j);
    var dx := a.x - b.x;
    var dz := a.z - b.z;
    assert DistSq(a, b) == dx * dx + dz * dz;
    assert dx == (i as real - j as real) * 8.0;
    if i > j {
      AtLeastEightSquared(dx);
    } else {
      AtLeastEightSquared(-dx);
      NegatedSquare(dx);
    }
    SquareNonNegative(dz);
  }

  lemma SquareNonNegative(d: real)
    ensures d * d >= 0.0
  {
    if d < 0.0 {
      NonNegativeProduct(-d, -d);
      NegatedSquare(d);
    } else {
      NonNegativeProduct(d, d);
    }
  }

  lemma NegatedSquare(d: real)
    ensures (-d) * (-d) == d * d
  {
  }

  lemma AtLeastEightSquared(d: real)
    requires d >= 8.0
    ensures d * d >= 64.0
  {
    NonNegativeProduct(d - 8.0, d + 8.0);
    DifferenceOfSquares(8.0, d);
  }

  /**
   * A fish parked on the station of project `i` activates project `i`:
   * it is the only project within reach and well inside the auto-trigger radius.
   */
  lemma ParkingActivatesProject(s: Store.State, projects: seq<Store.Project>, i: nat)
    requires i < |projects|
    ensures Proximity.AutoTrigger(s, Proximity.ProjectPoint(i), Proximity.SectionPositions(projects))
            == Store.SetActiveProject(s, projects[i])
  {
    var fish := Proximity.ProjectPoint(i);
    var pois := Proximity.SectionPositions(projects);
    assert DistSq(fish, pois[i + 1].position) == 0.0;
    forall j | 0 <= j < |pois| && Proximity.IsCandidate(fish, pois[j])
      ensures j == i + 1
    {
      if j != i + 1 {
        assert 1 <= j <= |projects|;
        assert pois[j] == Proximity.ProjectEntry(projects, j - 1);
        StationsApart(i, j - 1);
      }
    }
    assert Proximity.IsClosest(fish, pois, i + 1);
  }

  /** The first project's station, reached by a fish parked there, activates "Total Job Tracker". */
  lemma ParkingAtFirstStation(s: Store.State)
    ensures Proximity.AutoTrigger(s, Proximity.ProjectPoint(0), Proximity.SectionPositions(Projects)).activeProject
            == Some(Store.Project("total-job-tracker", "Total Job Tracker"))
  {
    ParkingActivatesProject(s, Projects, 0);
  }

  /**
   * Manual interaction takes the first point in list order, not the nearest:
   * between the first two stations the fish opens project 0 although
   * project 1 is closer, and neither is close enough to trigger on its own.
   */
  lemma ManualPicksFirstNotNearest(s: Store.State)
    ensures var fish := Vec3(-10.8, -5.0, -12.6);
      var pois := Proximity.SectionPositions(Projects);
      && Proximity.HandleInteraction(s, fish, pois) == Store.SetActiveProject(s, Projects[0])
      && Proximity.IsClosest(fish, pois, 2)
      && Proximity.AutoTrigger(s, fish, pois) == s
  {
    var fish := Vec3(-10.8, -5.0, -12.6);
    var pois := Proximity.SectionPositions(Projects);
    assert pois[1].position == Vec3(-15.0, -5.0, -10.0);
    assert pois[2].position == Vec3(-7.0, -5.0, -15.0);
    assert pois[3].position == Vec3(1.0, -5.0, -20.0);
    assert DistSq(fish, pois[0].position) > 25.0;
    assert DistSq(fish, pois[1].position) == 24.4;
    assert DistSq(fish, pois[2].position) == 20.2;
    assert DistSq(fish, pois[3].position) > 25.0;
    assert DistSq(fish, pois[4].position) > 25.0;
    assert DistSq(fish, pois[5].position) > 25.0;
    assert Proximity.IsFirstInRange(fish, pois, 1);
    assert Proximity.IsClosest(fish, pois, 2);
  }

  // ------------------------------------------------------- joystick to fish

  /**
   * What one stick axis `v` contributes to the fish's move vector, read off
   * the two paths the stick takes: the direction flag it sets past ±0.3
   * gives a whole unit, and the analog value past ±0.1 is added on top.
   */
  function StickAxis(v: real): real {
    (if v > Joystick.FlagThreshold then 1.0 else if v < -Joystick.FlagThreshold then -1.0 else 0.0)
    + (if v > FishMotion.AnalogDeadzone || v < -FishMotion.AnalogDeadzone then v else 0.0)
  }

  /**
   * A joystick offset `n` alone (no key held, no boost) drives the fish's
   * raw move vector through both paths: x is `StickAxis(n.x)`, z is
   * `-StickAxis(n.y)` and there is no vertical motion. The direction on each
   * axis follows the stick's sign past the dead zone, but past ±0.3 the
   * stick counts twice, once as a flag and once as its analog value.
   */
  lemma StickDrivesFish(n: Point2)
    ensures var m := Joystick.InputFor(n);
      var r := FishMotion.RawMove(FishMotion.MergeInput(FishMotion.NoKeys, m, false), m);
      && r.x == StickAxis(n.x)
      && r.y == 0.0
      && r.z == -StickAxis(n.y)
      && (r.x > 0.0 <==> n.x > FishMotion.AnalogDeadzone)
      && (r.x < 0.0 <==> n.x < -FishMotion.AnalogDeadzone)
      && (r.z < 0.0 <==> n.y > FishMotion.AnalogDeadzone)
      && (r.z > 0.0 <==> n.y < -FishMotion.AnalogDeadzone)
      && (n.x > Joystick.FlagThreshold ==> r.x == 1.0 + n.x)
      && (n.y > Joystick.FlagThreshold ==> r.z == -1.0 - n.y)
  {
  }

  /**
   * Because of the double count, the move direction is not the stick's
   * direction: the offset (0.5, 0.2) gives the raw vector (1.5, 0, -0.2),
   * whose x:z ratio is 7.5 where the stick's is 2.5.
   */
  lemma StickSkewsDirection()
    ensures var n := Point2(0.5, 0.2);
      var m := Joystick.InputFor(n);
      var r := FishMotion.RawMove(FishMotion.MergeInput(FishMotion.NoKeys, m, false), m);
      && r == Vec3(1.5, 0.0, -0.2)
      && r.x * n.y != -r.z * n.x
  {
    StickDrivesFish(Point2(0.5, 0.2));
  }
}
