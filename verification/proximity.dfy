/**
 * The proximity evaluator: an ordered list of points of interest, and per
 * fish position the "nearby" hint list, the closest project within reach
 * (auto-activated when very close), and the manual interaction.
 *
 * Every `distanceTo(...) < radius` test is made on squared distances:
 * for non-negative values `d < r` exactly when `d*d < r*r`
 * (`Geometry.SquareMonotone`), so no square root is needed.
 */
module Proximity {
  import opened Optional
  import opened Geometry
  import Store

  /** Squares of the three radii: interaction 5, hint 8, auto-trigger 3. */
  const InteractionDistanceSq: real := 25.0
  const HintDistanceSq: real := 64.0
  const AutoTriggerDistanceSq: real := 9.0

  /** The point types; only project points carry a project record. */
  datatype PoiKind = IntroPoi | ProjectPoi(project: Store.Project) | ExperiencePoi | ContactPoi

  datatype Poi = Poi(id: string, position: Vec3, kind: PoiKind)

  const IntroPosition: Vec3 := Vec3(10.0, 0.0, -5.0)
  const ExperiencePosition: Vec3 := Vec3(0.0, -20.0, -40.0)
  const ContactPosition: Vec3 := Vec3(0.0, -30.0, -60.0)

  /** Where the proximity list puts the project with index `i`. */
  function ProjectPoint(i: nat): Vec3 {
    Vec3(-15.0 + (i as real) * 8.0, -5.0, -10.0 - (i as real) * 5.0)
  }

  function ProjectEntry(projects: seq<Store.Project>, i: nat): Poi
    requires i < |projects|
  {
    Poi(projects[i].id, ProjectPoint(i), PoiKind.ProjectPoi(projects[i]))
  }

  /**
   * `sectionPositions`: intro first, then the projects in data order, then
   * experience, then contact.
   */
  function SectionPositions(projects: seq<Store.Project>): (r: seq<Poi>)
    ensures |r| == |projects| + 3
    ensures r[0] == Poi("intro", IntroPosition, IntroPoi)
    ensures forall i :: 0 <= i < |projects| ==> r[i + 1] == ProjectEntry(projects, i)
    ensures r[|projects| + 1] == Poi("experience", ExperiencePosition, ExperiencePoi)
    ensures r[|projects| + 2] == Poi("contact", ContactPosition, ContactPoi)
  {
    [Poi("intro", IntroPosition, IntroPoi)]
    + seq(|projects|, i requires 0 <= i < |projects| => ProjectEntry(projects, i))
    + [Poi("experience", ExperiencePosition, ExperiencePoi), Poi("contact", ContactPosition, ContactPoi)]
  }

  // ---------------------------------------------------------------- nearby

  predicate InHintRange(fish: Vec3, p: Poi) {
    DistSq(fish, p.position) < HintDistanceSq
  }

  /** The ids pushed onto `nearby` by the `forEach`, in list order. */
  function Nearby(fish: Vec3, pois: seq<Poi>): (r: seq<string>)
    ensures |r| <= |pois|
  {
    if |pois| == 0 then []
    else (if InHintRange(fish, pois[0]) then [pois[0].id] else []) + Nearby(fish, pois[1..])
  }

  /** An id is nearby exactly when some point with that id lies within the hint radius. */
  lemma {:induction false} NearbyMembership(fish: Vec3, pois: seq<Poi>, id: string)
    ensures id in Nearby(fish, pois)
      <==> exists i :: 0 <= i < |pois| && pois[i].id == id && InHintRange(fish, pois[i])
  {
    if |pois| > 0 {
      NearbyMembership(fish, pois[1..], id);
      if id in Nearby(fish, pois[1..]) {
        var i :| 0 <= i < |pois[1..]| && pois[1..][i].id == id && InHintRange(fish, pois[1..][i]);
        assert pois[i + 1] == pois[1..][i];
      }
      if exists i :: 0 <= i < |pois| && pois[i].id == id && InHintRange(fish, pois[i]) {
        var i :| 0 <= i < |pois| && pois[i].id == id && InHintRange(fish, pois[i]);
        if i > 0 {
          assert pois[1..][i - 1] == pois[i];
        }
      }
    }
  }

  /** The list keeps the points' order: the hints of a concatenation are the concatenated hints. */
  lemma {:induction false} NearbyAppend(fish: Vec3, a: seq<Poi>, b: seq<Poi>)
    ensures Nearby(fish, a + b) == Nearby(fish, a) + Nearby(fish, b)
  {
    if |a| > 0 {
      assert (a + b)[1..] == a[1..] + b;
      NearbyAppend(fish, a[1..], b);
    } else {
      assert a + b == b;
    }
  }

  // ------------------------------------------------------ closest project

  /** A point competes for the closest project when it is a project within the interaction radius. */
  predicate IsCandidate(fish: Vec3, p: Poi) {
    p.kind.ProjectPoi? && DistSq(fish, p.position) < InteractionDistanceSq
  }

  /** The pair (`closestProject`, `closestDistance`), with `index` recording where it was found. */
  datatype Best = Best(index: nat, project: Store.Project, distSq: real)

  /**
   * The `forEach` from position `i` on, with `best` the pair found so far
   * (`None` while `closestDistance` is still `Infinity`). A candidate
   * replaces the pair only when strictly closer.
   */
  function ClosestFrom(fish: Vec3, pois: seq<Poi>, i: nat, best: Option<Best>): (r: Option<Best>)
    requires i <= |pois|
    requires best.Some? ==> best.value.index < i
    ensures r.Some? ==> r.value.index < |pois|
    ensures best.Some? ==> r.Some? && r.value.distSq <= best.value.distSq
    decreases |pois| - i
  {
    if i == |pois| then best
    else
      var d := DistSq(fish, pois[i].position);
      var next :=
        if IsCandidate(fish, pois[i]) && (best.None? || d < best.value.distSq)
        then Some(Best(i, pois[i].kind.project, d))
        else best;
      ClosestFrom(fish, pois, i + 1, next)
  }

  /** The closest project for a fish position, `None` when no project is within reach. */
  function ClosestProject(fish: Vec3, pois: seq<Poi>): Option<Best> {
    ClosestFrom(fish, pois, 0, None)
  }

  /**
   * Point `k` is the one the evaluator must choose: a candidate no farther
   * than any other candidate, and strictly closer than every candidate
   * before it in list order (equally close ones resolve to the first).
   */
  predicate IsClosest(fish: Vec3, pois: seq<Poi>, k: int) {
    && 0 <= k < |pois|
    && IsCandidate(fish, pois[k])
    && (forall j :: 0 <= j < |pois| && IsCandidate(fish, pois[j]) ==>
          DistSq(fish, pois[k].position) <= DistSq(fish, pois[j].position))
    && (forall j :: 0 <= j < k && IsCandidate(fish, pois[j]) ==>
          DistSq(fish, pois[k].position) < DistSq(fish, pois[j].position))
  }

  predicate NoCandidate(fish: Vec3, pois: seq<Poi>) {
    forall j :: 0 <= j < |pois| ==> !IsCandidate(fish, pois[j])
  }

  /** What the loop state means after the first `i` points. */
  predicate BestSoFar(fish: Vec3, pois: seq<Poi>, i: nat, best: Option<Best>)
    requires i <= |pois|
  {
    match best
    case None => forall j :: 0 <= j < i ==> !IsCandidate(fish, pois[j])
    case Some(b) =>
      && b.index < i
      && IsCandidate(fish, pois[b.index])
      && b.project == pois[b.index].kind.project
      && b.distSq == DistSq(fish, pois[b.index].position)
      && (forall j :: 0 <= j < i && IsCandidate(fish, pois[j]) ==> b.distSq <= DistSq(fish, pois[j].position))
      && (forall j :: 0 <= j < b.index && IsCandidate(fish, pois[j]) ==> b.distSq < DistSq(fish, pois[j].position))
  }

  lemma {:induction false} ClosestFromCorrect(fish: Vec3, pois: seq<Poi>, i: nat, best: Option<Best>)
    requires i <= |pois|
    requires best.Some? ==> best.value.index < i
    requires BestSoFar(fish, pois, i, best)
    ensures BestSoFar(fish, pois, |pois|, ClosestFrom(fish, pois, i, best))
    decreases |pois| - i
  {
    if i < |pois| {
      var d := DistSq(fish, pois[i].position);
      var next :=
        if IsCandidate(fish, pois[i]) && (best.None? || d < best.value.distSq)
        then Some(Best(i, pois[i].kind.project, d))
        else best;
      assert BestSoFar(fish, pois, i + 1, next);
      ClosestFromCorrect(fish, pois, i + 1, next);
    }
  }

  /**
   * The closest project is found exactly when some project is within reach,
   * and then it is the point `IsClosest` describes, with its true distance.
   */
  lemma ClosestProjectCorrect(fish: Vec3, pois: seq<Poi>)
    ensures ClosestProject(fish, pois).None? <==> NoCandidate(fish, pois)
    ensures ClosestProject(fish, pois).Some? ==>
      var b := ClosestProject(fish, pois).value;
      && IsClosest(fish, pois, b.index)
      && b.project == pois[b.index].kind.project
      && b.distSq == DistSq(fish, pois[b.index].position)
  {
    ClosestFromCorrect(fish, pois, 0, None);
  }

  /** At most one point satisfies `IsClosest`: the choice is deterministic. */
  lemma ClosestUnique(fish: Vec3, pois: seq<Poi>, k1: int, k2: int)
    requires IsClosest(fish, pois, k1) && IsClosest(fish, pois, k2)
    ensures k1 == k2
  {
  }

  /**
   * Of two equally close projects that no other candidate beats, the later
   * one is never chosen: strict `<` keeps the first one found.
   */
  lemma EquidistantFirstWins(fish: Vec3, pois: seq<Poi>, i: nat, j: nat)
    requires i < j < |pois|
    requires IsCandidate(fish, pois[i]) && IsCandidate(fish, pois[j])
    requires DistSq(fish, pois[i].position) == DistSq(fish, pois[j].position)
    ensures ClosestProject(fish, pois).Some?
    ensures ClosestProject(fish, pois).value.index != j
  {
    ClosestProjectCorrect(fish, pois);
  }

  // ------------------------------------------------------- auto-trigger

  /** The hint list and the closest project, as one evaluation computes them. */
  datatype Evaluation = Evaluation(nearby: seq<string>, closest: Option<Best>)

  function Evaluate(fish: Vec3, pois: seq<Poi>): Evaluation {
    Evaluation(Nearby(fish, pois), ClosestProject(fish, pois))
  }

  /**
   * The store after one evaluation: the closest project is activated when
   * it lies within the auto-trigger radius; otherwise nothing changes.
   */
  function AutoTrigger(s: Store.State, fish: Vec3, pois: seq<Poi>): (r: Store.State)
    ensures NoCandidate(fish, pois) ==> r == s
    ensures forall k :: IsClosest(fish, pois, k) ==>
      r == (if DistSq(fish, pois[k].position) < AutoTriggerDistanceSq
            then Store.SetActiveProject(s, pois[k].kind.project) else s)
  {
    ClosestProjectCorrect(fish, pois);
    forall k | IsClosest(fish, pois, k)
      ensures ClosestProject(fish, pois).Some? && ClosestProject(fish, pois).value.index == k
    {
      ClosestUnique(fish, pois, k, ClosestProject(fish, pois).value.index);
    }
    match ClosestProject(fish, pois)
    case None => s
    case Some(b) => if b.distSq < AutoTriggerDistanceSq then Store.SetActiveProject(s, b.project) else s
  }

  /** A project activated automatically is always within the auto-trigger radius of the fish. */
  lemma AutoTriggerOnlyWhenClose(s: Store.State, fish: Vec3, pois: seq<Poi>)
    ensures AutoTrigger(s, fish, pois) != s ==> exists k :: (
      && IsClosest(fish, pois, k)
      && DistSq(fish, pois[k].position) < AutoTriggerDistanceSq
      && AutoTrigger(s, fish, pois).activeProject == Some(pois[k].kind.project))
  {
    ClosestProjectCorrect(fish, pois);
    if AutoTrigger(s, fish, pois) != s {
      var k := ClosestProject(fish, pois).value.index;
      assert IsClosest(fish, pois, k);
    }
  }

  // ---------------------------------------------------- manual interaction

  predicate InInteractionRange(fish: Vec3, p: Poi) {
    DistSq(fish, p.position) < InteractionDistanceSq
  }

  /** `sectionPositions.find(...)` from position `i` on: the first point of any type within reach. */
  function FindFrom(fish: Vec3, pois: seq<Poi>, i: nat): (r: Option<nat>)
    requires i <= |pois|
    ensures r.Some? ==> i <= r.value < |pois| && InInteractionRange(fish, pois[r.value])
    ensures r.Some? ==> forall j :: i <= j < r.value ==> !InInteractionRange(fish, pois[j])
    ensures r.None? ==> forall j :: i <= j < |pois| ==> !InInteractionRange(fish, pois[j])
    decreases |pois| - i
  {
    if i == |pois| then None
    else if InInteractionRange(fish, pois[i]) then Some(i)
    else FindFrom(fish, pois, i + 1)
  }

  predicate IsFirstInRange(fish: Vec3, pois: seq<Poi>, k: int) {
    && 0 <= k < |pois|
    && InInteractionRange(fish, pois[k])
    && forall j :: 0 <= j < k ==> !InInteractionRange(fish, pois[j])
  }

  /**
   * `handleInteraction`: the first point in list order within reach is
   * taken, whatever its type; only a project point changes the store.
   */
  function HandleInteraction(s: Store.State, fish: Vec3, pois: seq<Poi>): (r: Store.State)
    ensures (forall j :: 0 <= j < |pois| ==> !InInteractionRange(fish, pois[j])) ==> r == s
    ensures forall k :: IsFirstInRange(fish, pois, k) ==>
      r == (if pois[k].kind.ProjectPoi? then Store.SetActiveProject(s, pois[k].kind.project) else s)
  {
    var found := FindFrom(fish, pois, 0);
    assert forall k :: IsFirstInRange(fish, pois, k) ==> found == Some(k);
    match found
    case None => s
    case Some(k) =>
      match pois[k].kind
      case ProjectPoi(p) => Store.SetActiveProject(s, p)
      case _ => s
  }

  /** Interacting again without moving changes nothing more. */
  lemma HandleInteractionIdempotent(s: Store.State, fish: Vec3, pois: seq<Poi>)
    ensures HandleInteraction(HandleInteraction(s, fish, pois), fish, pois) == HandleInteraction(s, fish, pois)
  {
    var found := FindFrom(fish, pois, 0);
    if found.Some? && pois[found.value].kind.ProjectPoi? {
      Store.SetActiveProjectIdempotent(s, pois[found.value].kind.project);
    }
  }
}
