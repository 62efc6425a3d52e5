/**
 * The shared session store (a zustand store in the application): UI flags,
 * the active project, the depth-derived section, and the fish state that the
 * motion step writes and the camera and proximity evaluator read.
 */
module Store {
  import opened Optional
  import opened Geometry

  /** The part of a project record the core uses; the rest is static display data. */
  datatype Project = Project(id: string, title: string)

  /**
   * The touch controls' input record. Every field is optional: a joystick
   * emission fills the four direction flags and `x`/`y`, the depth buttons
   * fill only `up` or `down`, and a release fills only `x`/`y`.
   */
  datatype MobileInput = MobileInput(
    forward: Option<bool>, backward: Option<bool>, left: Option<bool>, right: Option<bool>,
    up: Option<bool>, down: Option<bool>,
    x: Option<real>, y: Option<real>)

  /** The empty record `{}`. */
  const NoMobileInput: MobileInput := MobileInput(None, None, None, None, None, None, None, None)

  datatype State = State(
    showInstructions: bool,
    activeProject: Option<Project>,
    currentSection: string,
    isUnderwater: bool,
    fishDepth: real,
    interactionMode: bool,
    audioInitialized: bool,
    fishPosition: Vec3,
    fishRotation: Vec3,
    isMoving: bool,
    isBoosting: bool,
    mobileInput: MobileInput)

  /** The store's initial state. */
  function Initial(): (s: State)
    ensures s.showInstructions && !s.isUnderwater
    ensures s.activeProject == None && !s.interactionMode
    ensures s.currentSection == "surface" && s.fishDepth == 0.0
    ensures !s.isMoving && !s.isBoosting && !s.audioInitialized
    ensures s.fishPosition == Zero && s.fishRotation == Zero
    ensures s.mobileInput == NoMobileInput
    ensures InteractionConsistent(s)
  {
    State(true, None, "surface", false, 0.0, false, false, Zero, Zero, false, false, NoMobileInput)
  }

  /** Interaction mode is on exactly while a project is active. */
  predicate InteractionConsistent(s: State) {
    s.interactionMode <==> s.activeProject.Some?
  }

  /**
   * `hideInstructions`: closes the instructions and dives. The second result
   * says whether the action goes on to start the audio system, which it does
   * only while audio is not yet initialised.
   */
  function HideInstructions(s: State): (r: (State, bool))
    ensures !r.0.showInstructions && r.0.isUnderwater
    ensures r.0.(showInstructions := s.showInstructions, isUnderwater := s.isUnderwater) == s
    ensures r.1 <==> !s.audioInitialized
  {
    (s.(showInstructions := false, isUnderwater := true), !s.audioInitialized)
  }

  /** `showInstructionsDialog`: only reopens the instructions; the fish stays underwater. */
  function ShowInstructionsDialog(s: State): (r: State)
    ensures r.showInstructions
    ensures r.isUnderwater == s.isUnderwater
    ensures r.(showInstructions := s.showInstructions) == s
  {
    s.(showInstructions := true)
  }

  /** `setActiveProject`: opens a project and enters interaction mode. */
  function SetActiveProject(s: State, p: Project): (r: State)
    ensures r.activeProject == Some(p) && r.interactionMode
    ensures InteractionConsistent(r)
    ensures r.(activeProject := s.activeProject, interactionMode := s.interactionMode) == s
  {
    s.(activeProject := Some(p), interactionMode := true)
  }

  /** `clearActiveProject`: closes the project and leaves interaction mode. */
  function ClearActiveProject(s: State): (r: State)
    ensures r.activeProject == None && !r.interactionMode
    ensures InteractionConsistent(r)
    ensures r.(activeProject := s.activeProject, interactionMode := s.interactionMode) == s
  {
    s.(activeProject := None, interactionMode := false)
  }

  /** Activating the same project again changes nothing. */
  lemma SetActiveProjectIdempotent(s: State, p: Project)
    ensures SetActiveProject(SetActiveProject(s, p), p) == SetActiveProject(s, p)
  {
  }

  /** Clearing undoes activation on the two fields it touches. */
  lemma ClearAfterSetActive(s: State, p: Project)
    requires s.activeProject == None && !s.interactionMode
    ensures ClearActiveProject(SetActiveProject(s, p)) == s
  {
  }

  /** `setCurrentSection`: any section name is accepted as given. */
  function SetCurrentSection(s: State, section: string): (r: State)
    ensures r.currentSection == section
    ensures r.(currentSection := s.currentSection) == s
  {
    s.(currentSection := section)
  }

  /** `triggerInteraction`: only logs; the state is never modified. */
  function TriggerInteraction(s: State): (r: State)
    ensures r == s
  {
    s
  }

  /**
   * The section for a depth, as the sequence of independent `if`s computes
   * it: each threshold that holds overrides the earlier ones.
   */
  function SectionForDepth(depth: real): string {
    var s0 := "surface";
    var s1 := if depth < -5.0 then "intro" else s0;
    var s2 := if depth < -15.0 then "projects" else s1;
    var s3 := if depth < -25.0 then "skills" else s2;
    var s4 := if depth < -35.0 then "experience" else s3;
    if depth < -45.0 then "contact" else s4
  }

  /** The sections from the surface down, in the order the depth ladder visits them. */
  const SectionLadder: seq<string> := ["surface", "intro", "projects", "skills", "experience", "contact"]

  /** Position of a ladder section from the surface (0) down to contact (5). */
  function Rank(section: string): nat {
    if section == "surface" then 0
    else if section == "intro" then 1
    else if section == "projects" then 2
    else if section == "skills" then 3
    else if section == "experience" then 4
    else 5
  }

  /**
   * The ladder as bands: surface above -5 inclusive, then one band per 10
   * units of depth, and contact below -45.
   */
  lemma SectionBands(depth: real)
    ensures depth >= -5.0 ==> SectionForDepth(depth) == "surface"
    ensures -15.0 <= depth < -5.0 ==> SectionForDepth(depth) == "intro"
    ensures -25.0 <= depth < -15.0 ==> SectionForDepth(depth) == "projects"
    ensures -35.0 <= depth < -25.0 ==> SectionForDepth(depth) == "skills"
    ensures -45.0 <= depth < -35.0 ==> SectionForDepth(depth) == "experience"
    ensures depth < -45.0 ==> SectionForDepth(depth) == "contact"
    ensures SectionForDepth(depth) in SectionLadder
  {
  }

  /** Going deeper never yields a shallower section. */
  lemma SectionMonotone(d1: real, d2: real)
    requires d2 <= d1
    ensures Rank(SectionForDepth(d1)) <= Rank(SectionForDepth(d2))
  {
    SectionBands(d1);
    SectionBands(d2);
  }

  /**
   * `setFishDepth`: stores the depth and rewrites `currentSection` only when
   * the depth's section differs from the stored one.
   */
  function SetFishDepth(s: State, depth: real): (r: State)
    ensures r.fishDepth == depth
    ensures r.currentSection == SectionForDepth(depth)
    ensures r.(fishDepth := s.fishDepth, currentSection := s.currentSection) == s
  {
    var section := SectionForDepth(depth);
    var s1 := s.(fishDepth := depth);
    if section != s1.currentSection then s1.(currentSection := section) else s1
  }

  /** The section changes (and its subscribers fire) exactly when the depth's section differs. */
  lemma SetFishDepthChangesSection(s: State, depth: real)
    ensures SetFishDepth(s, depth).currentSection != s.currentSection
      <==> SectionForDepth(depth) != s.currentSection
  {
  }

  /** Reporting the same depth twice is the same as reporting it once. */
  lemma SetFishDepthIdempotent(s: State, depth: real)
    ensures SetFishDepth(SetFishDepth(s, depth), depth) == SetFishDepth(s, depth)
  {
  }

  /**
   * The end of `initializeAudio`: the flag is set once the audio manager's
   * `initialize` and `resume` have returned without throwing.
   */
  function AudioInitFinished(s: State, resumed: bool): (r: State)
    ensures r.audioInitialized <==> (resumed || s.audioInitialized)
    ensures r.(audioInitialized := s.audioInitialized) == s
  {
    if resumed then s.(audioInitialized := true) else s
  }

  function SetFishPosition(s: State, position: Vec3): (r: State)
    ensures r.fishPosition == position
    ensures r.(fishPosition := s.fishPosition) == s
  {
    s.(fishPosition := position)
  }

  function SetFishRotation(s: State, rotation: Vec3): (r: State)
    ensures r.fishRotation == rotation
    ensures r.(fishRotation := s.fishRotation) == s
  {
    s.(fishRotation := rotation)
  }

  function SetIsMoving(s: State, moving: bool): (r: State)
    ensures r.isMoving == moving
    ensures r.(isMoving := s.isMoving) == s
  {
    s.(isMoving := moving)
  }

  function SetIsBoosting(s: State, boosting: bool): (r: State)
    ensures r.isBoosting == boosting
    ensures r.(isBoosting := s.isBoosting) == s
  {
    s.(isBoosting := boosting)
  }

  /** `setMobileInput` replaces the whole record: fields absent from `input` are dropped, not kept. */
  function SetMobileInput(s: State, input: MobileInput): (r: State)
    ensures r.mobileInput == input
    ensures r.(mobileInput := s.mobileInput) == s
  {
    s.(mobileInput := input)
  }

  /**
   * Replacement, not merge: after a joystick emission, pressing "up" leaves
   * only `up` set, so the joystick's analog axes are gone.
   */
  lemma MobileInputReplaced(s: State, up: MobileInput)
    requires up == NoMobileInput.(up := Some(true))
    ensures SetMobileInput(s, up).mobileInput.x == None
    ensures SetMobileInput(s, up).mobileInput.forward == None
  {
  }

  /** Every action except activation and clearing leaves interaction consistency as it was. */
  lemma ActionsKeepInteractionConsistent(s: State, p: Project, d: real, v: Vec3, b: bool, m: MobileInput, name: string)
    requires InteractionConsistent(s)
    ensures InteractionConsistent(HideInstructions(s).0)
    ensures InteractionConsistent(ShowInstructionsDialog(s))
    ensures InteractionConsistent(SetActiveProject(s, p))
    ensures InteractionConsistent(ClearActiveProject(s))
    ensures InteractionConsistent(SetCurrentSection(s, name))
    ensures InteractionConsistent(SetFishDepth(s, d))
    ensures InteractionConsistent(SetFishPosition(s, v))
    ensures InteractionConsistent(SetFishRotation(s, v))
    ensures InteractionConsistent(SetIsMoving(s, b))
    ensures InteractionConsistent(SetIsBoosting(s, b))
    ensures InteractionConsistent(SetMobileInput(s, m))
    ensures InteractionConsistent(AudioInitFinished(s, b))
  {
  }
}
