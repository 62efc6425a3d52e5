# Gamefolio core in Dafny

This project models the decision logic of an underwater portfolio game. A
fish swims through a 3D scene. Coming close to a project station opens that
project. A camera orbits the fish. On touch devices an on-screen joystick
drives the fish.

Rendering sits on top of a small core, and that core is modelled here as
pure functions over `real`:

- the session store: UI flags, the active project, the depth-to-section
  ladder, and the fish state;
- the proximity evaluator: hint list, closest project, auto-trigger, and
  manual interaction;
- the camera gesture state machine with its per-frame smoothing;
- the fish's per-frame motion step;
- the virtual joystick's knob constraint and input mapping;
- the audio manager's control state;
- the scene's placement formulas and the skill crystals' level-derived
  sizes.

Some conventions hold across all modules:

- Distances are compared squared. For non-negative `d` and `r`, `d < r`
  holds exactly when `d*d < r*r` (`Geometry.SquareMonotone`). So the radii
  3, 5 and 8 become 9, 25 and 64.
- Transcendental functions are left abstract:
  - `sqrt`, `normalize`, `atan2` and `asin` are function parameters, and
    nothing is assumed about their values;
  - the joystick receives the measured distance together with the single
    fact that it squares to the squared offset;
  - `Math.sin` values are parameters in `[-1, 1]`;
  - `Math.random()` draws are parameters in `[0, 1)`.
- Optional JavaScript fields are `Option`. Truthiness of an optional flag
  is `Truthy`.
- Every component is a module in its own file:
  - `optional.dfy`, `numeric.dfy` and `geometry.dfy` hold the shared
    basics;
  - `store.dfy`, `proximity.dfy`, `camera.dfy`, `fish.dfy`,
    `joystick.dfy`, `audio.dfy`, `scene.dfy` and `crystal.dfy` hold one
    component each.
  - `scene.dfy` also composes the components the scene wires together:
    the stations with the proximity list, and the joystick with the fish's
    input merge.

## Model

| member | source | states |
|---|---|---|
| Numeric.Clamp | client/src/hooks/useCameraControls.tsx:90-93 | `Math.max(lo, Math.min(hi, v))` lies in `[lo, hi]`. It is the identity inside the interval and the nearer bound outside it. |
| Numeric.ClampIdempotent | client/src/hooks/useFishMovementLogic.tsx:86-88 | Clamping an already clamped value changes nothing. |
| Numeric.ClampMonotone | client/src/hooks/useCameraControls.tsx:101-104 | Clamping never reverses the order of two values. |
| Numeric.ApproachBetween | client/src/hooks/useCameraControls.tsx:213-215 | A smoothing step with rate in `[0, 1]` lands between the old value and the target. Rate 1 reaches the target and rate 0 stays put. |
| Numeric.ApproachStaysIn | client/src/hooks/useCameraControls.tsx:213-215 | A smoothing step from inside an interval towards a target inside it stays inside. |
| Numeric.ApproachGap | client/src/hooks/useCameraControls.tsx:213-215 | After a step, the remaining gap to the target is the old gap times `1 - rate`. |
| Geometry.SquareMonotone | client/src/hooks/useProximityDetection.tsx:33-41 | For non-negative values, `d < r` exactly when `d*d < r*r`, so each radius test can use squared distances. |
| Store.Initial | client/src/lib/stores/useGamefolio.tsx:58-71 | Initial state: instructions shown, on the surface at depth 0, no project, interaction mode off, empty touch input, and interaction consistency holds. |
| Store.HideInstructions | client/src/lib/stores/useGamefolio.tsx:74-83 | Hides the instructions and dives, touching nothing else. It requests audio start-up exactly when audio is not yet initialised. |
| Store.ShowInstructionsDialog | client/src/lib/stores/useGamefolio.tsx:85-88 | Shows the instructions and changes nothing else; in particular the fish stays underwater. |
| Store.SetActiveProject | client/src/lib/stores/useGamefolio.tsx:90-96 | Opens the project and enters interaction mode. Only those two fields change, and consistency holds afterwards. |
| Store.ClearActiveProject | client/src/lib/stores/useGamefolio.tsx:98-101 | Clears the project and leaves interaction mode. Only those two fields change, and consistency holds afterwards. |
| Store.SetActiveProjectIdempotent | client/src/lib/stores/useGamefolio.tsx:90-92 | Activating the same project twice is the same as activating it once. |
| Store.ClearAfterSetActive | client/src/lib/stores/useGamefolio.tsx:90-101 | From a state with no project, clearing after activating restores that state. |
| Store.SetCurrentSection | client/src/lib/stores/useGamefolio.tsx:103-106 | Stores any section name as given and changes nothing else. |
| Store.TriggerInteraction | client/src/lib/stores/useGamefolio.tsx:109-117 | Never modifies the state. |
| Store.SectionBands | client/src/lib/stores/useGamefolio.tsx:123-128 | The later ifs override the earlier ones, which gives bands: surface at depth -5 and above, then intro, projects, skills and experience in 10-unit bands, and contact below -45. The section is always one of the six. |
| Store.SectionMonotone | client/src/lib/stores/useGamefolio.tsx:123-128 | A deeper depth never gives a shallower section. |
| Store.SetFishDepth | client/src/lib/stores/useGamefolio.tsx:119-135 | Stores the depth, and the section becomes the depth's section. Nothing else changes. |
| Store.SetFishDepthChangesSection | client/src/lib/stores/useGamefolio.tsx:130-134 | The section changes exactly when the depth's section differs from the stored one. |
| Store.SetFishDepthIdempotent | client/src/lib/stores/useGamefolio.tsx:119-135 | Reporting the same depth twice is the same as reporting it once. |
| Store.AudioInitFinished | client/src/lib/stores/useGamefolio.tsx:138-148 | The audio flag becomes true only when start-up completes, and no other field changes. |
| Store.SetFishPosition | client/src/lib/stores/useGamefolio.tsx:151-153 | Writes the position and no other field. |
| Store.SetFishRotation | client/src/lib/stores/useGamefolio.tsx:155-157 | Writes the rotation and no other field. |
| Store.SetIsMoving | client/src/lib/stores/useGamefolio.tsx:159-161 | Writes the moving flag and no other field. |
| Store.SetIsBoosting | client/src/lib/stores/useGamefolio.tsx:163-166 | Writes the boost flag and no other field. |
| Store.SetMobileInput | client/src/lib/stores/useGamefolio.tsx:168-171 | Replaces the whole touch-input record and changes no other field. |
| Store.MobileInputReplaced | client/src/lib/stores/useGamefolio.tsx:168-171 | After a depth button's `{up: true}`, the joystick's axes and flags are gone: the record is replaced, not merged. |
| Store.ActionsKeepInteractionConsistent | client/src/lib/stores/useGamefolio.tsx:73-171 | Every action keeps "interaction mode exactly while a project is active". |
| Proximity.SectionPositions | client/src/hooks/useProximityDetection.tsx:14-24 | The point list is intro, then the projects in data order at `(-15+8i, -5, -10-5i)`, then experience, then contact. |
| Proximity.Nearby | client/src/hooks/useProximityDetection.tsx:32-38 | The hint list is never longer than the point list. |
| Proximity.NearbyMembership | client/src/hooks/useProximityDetection.tsx:32-38 | An id is in the hint list exactly when a point with that id lies strictly within 8 of the fish. |
| Proximity.NearbyAppend | client/src/hooks/useProximityDetection.tsx:32-38 | The hint list keeps list order: the hints of a concatenation are the concatenated hints. |
| Proximity.ClosestFrom | client/src/hooks/useProximityDetection.tsx:40-46 | The loop only improves the best pair found so far, and its index stays within the list. |
| Proximity.ClosestFromCorrect | client/src/hooks/useProximityDetection.tsx:32-47 | The loop keeps its invariant: the best pair is the first project candidate at minimal distance among the points seen, or none when there is no candidate. |
| Proximity.ClosestProjectCorrect | client/src/hooks/useProximityDetection.tsx:28-47 | No project is found exactly when no project lies within 5. Otherwise the chosen one is no farther than any candidate and strictly closer than every earlier candidate, and it carries its true distance. |
| Proximity.ClosestUnique | client/src/hooks/useProximityDetection.tsx:40-46 | At most one point meets the closest-project description. |
| Proximity.EquidistantFirstWins | client/src/hooks/useProximityDetection.tsx:42-45 | Of two equally close candidates, the later one is never chosen, because the update uses strict `<`. |
| Proximity.AutoTrigger | client/src/hooks/useProximityDetection.tsx:51-55 | With no candidate the store is unchanged. Otherwise the closest project is activated when it lies strictly within 3, and the store is unchanged when it does not. |
| Proximity.AutoTriggerOnlyWhenClose | client/src/hooks/useProximityDetection.tsx:52-53 | Any change made by the evaluation is the activation of the closest project, and that project lies within 3. |
| Proximity.FindFrom | client/src/hooks/useProximityDetection.tsx:65-67 | `find` returns the first point within 5 in list order, or nothing when no point is within 5. |
| Proximity.HandleInteraction | client/src/hooks/useProximityDetection.tsx:64-78 | Takes the first point within 5 of any type and activates it only if it is a project. A non-project hit or no hit leaves the store unchanged. |
| Proximity.HandleInteractionIdempotent | client/src/hooks/useProximityDetection.tsx:64-78 | Interacting twice without moving is the same as interacting once. |
| Camera.Initial | client/src/hooks/useCameraControls.tsx:25-34 | The camera starts at target angles 0 and distance 8, with no gesture under way, and is valid. |
| Camera.PointerPosition | client/src/hooks/useCameraControls.tsx:37-50 | Returns the first touch, the mouse position, or `(0, 0)` for an empty touch list. |
| Camera.TouchDistance | client/src/hooks/useCameraControls.tsx:53-58 | Fewer than two touches give distance 0. |
| Camera.DragPhi | client/src/hooks/useCameraControls.tsx:90-93 | The dragged elevation lies within ±π/3 and equals `phi - Δy·0.005` whenever that is in range. |
| Camera.Zoom | client/src/hooks/useCameraControls.tsx:101-104 | The zoomed distance lies within `[3, 20]` and equals the unclamped value whenever that is in range. |
| Camera.Rotate | client/src/hooks/useCameraControls.tsx:84-95 | Theta decreases by `Δx·0.005`. Phi becomes the dragged elevation `DragPhi(phi, Δy)`, so it stays within ±π/3 and is exact when in range. The pointer becomes the new reference. No other field changes. |
| Camera.TouchStart | client/src/hooks/useCameraControls.tsx:61-76 | Does nothing when touch is disabled. One finger starts a rotation at that finger, two fingers start a pinch at their distance, and any other count changes nothing. |
| Camera.TouchMove | client/src/hooks/useCameraControls.tsx:79-110 | Does nothing when touch is disabled. One finger rotates, but only while interacting and not pinching. Two fingers zoom by `-Δpinch·0.02` and record the new distance, but only while pinching. Otherwise nothing changes. |
| Camera.TouchEnd | client/src/hooks/useCameraControls.tsx:113-124 | No fingers left clears both gestures. One finger left ends the pinch and makes that finger the reference. More fingers change nothing. |
| Camera.MouseDown | client/src/hooks/useCameraControls.tsx:127-134 | Does nothing on mobile or when touch is disabled. Otherwise it starts a rotation at the pointer. |
| Camera.MouseMove | client/src/hooks/useCameraControls.tsx:136-151 | Rotates only when the mouse is enabled and a rotation is under way. Otherwise nothing changes. |
| Camera.MouseUp | client/src/hooks/useCameraControls.tsx:153-155 | Ends the rotation and changes nothing else. |
| Camera.Wheel | client/src/hooks/useCameraControls.tsx:158-167 | Does nothing when zoom is disabled. Otherwise it moves the distance by `Δy·0.01` within `[3, 20]`. |
| Camera.HandleKeepsCurrent | client/src/hooks/useCameraControls.tsx:61-167 | No event touches the current orbit. Only the frame step moves it. |
| Camera.HandlePreservesValid | client/src/hooks/useCameraControls.tsx:61-167 | No event can take the target elevation or distance out of range. |
| Camera.Frame | client/src/hooks/useCameraControls.tsx:211-215 | With `0 ≤ smoothing·delta ≤ 1`, theta, phi and distance each end between the old value and the target. Targets and gestures are untouched. |
| Camera.FramePreservesValid | client/src/hooks/useCameraControls.tsx:211-215 | A frame with rate in `[0, 1]` keeps the current elevation and distance in range. |
| Camera.Reset | client/src/hooks/useCameraControls.tsx:257-260 | Resets the targets to angles 0 and distance 8 and leaves the current orbit alone. Validity is kept. |
| Camera.RunPreservesValid | client/src/hooks/useCameraControls.tsx:61-215 | Any sequence of gestures, resets and frames with rates in `[0, 1]`, starting from a valid camera, keeps target and current elevation within ±π/3 and target and current distance within `[3, 20]`. |
| Camera.LongFrameOvershoots | client/src/hooks/useCameraControls.tsx:211-215 | When `smoothing·delta > 1`, the current elevation and distance end on the far side of their targets instead of approaching them. |
| Camera.PastTarget | client/src/hooks/useCameraControls.tsx:213-215 | One interpolation step with rate above 1 overshoots the target by `(target − current)·(rate − 1)`. |
| Camera.LongFrameLeavesRange | client/src/hooks/useCameraControls.tsx:211-215 | From the initial camera with the elevation target at π/3, one 0.8 s frame at smoothing 2.5 puts the current elevation at 2π/3, which is not valid. |
| Camera.NoResidualDragAfterPinch | client/src/hooks/useCameraControls.tsx:117-121 | After a pinch ends with one finger left, a move to the same point changes no target. |
| FishMotion.MergeInput | client/src/hooks/useFishMovementLogic.tsx:38-46 | Each planar flag is key OR touch flag OR analog axis past ±0.3. Up and down have no analog path. Boost is the key or the store's boost. |
| FishMotion.AnalogNeverVertical | client/src/hooks/useFishMovementLogic.tsx:43-44 | Analog input alone never sets up or down. |
| FishMotion.AnalogPart | client/src/hooks/useFishMovementLogic.tsx:59-64 | An analog axis counts only when present and beyond ±0.1. |
| FishMotion.RawMove | client/src/hooks/useFishMovementLogic.tsx:49-64 | Each active flag adds ±1 on its axis (forward is -z). Analog x is added to x, and analog y is subtracted from z. |
| FishMotion.OppositeFlagsCancel | client/src/hooks/useFishMovementLogic.tsx:51-52 | Forward and backward together, with no analog y, give no z motion. |
| FishMotion.Speed | client/src/hooks/useFishMovementLogic.tsx:28-29 | The speed is 8, or 16 while boosting. |
| FishMotion.ClampToBounds | client/src/hooks/useFishMovementLogic.tsx:86-88 | The clamped position lies in the world box, and a position already inside is unchanged. |
| FishMotion.ClampToBoundsIdempotent | client/src/hooks/useFishMovementLogic.tsx:86-88 | Clamping a clamped position changes nothing. |
| FishMotion.Blend | client/src/hooks/useFishMovementLogic.tsx:101-103 | Only x and y are blended. With rate in `[0, 1]` each ends between its old value and its target. |
| FishMotion.Move | client/src/hooks/useFishMovementLogic.tsx:66-90 | A zero raw vector gives zero impulse and velocity `0.85·v`. Otherwise the impulse is `normalize(raw)·speed·delta`. Delta 0 gives no impulse. The velocity is the damped velocity plus the impulse. The position is clamped, and unchanged by the clamp when in bounds. |
| FishMotion.Step | client/src/hooks/useFishMovementLogic.tsx:34-106 | `isMoving` holds exactly when the raw vector is non-zero. The rotation is written only for a non-zero impulse, and its z never changes. The position always lies in bounds. No other store field changes. |
| FishMotion.IdleGlides | client/src/hooks/useFishMovementLogic.tsx:79-80 | With no input the velocity becomes `0.85·v`, the fish is not moving, and the rotation stays. |
| FishMotion.ZeroDeltaKeepsRotation | client/src/hooks/useFishMovementLogic.tsx:93-106 | A frame with `delta = 0` leaves the rotation unchanged. |
| FishMotion.RotationBetween | client/src/hooks/useFishMovementLogic.tsx:102-103 | With `0 ≤ 3·delta ≤ 1`, each turned component ends between its old value and its target. |
| FishMotion.StepsStayInBounds | client/src/hooks/useFishMovementLogic.tsx:83-90 | After any non-empty run of frames the fish is in the world box. |
| FishMotion.ForwardFromRest | client/src/hooks/useFishMovementLogic.tsx:51-80 | Holding forward for a 0.1 s frame from rest gives raw vector `(0, 0, -1)` and velocity `(0, 0, -0.8)`. |
| Joystick.Initial | client/src/components/ui/VirtualJoystick.tsx:19-21 | The joystick starts idle with the knob centred. |
| Joystick.Constrain | client/src/components/ui/VirtualJoystick.tsx:44-56 | An offset inside radius 40 is kept. A longer one is scaled onto the circle. The knob never leaves the circle. |
| Joystick.Normalise | client/src/components/ui/VirtualJoystick.tsx:63-65 | The input axes are the knob offset over 40, with screen y inverted. |
| Joystick.InputFor | client/src/components/ui/VirtualJoystick.tsx:68-75 | Emits both axes and the flags forward ⇔ y>0.3, backward ⇔ y<-0.3, left ⇔ x<-0.3 and right ⇔ x>0.3, with no vertical flags. |
| Joystick.HandleMove | client/src/components/ui/VirtualJoystick.tsx:41-78 | Does nothing unless dragging. While dragging, the knob set is the constrained offset, it stays within radius 40, it follows the pointer inside the circle, and the emitted input is computed from that same knob. |
| Joystick.EmittedInUnitDisc | client/src/components/ui/VirtualJoystick.tsx:44-65 | Every emitted `(x, y)` satisfies `x² + y² ≤ 1`. |
| Joystick.ScreenYInverted | client/src/components/ui/VirtualJoystick.tsx:65 | A pointer above the centre gives a positive y and one below gives a negative y. |
| Joystick.FlagsAgreeWithAxes | client/src/components/ui/VirtualJoystick.tsx:71-74 | Each emitted flag is set exactly when its axis passes the same ±0.3 threshold that the fish applies. |
| Joystick.OppositeFlagsExclusive | client/src/components/ui/VirtualJoystick.tsx:71-74 | Opposite flags are never set together. |
| Joystick.Release | client/src/components/ui/VirtualJoystick.tsx:97-103 | Stops dragging, recentres the knob, and emits `{x: 0, y: 0}` with no flags. |
| Joystick.ReleaseStops | client/src/components/ui/VirtualJoystick.tsx:118-122 | After a release, the stored input has no flag and zero axes, and later moves are ignored. |
| Joystick.PressAsWritten | client/src/components/ui/VirtualJoystick.tsx:81-87 | The press handlers as written: the flag and centre update are scheduled, but the emission comes from a move handled with the old state. |
| Joystick.PressAsWrittenEmitsNothing | client/src/components/ui/VirtualJoystick.tsx:106-110 | As written, pressing an idle joystick emits nothing and leaves the knob where it was. |
| Joystick.Press | client/src/components/ui/VirtualJoystick.tsx:81-87 | Starts dragging at the new centre and always emits the input for the pressed point. |
| Joystick.PressRightOfCentre | client/src/components/ui/VirtualJoystick.tsx:81-87 | Pressing 40 px right of the centre: as written nothing is emitted, while the corrected press emits `right`. |
| Joystick.Move | client/src/components/ui/VirtualJoystick.tsx:89-95 | A touch move or mouse move is handled only while dragging. |
| Audio.Initial | client/src/lib/audioManager.ts:3-16 | The manager starts uninitialised and unmuted, with the default volumes, no gain and no sources. |
| Audio.InitialValid | client/src/lib/audioManager.ts:3-16 | The initial manager satisfies the invariant. |
| Audio.Initialize | client/src/lib/audioManager.ts:18-38 | Does nothing once initialised, and a context failure changes nothing. Otherwise it creates a gain at the master volume and adds the loaded files, and the manager is initialised even if no file loaded. |
| Audio.InitializeIdempotent | client/src/lib/audioManager.ts:19 | A second initialisation is a no-op. |
| Audio.StopSound | client/src/lib/audioManager.ts:187-198 | Stops and forgets a tracked source. An untracked name changes nothing. |
| Audio.Remove | client/src/lib/audioManager.ts:193 | Forgetting a name keeps exactly the other names. |
| Audio.StopAll | client/src/lib/audioManager.ts:201-205 | Stops every tracked source in insertion order and tracks none afterwards. |
| Audio.PlayAmbient | client/src/lib/audioManager.ts:71-101 | Silent unless initialised, unmuted and able to play. Otherwise it stops a tracked ambient loop first, then starts and tracks a loop at the ambient volume. |
| Audio.AmbientNeverStacks | client/src/lib/audioManager.ts:78-98 | Restarting the ambient track leaves exactly one ambient loop tracked. |
| Audio.IfNonZero | client/src/lib/audioManager.ts:170-171 | A playback rate or detune is applied only when present and non-zero. |
| Audio.PlayOneShot | client/src/lib/audioManager.ts:158-184 | Starts an untracked sound only when its buffer, the context and the gain exist. |
| Audio.SwimVolume | client/src/lib/audioManager.ts:107 | A swim sound is never louder than the effects volume. |
| Audio.PlaySwimSound | client/src/lib/audioManager.ts:104-111 | Silent unless initialised and unmuted. Otherwise it requests volume `effects·i` and rate `0.8 + 0.4·i`. |
| Audio.SwimSoundRange | client/src/lib/audioManager.ts:107-109 | For `i` in `[0, 1]`, a swim sound plays at a rate in `[0.8, 1.2]`, at most the effects volume, with detune in `[-100, 100)`. |
| Audio.PlayInteractionSound | client/src/lib/audioManager.ts:114-121 | Silent unless initialised and unmuted. Otherwise it plays at the effects volume with the jittered rate and detune. |
| Audio.InteractionSoundRange | client/src/lib/audioManager.ts:117-120 | The interaction sound plays at a rate in `[0.9, 1.1)` and detune in `[-50, 50)`. |
| Audio.PlayBubbleSound | client/src/lib/audioManager.ts:124-155 | Plays only when initialised, unmuted, with a context and a gain. The start frequency is in `[800, 1200)`. |
| Audio.SetMuted | client/src/lib/audioManager.ts:208-214 | Sets the flag. An existing gain goes to 0 when muting and back to the master volume when unmuting. |
| Audio.MuteRoundTrip | client/src/lib/audioManager.ts:208-212 | Muting then unmuting a consistent manager restores it exactly. |
| Audio.SetMasterVolume | client/src/lib/audioManager.ts:217-222 | Stores the volume clamped to `[0, 1]`. It applies it to the gain only while unmuted, and while muted the gain is untouched. |
| Audio.VolumeWhileMutedAppliesOnUnmute | client/src/lib/audioManager.ts:217-222 | A master volume set while muted takes effect on unmute. |
| Audio.SetAmbientVolume | client/src/lib/audioManager.ts:225-227 | Stores the volume clamped to `[0, 1]` and changes nothing else. |
| Audio.SetEffectsVolume | client/src/lib/audioManager.ts:230-232 | Stores the volume clamped to `[0, 1]` and changes nothing else. |
| Audio.GetConfig | client/src/lib/audioManager.ts:235-237 | Reports the configuration together with the two flags. |
| Audio.Dispose | client/src/lib/audioManager.ts:240-247 | Stops every tracked source, closes a held context, and clears the initialised flag. Buffers and gain are kept. |
| Audio.DisposedIsSilent | client/src/lib/audioManager.ts:240-247 | After dispose, every play call is silent. |
| Audio.MutedIsSilent | client/src/lib/audioManager.ts:72-125 | While muted, no play call issues a command or changes state. |
| Audio.OperationsPreserveValid | client/src/lib/audioManager.ts:11-247 | Every operation keeps the invariant: volumes stay in `[0, 1]`, an unmuted gain equals the master volume, an initialised manager has a context and a gain, and at most the ambient loop is tracked. |
| Audio.InitializeAudio | client/src/lib/stores/useGamefolio.tsx:138-148 | The store's start-up runs initialise, resume and ambient, then sets the flag. A failing resume stops it before the flag is set. |
| Audio.FlagSetWithoutAudio | client/src/lib/stores/useGamefolio.tsx:138-148 | When the context cannot be created, the store still records audio as initialised and no loop starts, and a later dive never retries. |
| Audio.StartupPlaysAmbient | client/src/lib/stores/useGamefolio.tsx:140-143 | A successful start-up from a fresh manager starts exactly one ambient loop. |
| Scene.ProjectStation | client/src/components/game/GameScene.tsx:139-143 | Project stations lie at height -5, each one further right and deeper than the one before. |
| Scene.Markers | client/src/components/game/GameScene.tsx:117-181 | The scene renders surface, intro, one station per project, experience and contact, at their fixed positions. |
| Scene.MarkersMatchProximity | client/src/components/game/GameScene.tsx:127-181 | Every interactive marker stands exactly where the proximity list looks for it, for every project list. |
| Scene.SurfaceNotInteractive | client/src/components/game/GameScene.tsx:118-124 | No proximity point lies at the surface marker. |
| Scene.SkillPosition | client/src/components/game/GameScene.tsx:156-160 | Skill crystals lie at height -15, with x in {-25, -20, -15, -10} and z at most -25. |
| Scene.SkillPositionsDistinct | client/src/components/game/GameScene.tsx:156-160 | Distinct skills occupy distinct grid cells. |
| Scene.SceneCameraFrame | client/src/components/game/GameScene.tsx:23-29 | With the scene's smoothing of 2.5, any frame of at most 0.4 s keeps the camera valid. |
| Scene.StationsApart | client/src/hooks/useProximityDetection.tsx:16-21 | Two project stations are at least 8 apart. |
| Scene.ParkingActivatesProject | client/src/hooks/useProximityDetection.tsx:40-55 | A fish on the station of project `i` activates project `i`. |
| Scene.ParkingAtFirstStation | client/src/hooks/useProximityDetection.tsx:40-55 | Parking at the first station opens "Total Job Tracker". |
| Scene.StickDrivesFish | client/src/hooks/useFishMovementLogic.tsx:38-64 | A joystick offset alone moves the fish by `StickAxis` on x and `-StickAxis` on z, with no vertical motion. Each axis follows the stick's sign past the 0.1 dead zone. Past 0.3 the stick counts twice: as a unit flag and as its analog value. |
| Scene.StickSkewsDirection | client/src/hooks/useFishMovementLogic.tsx:38-64 | The offset `(0.5, 0.2)` gives the raw move `(1.5, 0, -0.2)`, which is not parallel to the stick. |
| Scene.ManualPicksFirstNotNearest | client/src/hooks/useProximityDetection.tsx:64-71 | At `(-10.8, -5, -12.6)`, manual interaction opens project 0 even though project 1 is the closest. Neither is close enough to trigger automatically. |
| Crystal.Height | client/src/components/game/SkillsCrystal.tsx:24 | For levels 0 to 10 the height lies in `[1, 4]`, and valid levels give at least 1.3. |
| Crystal.Glow | client/src/components/game/SkillsCrystal.tsx:30 | For levels 0 to 10 the glow lies in `[0.2, 1.0]`, as the code comment says. |
| Crystal.LevelMonotone | client/src/components/game/SkillsCrystal.tsx:24-30 | A higher level gives a strictly taller and strictly brighter crystal. |
| Crystal.ParticleBufferFits | client/src/components/game/SkillsCrystal.tsx:111-112 | The position buffer holds exactly three coordinates per particle. |
| Crystal.ParticleCoordinate | client/src/components/game/SkillsCrystal.tsx:112 | Each particle coordinate lies in `[-2, 2)`. |
| Crystal.ParticleBuffer | client/src/components/game/SkillsCrystal.tsx:109-113 | The buffer has three entries per particle, each in `[-2, 2)`. |
| Crystal.Pulse | client/src/components/game/SkillsCrystal.tsx:49 | The emissive intensity lies between 60% and 100% of the glow. |
| Crystal.Animate | client/src/components/game/SkillsCrystal.tsx:34-51 | The crystal floats within 0.1 of its base height, turns 0.3 rad/s, and pulses within `[0.6·glow, glow]`. |
| Crystal.NeverDark | client/src/components/game/SkillsCrystal.tsx:49 | For a valid level, the emissive intensity never drops below 0.168. |

## Left out

- Rendering: meshes, lights, materials, text, the particle and world decoration components, and all JSX.
- Event-listener registration and React lifecycles:
  - the camera registers its touch handlers only on mobile and its mouse handlers only on desktop; the model lets every handler be called;
  - the joystick's resize listener is not modelled;
  - console logging is not modelled.
- The camera's position step: `THREE.Spherical`, `camera.position.lerp` and `lookAt` are numeric library code.
- Camera.TouchDistance: states nothing about the value for two or more touches, because `Math.sqrt` is an abstract parameter.
- Camera.RunPreservesValid: requires every frame to have `smoothing·delta ≤ 1`, but the source never bounds `delta`. At the scene's smoothing of 2.5, a frame longer than 0.4 s (such as the first frame after the tab was hidden) overshoots the targets, and the camera can leave ±π/3 (`Camera.LongFrameLeavesRange`). `Camera.Frame`'s between-old-and-target clause and `Scene.SceneCameraFrame` carry the same condition.
- FishMotion.Step: reads the store's position and rotation as they are at the start of the frame. It does not model a frame that runs before React has re-rendered with the previous frame's values.
- FishMotion.Move: the step never prints its log line. It tests `length() > 0` as "not the zero vector". It assumes nothing about the value `normalize` returns.
- The swim sound triggered from the motion step is not modelled. It uses `Math.random() < 0.1` and a velocity length that needs `sqrt`. `Audio.PlaySwimSound` models the call itself.
- The interaction sound that `setActiveProject` plays is not composed with the store action. `Audio.PlayInteractionSound` models it separately.
- The velocity is not bounded. The code applies no speed cap, and a large `delta` gives a large impulse.
- Audio effects:
  - the Web Audio graph, `fetch`, `decodeAudioData`, `resume`, oscillator ramps and the filter are reduced to commands;
  - `stopSound`'s `catch` branch is not modelled: in the model stopping always succeeds and the name is forgotten;
  - the asynchrony of `initialize` is not modelled, and the load outcome is the parameter `loaded`.
- `setTimeout`-driven behaviour in the touch buttons and overlays.
- Static data beyond the three projects' ids and titles, including the skills list, which needs only its count for placement.
- IEEE-754 rounding: all arithmetic is on exact reals. `Math.PI / 3` is the double `1.0471975511965976`.

## Findings

| source | as written | input that shows it | evidently intended | confidence | as-written member | corrected member |
|---|---|---|---|---|---|---|
| client/src/components/ui/VirtualJoystick.tsx:81-87 | `handleTouchStart` and `handleMouseDown` call `handleMove` from the current render's closure, where `isDragging` is still `false` and the centre is the old one. The press returns early, emits nothing and leaves the knob in place. | Press an idle joystick 40 px right of its centre and hold it without moving. | The press is handled as a move of a dragging joystick at the new centre, so the fish starts turning right at once. | not executed | Joystick.PressAsWritten | Joystick.Press |
