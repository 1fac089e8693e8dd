# Munching — a Dafny model of the gameplay scripts

Munching is a small Unity game: a student in a classroom tries to eat while
a teacher patrols and watches. This project models the game's behaviour
scripts and proves properties of them:

- **the student state machine** (`StudentController`): Idle, WalkingOnSight,
  Seated and SeatedAndEating, a food flag and an eating countdown;
- **the player driver** (`PlayerMovement`): the C (sit/stand) and E (eat)
  keys, the skip-one-frame flag, the rule that a seated student does not
  move, walk/run speed, and the grounded flag that gates jumping;
- **food pickups** (`FoodPickup`): F inside the trigger hands the food over
  once and destroys the pickup;
- **seats** (`SitPrompt`, with the `SitPromptManager` label): C inside the
  trigger toggles sitting, snapping the player onto the seat point;
- **the Aj character** (`BeginnerCharacterController`): sitting on named
  chairs, where the character is placed beside the chair's recorded spot and
  the chair slides under it, then is put back; the animator flags; and the V
  camera swap;
- **the teacher's perception and roaming** (`TeacherAIComplete`): the view
  cone, the five-second catch timer, and ten random attempts to find a clear
  roam target;
- **the waypoint patrol** (`TeacherPatrol`).

Each script that updates its fields in place is a Dafny `class`, with the
fields and methods that carry its state. Small helpers are inlined
(`ChasePlayer`, `IsObstacleAhead`, `SetAnimationBool`). A few fields are added
to make engine effects visible: `destroyed`, the prompt label, the player's
controller, and the ghost histories `contacts` and `sightings`. Where the behaviour has a clean value form, the
class is proved against pure functions:

- `StudentController.Model()` follows the `Student` transition functions.
- `PlayerMovement.isGrounded` is `Grounded` folded over the collision
  history.
- `TeacherAIComplete`'s alert fields are `Watch` folded over every sighting
  so far.
- The roam target is `RoamTarget` of the frame's random draws.

Lemmas about those functions state what the game relies on, for example:

- no sequence of calls ever eats without food;
- eating ends exactly when the frames have used up the timer;
- the catch happens exactly when the player has been in unbroken sight for
  five seconds;
- the roam target is the first of ten random points with a clear line,
  and each such point lies inside the room; when none is clear, or no room
  is assigned, the teacher targets its own position;
- the patrol visits every waypoint and returns to where it started.

Engine queries are parameters of the modelled methods. These include key
presses, axes, tags, components found on colliders, raycasts and line casts,
angles, random draws, the frame time and the normalisation of direction
vectors. Positions are exact reals. Distances are compared through squared
distance, which is exact.

One behaviour of the Aj character is modelled as written, not changed. If
the character stands up while inside a chair's trigger,
`RestoreChairPosition` forgets the chair but leaves `isNearChair` set. Leaving
the trigger afterwards no longer matches the chair, so `isNearChair` stays
true, and the next C sits the character down away from any chair.
`Chairs.StandThenLeaveChair` plays out that sequence.

`StudentController.ignoreNextInput` is only ever cleared, never set, by the
modelled scripts: `SitPrompt.Sit` disables the controller instead. The model
keeps the skip branch of `HandleSitAndEatInput` all the same.

## Model

| member | source | states |
|---|---|---|
| Scene.Lerp | Munching/Assets/Pura/TeacherAIComplete.cs:125-129 | a random draw between the bounds, given as a fraction in [0,1], lies within the bounds |
| Students.StartEatingNeedsFood | Munching/Assets/Pura/StudentController.cs:43-48 | without food StartEating changes nothing; with food it enters SeatedAndEating with the timer set to the eating duration |
| Students.FinishEatingSeatsWithoutFood | Munching/Assets/Pura/StudentController.cs:50-54 | FinishEating drops the food and leaves the student Seated |
| Students.SitDownNeverInterruptsEating | Munching/Assets/Pura/StudentController.cs:56-60 | SitDown leaves an eating student alone and seats any other |
| Students.StandUpAlwaysIdles | Munching/Assets/Pura/StudentController.cs:62-65 | StandUp always goes to Idle, from any state, even mid-meal, and keeps food and timer |
| Students.LocomotionIgnoredWhileSeated | Munching/Assets/Pura/StudentController.cs:67-77 | SetWalkingOnSight and SetIdle are no-ops while seated and set their state otherwise |
| Students.PickUpFoodEatsWhenSeated | Munching/Assets/Pura/StudentController.cs:36-41 | picking up food always gives food; a Seated student starts eating at once, others only gain the food |
| Students.UpdateCountsDownOnlyWhileEating | Munching/Assets/Pura/StudentController.cs:26-34 | a frame changes nothing unless eating; while eating it counts the timer down, finishing at or below zero |
| Students.EventKeepsConsistent | Munching/Assets/Pura/StudentController.cs:26-77 | every public call keeps "eating implies food"; eating is entered only via PickUpFood or StartEating with food; food is lost only by finishing, into Seated |
| Students.RunKeepsConsistent | Munching/Assets/Pura/StudentController.cs:26-77 | any sequence of calls keeps "eating implies food" |
| Students.NeverEatsWithoutFood | Munching/Assets/Pura/StudentController.cs:15-24 | from the initial Idle state, no sequence of calls reaches SeatedAndEating without food |
| Students.FramesLeaveNonEatingAlone | Munching/Assets/Pura/StudentController.cs:26-34 | frames leave a student that is not eating unchanged |
| Students.EatingCountdown | Munching/Assets/Pura/StudentController.cs:26-34 | while eating, positive frames reduce the timer by the elapsed time; once the elapsed time reaches the timer the student is Seated without food |
| Students.StudentController.constructor | Munching/Assets/Pura/StudentController.cs:15-24 | a new student is Idle, enabled, not skipping input, with the configured food flag and duration |
| Students.StudentController.Update | Munching/Assets/Pura/StudentController.cs:26-34 | the fields move exactly as the Student frame transition, keeping the invariant |
| Students.StudentController.PickUpFood | Munching/Assets/Pura/StudentController.cs:36-41 | the fields move exactly as the PickUpFood transition |
| Students.StudentController.StartEating | Munching/Assets/Pura/StudentController.cs:43-48 | the fields move exactly as the guarded StartEating transition |
| Students.StudentController.FinishEating | Munching/Assets/Pura/StudentController.cs:50-54 | the fields move exactly as the FinishEating transition |
| Students.StudentController.SitDown | Munching/Assets/Pura/StudentController.cs:56-60 | the fields move exactly as the SitDown transition |
| Students.StudentController.StandUp | Munching/Assets/Pura/StudentController.cs:62-65 | the fields move exactly as the StandUp transition |
| Students.StudentController.SetWalkingOnSight | Munching/Assets/Pura/StudentController.cs:67-71 | the fields move exactly as the SetWalkingOnSight transition |
| Students.StudentController.SetIdle | Munching/Assets/Pura/StudentController.cs:73-77 | the fields move exactly as the SetIdle transition |
| Movement.CKeyTogglesSeat | Munching/Assets/Pura/PlayerMovement.cs:51-65 | C stands a seated or eating student up to Idle and sits any other down; no key changes nothing |
| Movement.EKeyEatsOnlySeatedWithFood | Munching/Assets/Pura/PlayerMovement.cs:67-73 | E starts eating exactly when Seated with food, and otherwise changes nothing |
| Movement.SitAndEatInOneFrame | Munching/Assets/Pura/PlayerMovement.cs:51-73 | C and E in one frame take a standing student holding food straight to eating |
| Movement.SitAndEatKeepsConsistent | Munching/Assets/Pura/PlayerMovement.cs:51-73 | the key handling keeps "eating implies food" and never changes the food flag |
| Movement.LocomotionRespectsSeat | Munching/Assets/Pura/PlayerMovement.cs:101-110 | the walk/idle update is a no-op while seated; otherwise a move above 0.1 walks and anything else idles |
| Movement.GroundedIsLatestGroundContact | Munching/Assets/Pura/PlayerMovement.cs:113-123 | the grounded flag is the direction (enter or exit) of the latest Ground-tagged collision, or the initial value if none |
| Movement.PlayerMovement.constructor | Munching/Assets/Pura/PlayerMovement.cs:7-19 | a new driver is not grounded, with no collision history, and holds the player's StudentController if any |
| Movement.PlayerMovement.HandleSitAndEatInput | Munching/Assets/Pura/PlayerMovement.cs:40-74 | with a skip pending the frame only clears the flag; otherwise the student moves by the C-then-E key function |
| Movement.PlayerMovement.HandleMovement | Munching/Assets/Pura/PlayerMovement.cs:76-111 | run speed with Shift, else walk speed; a jump only on Space while grounded; the student takes the walk/idle update |
| Movement.PlayerMovement.Update | Munching/Assets/Pura/PlayerMovement.cs:28-38 | the keys are handled first; if the student is then seated the frame halts with no movement, otherwise the movement step runs |
| Movement.PlayerMovement.OnCollisionEnter | Munching/Assets/Pura/PlayerMovement.cs:113-117 | touching Ground sets the grounded flag; other contacts leave it; the history invariant is kept |
| Movement.PlayerMovement.OnCollisionExit | Munching/Assets/Pura/PlayerMovement.cs:119-123 | leaving Ground clears the grounded flag; other contacts leave it; the history invariant is kept |
| Pickup.FoodPickup.constructor | Munching/Assets/Pura/FoodPickup.cs:13-17 | a new pickup has nobody nearby, has handed out nothing, and its label is cleared if it has one |
| Pickup.FoodPickup.Update | Munching/Assets/Pura/FoodPickup.cs:19-25 | F with a student nearby hands the food over once and destroys the pickup; otherwise nothing changes |
| Pickup.FoodPickup.GrabFood | Munching/Assets/Pura/FoodPickup.cs:27-33 | the student takes the PickUpFood transition, the label clears, and the pickup is destroyed, so no later callback can grab again |
| Pickup.FoodPickup.OnTriggerEnter | Munching/Assets/Pura/FoodPickup.cs:35-46 | a player is remembered with its StudentController; with one, the pickup is marked nearby and shows its prompt; non-players change nothing |
| Pickup.FoodPickup.OnTriggerExit | Munching/Assets/Pura/FoodPickup.cs:48-56 | a player leaving forgets the student and clears the label; non-players change nothing |
| Seats.SitPrompt.constructor | Munching/Assets/Pura/SitPrompt.cs:6-9 | a new seat has nobody near, nobody sitting and no prompt shown |
| Seats.SitPrompt.Start | Munching/Assets/Pura/SitPrompt.cs:11-21 | an assigned seat point is kept; a missing one is created 0.6 up the seat's up vector with identity rotation |
| Seats.SitPrompt.ShowPrompt | Munching/Assets/Pura/SitPromptManager.cs:16-22 | with the prompt manager present the label shows the text; otherwise nothing changes |
| Seats.SitPrompt.HidePrompt | Munching/Assets/Pura/SitPromptManager.cs:24-29 | with the prompt manager present the label is hidden; otherwise nothing changes |
| Seats.SitPrompt.OnTriggerEnter | Munching/Assets/Pura/SitPrompt.cs:23-31 | a player becomes the near player and the sit prompt shows; non-players change nothing |
| Seats.SitPrompt.OnTriggerExit | Munching/Assets/Pura/SitPrompt.cs:33-40 | a player leaving clears "near" and hides the prompt, whether or not they are sitting |
| Seats.SitPrompt.Update | Munching/Assets/Pura/SitPrompt.cs:42-51 | C while the player is near sits them (the effects of Sit) or stands them (the effects of Stand); otherwise nothing changes; the player's student state and skip flag are never touched |
| Seats.SitPrompt.Sit | Munching/Assets/Pura/SitPrompt.cs:53-63 | the player takes the seat point's position and rotation, its StudentController is disabled with its state and skip flag untouched, and the stand prompt shows |
| Seats.SitPrompt.Stand | Munching/Assets/Pura/SitPrompt.cs:65-74 | the StudentController is re-enabled with its state and skip flag untouched, the player steps half a unit along its forward vector, and the sit prompt shows |
| Chairs.BeginnerCharacterController.constructor | Munching/Assets/Naluz/AjController.cs:19-21 | a new character is not sitting and near no chair, with the cameras found by name |
| Chairs.BeginnerCharacterController.Start | Munching/Assets/Naluz/AjController.cs:27-48 | with both cameras found, the third-person camera is active and the first-person one is not; with only one found, it is left as it was |
| Chairs.BeginnerCharacterController.Update | Munching/Assets/Naluz/AjController.cs:50-55 | movement stands the character up and puts the chair back; C then sits it beside the tracked chair (sliding the chair under it) when near a chair and not sitting, or stands it up and puts the chair back; the recorded chair pose is kept; the animator flags follow; V swaps the cameras when both exist, and otherwise no camera changes |
| Chairs.BeginnerCharacterController.HandleMovementAndRotation | Munching/Assets/Naluz/AjController.cs:57-140 | any movement input stands a sitting character up and puts the chair back; the walking flag is the movement input |
| Chairs.BeginnerCharacterController.HandleAnimationInput | Munching/Assets/Naluz/AjController.cs:142-171 | C next to a chair sits down, placing the character beside the recorded chair and sliding the chair under it; C while sitting stands up and puts the chair back; munching is sitting with E held, the sitting animation is sitting without munching, and picking is Q held |
| Chairs.BeginnerCharacterController.HandleCameraSwitch | Munching/Assets/Naluz/AjController.cs:173-185 | V with both cameras found swaps which one is active, keeping exactly one active; otherwise no camera changes |
| Chairs.BeginnerCharacterController.OnTriggerEnter | Munching/Assets/Naluz/AjController.cs:189-199 | an object named "Chair …" becomes the nearest chair, and its pose is recorded; anything else changes nothing |
| Chairs.BeginnerCharacterController.OnTriggerExit | Munching/Assets/Naluz/AjController.cs:201-215 | leaving the tracked chair clears "near", stands up and puts the chair back; other objects change nothing |
| Chairs.BeginnerCharacterController.AlignChairAndCharacter | Munching/Assets/Naluz/AjController.cs:241-269 | the character goes 10 units beside the recorded chair x, against its facing, at the recorded z and its own height; the chair slides under it, keeping its height and rotation |
| Chairs.BeginnerCharacterController.RestoreChairPosition | Munching/Assets/Naluz/AjController.cs:271-280 | the tracked chair gets back its recorded position and rotation and is forgotten |
| Chairs.StandThenLeaveChair | Munching/Assets/Naluz/AjController.cs:201-215 | after entering a chair, sitting, standing and leaving, the character still counts as near a chair and C sits it down |
| Teaching.DetectedFrame | Munching/Assets/Pura/TeacherAIComplete.cs:56-68 | a sighting marks the player detected, adds the frame time to the timer, and catches exactly when the timer reaches 5 s |
| Teaching.UndetectedFrame | Munching/Assets/Pura/TeacherAIComplete.cs:73-75 | a frame without sight resets the timer and detection |
| Teaching.CaughtIsFinal | Munching/Assets/Pura/TeacherAIComplete.cs:39 | once caught, no later frame changes the alert state |
| Teaching.CatchNeedsUnbrokenSight | Munching/Assets/Pura/TeacherAIComplete.cs:50-76 | from a calm start, before the catch the timer is the current unbroken run of sight; the player is caught exactly when some run reached 5 s |
| Teaching.Candidate | Munching/Assets/Pura/TeacherAIComplete.cs:125-129 | each random point lies inside the room's x/z bounds at the teacher's height |
| Teaching.FirstClear | Munching/Assets/Pura/TeacherAIComplete.cs:123-138 | the chosen point is either the teacher's own position or inside the room at its height |
| Teaching.RoamTargetIsFirstClearAttempt | Munching/Assets/Pura/TeacherAIComplete.cs:112-139 | the target is the candidate of the first clear attempt of ten, or the teacher's position if none is clear |
| Teaching.TeacherAIComplete.constructor | Munching/Assets/Pura/TeacherAIComplete.cs:7-29 | a new teacher is calm (timer 0, not detecting, not caught) with no sightings |
| Teaching.TeacherAIComplete.Start | Munching/Assets/Pura/TeacherAIComplete.cs:31-35 | the first roam target is chosen and the warning label is cleared |
| Teaching.TeacherAIComplete.Update | Munching/Assets/Pura/TeacherAIComplete.cs:37-47 | with no player or once caught nothing happens; otherwise the teacher detects, then chases the player at chase speed or roams at roam speed |
| Teaching.TeacherAIComplete.DetectPlayer | Munching/Assets/Pura/TeacherAIComplete.cs:50-76 | the alert fields take one detection step, so they remain the fold of all sightings; the label shows detected, caught or nothing |
| Teaching.TeacherAIComplete.Roam | Munching/Assets/Pura/TeacherAIComplete.cs:85-93 | within 0.5 of the target or blocked, a new target is chosen; the teacher heads for the target at roam speed |
| Teaching.TeacherAIComplete.SetNewRoamTarget | Munching/Assets/Pura/TeacherAIComplete.cs:112-139 | the loop leaves the target equal to the roam-target function of the draws: the first clear candidate, else the current position |
| Patrolling.NextWraps | Munching/Assets/Pura/TeacherPatrol.cs:25 | after the last waypoint comes the first, and otherwise the next one |
| Patrolling.AdvanceWithinTwoLaps | Munching/Assets/Pura/TeacherPatrol.cs:22-26 | k arrivals within two laps land k waypoints on, wrapped once |
| Patrolling.PatrolVisitsEveryWaypoint | Munching/Assets/Pura/TeacherPatrol.cs:22-26 | n arrivals return to the start, and every waypoint is reached within fewer than n arrivals |
| Patrolling.StepLength | Munching/Assets/Pura/TeacherPatrol.cs:16-19 | a step along the normalised direction, scaled by k, is exactly k long |
| Patrolling.TeacherPatrol.constructor | Munching/Assets/Pura/TeacherPatrol.cs:5-9 | a new patrol heads for the first waypoint |
| Patrolling.TeacherPatrol.Update | Munching/Assets/Pura/TeacherPatrol.cs:11-27 | with no waypoints nothing happens; otherwise the teacher steps towards the current waypoint by exactly moveSpeed times dt (not at all within 1e-5 of it) and moves on, wrapping, once strictly closer than the stop distance |

## Left out

- Rigidbody physics is left out: velocities, `AddForce`, `MovePosition`,
  `MoveRotation` and `isKinematic`. `Motion` records only the requested
  speed and whether a jump impulse is applied, not the direction.
- `PlayerMovement` standing up also un-parents the player, makes the rigidbody
  non-kinematic and re-enables the script. Sitting down zeroes the horizontal
  velocity. These are engine writes and are not modelled.
- The Aj character's movement and turning through the rigidbody, and the
  sprint multiplier, are left out. The OnCollisionStay push-back away from
  objects whose name contains "PC Table" (AjController.cs:218-236) is also
  left out; all of these are physics.
- Chairs.BeginnerCharacterController.Update: its clauses on the character's
  own position and rotation cover only the chair placement. The turn towards
  the movement direction and the rigidbody step are not modelled.
  `AlignChairAndCharacter` reads the facing after that turn
  (AjController.cs:123, 248). So on a frame that both moves and presses C,
  the source may pick the other side (±10) than `SeatPosition` of the
  pre-frame rotation.
- Chairs.BeginnerCharacterController.OnTriggerEnter: the "Chair " test is an
  ordinal prefix match. C#'s `StartsWith(string)` (AjController.cs:191) is
  culture-sensitive and skips ignorable characters such as a soft hyphen;
  that difference is not modelled.
- `TeacherAIComplete.MoveTowards` (turn by Slerp, step when within 45°) is
  engine motion. `Update` and `Roam` return the destination and speed they
  pass to it.
- `Transform.LookAt` in the patrol is left out.
- `Vector3.Angle` is an input of each teacher frame, as is the obstruction
  line cast. The obstacle raycast and the line cast of each roam attempt are
  also inputs.
- `Random.Range` draws are inputs, given as fractions of the range.
- `TeacherPatrol.Update`: the `.normalized` factor is an input rather than
  computed from a square root. The precondition `Normalises` pins it to one
  over the distance, or to zero when the distance is at most 1e-5, as the
  engine's `.normalized` does.
- Floating-point rounding is left out: positions, times and speeds are exact
  reals.
- Unity does not call `Update` on a disabled component (after
  `SitPrompt.Sit`). `StudentController.Update` models the script's body, and
  the caller decides whether it runs.
- Seats.SitPrompt.Start: the seat point's world position assumes the seat's
  parent chain has unit scale.
- `SitPromptManager` is a single label shared by every seat. The model gives
  each `SitPrompt` its own `prompt` field, plus a flag for whether the
  manager exists, so the shared label and its `Awake` singleton set-up are
  not modelled.
- `SitPrompt` looks up the player's `StudentController` on each `Sit` and
  `Stand`. The model looks it up once, on trigger enter, from the same
  player object.
- Missing-component warnings and errors (`Debug.Log*`) are left out.
- The Aj character's Rigidbody and Animator, and `PlayerMovement`'s camera
  transform, are assumed present. Only a missing Rigidbody is logged
  (AjController.cs:29-33); a missing Animator (:34) and a missing camera
  transform (PlayerMovement.cs:24-25) are not. A missing Rigidbody throws in
  `HandleMovementAndRotation` only on frames that reach :103 or :135; a
  seated character that is not moving reaches neither, so on those frames
  the animation and camera handling still run. A missing Animator throws at
  :139 on every frame, so the animation and camera handling never run. A
  missing camera transform throws in `HandleMovement` (PlayerMovement.cs:81),
  so the walk/idle update never runs. The model has no such exceptional
  paths.
- `PlayerMovement`'s Slerp turn toward the move direction
  (PlayerMovement.cs:101-105) is not modelled; the model keeps no player
  rotation.
- `TeacherPatrol`: a waypoint slot left unassigned throws a null reference
  at TeacherPatrol.cs:15-16. The model's `array<Transform>` holds only
  non-null transforms.
- `PlayerMovement.cameraTransform` and the camera-relative move direction are
  left out; only the direction's magnitude is an input.
- PlayerCamera.cs, CharAnim.cs and AudioManager.cs are not part of this
  model. They are camera follow, an animation demo and audio asset references
  only.
