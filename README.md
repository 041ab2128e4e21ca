# Mindstorms EV3 robot logic, modelled in Dafny

This project models the decision logic of a family of LEGO Mindstorms EV3
robots written in Java on leJOS: a wall follower, an odometry lab, a
navigation lab, a localisation lab, a zip-line robot and a Capture-the-Flag
robot. It covers everything between raw sensor integers and motor commands,
and it proves properties of that logic:

- **Path planner and zone map** (Capture the Flag): the backtracking search
  `recursivePath`, its cycle guard and passability scan, the greedy
  `closeShift` neighbour chooser over a bit mask, the in-place
  `removeRedundantPoints`, both `mapPoint` zone classifiers,
  `obstacleCheck`, the game-parameter record and one pass of the driving
  loop.
- **Pose store**: both odometers. This covers heading normalisation into
  [0, 2π), masked get and set of the pose, and one integration tick.
- **Point-to-point drivers**: three `Navigation` classes and the square
  driver. This covers the shorter-rotation choice of `turnTo`, the
  wheel-degree conversions, `travelTo`, `forward` and `interruptNav`, each
  as the sequence of motor commands it issues.
- **Edge and line detectors**: the shift-register filters of the odometry
  correctors and of the localisation and zip-line pollers, kept as arrays
  shifted in place, plus the Capture-the-Flag pulse, edge and rise
  detectors.
- **Localisation arithmetic**: orientation from two wall edges, position
  from four grid lines, and rounding to the nearest reference and the
  nearest tile.
- **Per-sample controllers**: poller dispatch, the navigation state
  machines, the proportional and bang-bang wall followers, and the
  obstacle avoider.

Each Java class whose fields change is a Dafny `class` with the same
fields. Its methods are proved against pure step functions on a state
value. Each motor call is appended, in order, to a log field of type
`seq<Command>`. Java `int` division and `(int)` casts truncate toward zero;
the model writes them as `JDiv`, `Trunc` and the saturating `JavaInt`.
Java `int` sums and differences that a sensor reading, a tacho count or
a heading can push out of the 32-bit range are written with `Int32`,
which wraps as Java does. A
property that holds only without wrap-around says so in its premise, and
two counterexample lemmas show a saturated reading wrapping a window and
changing what the robot does. Java's `%` on doubles is `RealRem`. Doubles are Dafny `real`s.

## Model

| member | source | states |
|---|---|---|
| Coordinates.Equals | CaptureTheFlag/src/ca/mcgill/ecse211/capturetheflag/Coordinate.java:41-46 | a coordinate equals another exactly when the other is present and has the same x and y; it never equals null |
| Coordinates.EqualsIsEquivalence | CaptureTheFlag/src/ca/mcgill/ecse211/capturetheflag/Coordinate.java:41-46 | equals is reflexive, symmetric and transitive, and false against null |
| GameParams.Construct | CaptureTheFlag/src/ca/mcgill/ecse211/capturetheflag/GameParameters.java:150-177 | every field equals its own constructor argument, except that ZC_R takes the ZC_G argument |
| GameParams.RedTowerLost | CaptureTheFlag/src/ca/mcgill/ecse211/capturetheflag/GameParameters.java:167 | counterexample exhibit for the finding below, not a property: two different tower centres go in, but both fields come out as the green one, so the red one is lost |
| GameParams.ConstructIntended | CaptureTheFlag/src/ca/mcgill/ecse211/capturetheflag/GameParameters.java:150-177 | the corrected constructor stores every argument, ZC_R included, in its own field |
| GameParams.ConstructorsAgreeOnOneTower | CaptureTheFlag/src/ca/mcgill/ecse211/capturetheflag/GameParameters.java:165-167 | when the red and green tower centres are the same point, the constructor as written and the corrected one build the same record |
| Angles.Normalise | CaptureTheFlag/src/ca/mcgill/ecse211/capturetheflag/Odometer.java:237-246 | the stored heading lies in [0, 2π) |
| Angles.NormaliseCongruent | CaptureTheFlag/src/ca/mcgill/ecse211/capturetheflag/Odometer.java:237-246 | normalising changes a heading by whole turns only |
| Angles.NormalisePeriodic | CaptureTheFlag/src/ca/mcgill/ecse211/capturetheflag/Odometer.java:238-241 | a heading one turn further normalises to the same value |
| Angles.NormaliseTurns | CaptureTheFlag/src/ca/mcgill/ecse211/capturetheflag/Odometer.java:238-241 | a heading any whole number of turns away, forward or back, normalises to the same value |
| Angles.NormaliseInRange | CaptureTheFlag/src/ca/mcgill/ecse211/capturetheflag/Odometer.java:237-246 | a heading already in [0, 2π) is stored unchanged |
| Angles.NormaliseIdempotent | CaptureTheFlag/src/ca/mcgill/ecse211/capturetheflag/Odometer.java:237-246 | normalising twice gives the same as once |
| Angles.AddTurnsWhileNegative | CaptureTheFlag/src/ca/mcgill/ecse211/capturetheflag/Odometer.java:238-240 | the loop ends on a non-negative heading that normalises like its argument, and leaves a non-negative argument alone |
| Angles.RemainderIsNormalise | CaptureTheFlag/src/ca/mcgill/ecse211/capturetheflag/Odometer.java:241 | on a non-negative heading, the floating remainder by 2π is the normalised heading |
| Odometry.Integrate | CaptureTheFlag/src/ca/mcgill/ecse211/capturetheflag/Odometer.java:76-84 | the heading after one integration step lies in [0, 2π) |
| Odometry.StillWheel | CaptureTheFlag/src/ca/mcgill/ecse211/capturetheflag/Odometer.java:72-73 | a wheel whose tacho count did not move covers no distance |
| Odometry.WheelDistance | CaptureTheFlag/src/ca/mcgill/ecse211/capturetheflag/Odometer.java:72-73 | for a tacho difference that fits in an int, the distance times 180 is π times the radius times the difference, and for a positive radius it is not negative exactly when the wheel did not turn backward |
| Odometry.WheelDistanceAdds | CaptureTheFlag/src/ca/mcgill/ecse211/capturetheflag/Odometer.java:72-75 | when no tacho difference wraps, the distances of two successive ticks add up to the distance over both |
| Odometry.NoMotionKeepsPosition | CaptureTheFlag/src/ca/mcgill/ecse211/capturetheflag/Odometer.java:79-84 | a step with no travel and no turn keeps x and y and only normalises the heading |
| Odometry.SpinKeepsPosition | CaptureTheFlag/src/ca/mcgill/ecse211/capturetheflag/Odometer.java:76-84 | when the wheels move by opposite distances, x and y do not change |
| Odometry.StepIsBounded | CaptureTheFlag/src/ca/mcgill/ecse211/capturetheflag/Odometer.java:81-84 | with sine and cosine bounded by one, a step moves x and y each by at most the distance driven |
| CaptureOdometry.Odometer.constructor | CaptureTheFlag/src/ca/mcgill/ecse211/capturetheflag/Odometer.java:46-58 | the pose and both tacho counts start at zero, and the wheel radius and track are stored |
| CaptureOdometry.Odometer.SetTheta | CaptureTheFlag/src/ca/mcgill/ecse211/capturetheflag/Odometer.java:237-246 | theta becomes the normalised argument, in [0, 2π), and thetaDegree becomes theta in degrees |
| CaptureOdometry.Odometer.Tick | CaptureTheFlag/src/ca/mcgill/ecse211/capturetheflag/Odometer.java:70-84 | the tacho counts become the new readings, and the pose becomes the integration of the wheel distances, the heading turning by (distL − distR)/TRACK |
| CaptureOdometry.Odometer.Move | CaptureTheFlag/src/ca/mcgill/ecse211/capturetheflag/Odometer.java:79-85 | the pose becomes one integration step: the heading turned by the change and normalised into [0, 2π), then the position moved by the distance along the new heading; the heading in degrees is kept beside it |
| CaptureOdometry.Odometer.GetPosition | CaptureTheFlag/src/ca/mcgill/ecse211/capturetheflag/Odometer.java:109-121 | with two arrays of length 3, exactly the flagged slots receive x, y and thetaDegree; otherwise the array is left alone |
| CaptureOdometry.Odometer.SetPosition | CaptureTheFlag/src/ca/mcgill/ecse211/capturetheflag/Odometer.java:190-202 | with two arrays of length 3, exactly the flagged fields are overwritten, theta raw and thetaDegree untouched; otherwise nothing changes |
| CaptureOdometry.Odometer.SetX | CaptureTheFlag/src/ca/mcgill/ecse211/capturetheflag/Odometer.java:208-212 | only x changes, to the argument |
| CaptureOdometry.Odometer.SetY | CaptureTheFlag/src/ca/mcgill/ecse211/capturetheflag/Odometer.java:218-222 | only y changes, to the argument |
| CaptureOdometry.Odometer.SetLeftMotorTachoCount | CaptureTheFlag/src/ca/mcgill/ecse211/capturetheflag/Odometer.java:259-263 | only the left tacho count changes, to the argument |
| CaptureOdometry.Odometer.SetRightMotorTachoCount | CaptureTheFlag/src/ca/mcgill/ecse211/capturetheflag/Odometer.java:276-280 | only the right tacho count changes, to the argument |
| CaptureOdometry.StillTickKeepsPosition | CaptureTheFlag/src/ca/mcgill/ecse211/capturetheflag/Odometer.java:70-84 | a tick with no tacho change keeps x and y |
| CaptureOdometry.StraightTickKeepsHeading | CaptureTheFlag/src/ca/mcgill/ecse211/capturetheflag/Odometer.java:76-80 | equal wheel distances leave the heading as it was, normalised |
| LabOdometry.Odometer.constructor | Localisation/src/ca/mcgill/ecse211/odometerlab/Odometer.java:25-35 | the pose and both tacho counts start at zero |
| LabOdometry.Odometer.SetTheta | Localisation/src/ca/mcgill/ecse211/odometerlab/Odometer.java:154-163 | theta becomes the normalised argument, in [0, 2π), and thetaDegree becomes theta in degrees |
| LabOdometry.Odometer.Tick | Localisation/src/ca/mcgill/ecse211/odometerlab/Odometer.java:44-58 | the tacho counts become the new readings, and the pose becomes the integration of the wheel distances, the heading turning by (distR − distL)/TRACK |
| LabOdometry.Odometer.Move | Localisation/src/ca/mcgill/ecse211/odometerlab/Odometer.java:53-59 | the pose becomes one integration step: the heading turned by the change and normalised into [0, 2π), then the position moved by the distance along the new heading; the heading in degrees is kept beside it |
| LabOdometry.Odometer.GetPosition | Localisation/src/ca/mcgill/ecse211/odometerlab/Odometer.java:73-83 | exactly the flagged slots among the first three receive x, y and thetaDegree |
| LabOdometry.Odometer.SetPosition | Localisation/src/ca/mcgill/ecse211/odometerlab/Odometer.java:126-136 | exactly the flagged fields are overwritten, theta raw |
| LabOdometry.Odometer.SetX | Localisation/src/ca/mcgill/ecse211/odometerlab/Odometer.java:138-142 | only x changes, to the argument |
| LabOdometry.Odometer.SetY | Localisation/src/ca/mcgill/ecse211/odometerlab/Odometer.java:144-148 | only y changes, to the argument |
| LabOdometry.Odometer.SetLeftMotorTachoCount | Localisation/src/ca/mcgill/ecse211/odometerlab/Odometer.java:176-180 | only the left tacho count changes, to the argument |
| LabOdometry.Odometer.SetRightMotorTachoCount | Localisation/src/ca/mcgill/ecse211/odometerlab/Odometer.java:193-197 | only the right tacho count changes, to the argument |
| LabOdometry.OppositeHeadingSign | Localisation/src/ca/mcgill/ecse211/odometerlab/Odometer.java:51 | the lab odometer turns its heading by exactly the negation of the capture-the-flag odometer's turn for the same wheel distances |
| Driving.ConvertDistanceMonotone | CaptureTheFlag/src/ca/mcgill/ecse211/capturetheflag/Navigation.java:165-167 | rolling a longer distance never takes fewer wheel degrees |
| Driving.ConvertDistance | CaptureTheFlag/src/ca/mcgill/ecse211/capturetheflag/Navigation.java:165-167 | the wheel degrees are an int with the sign of the distance: never negative rolling forward, never positive rolling backward |
| Driving.ConvertAngle | CaptureTheFlag/src/ca/mcgill/ecse211/capturetheflag/Navigation.java:177-179 | the wheel degrees of a turn on the spot are an int with the sign of the angle, for a wheelbase that is not negative |
| Driving.ConvertDistanceOdd | CaptureTheFlag/src/ca/mcgill/ecse211/capturetheflag/Navigation.java:165-167 | rolling backward takes the wheel degrees of rolling forward, negated, because the cast truncates toward zero |
| Driving.ConvertAngleCancelsPi | CaptureTheFlag/src/ca/mcgill/ecse211/capturetheflag/Navigation.java:177-179 | the degrees of a turn on the spot are width·angle/(2·radius), truncated, with π cancelled |
| Driving.TurnIsShortest | CaptureTheFlag/src/ca/mcgill/ecse211/capturetheflag/Navigation.java:96-114 | both rotations lie in [0, 360) and add up to a full turn; the chosen one is the shorter, at most 180, and zero when already on target |
| Driving.HalfTurnGoesLeft | CaptureTheFlag/src/ca/mcgill/ecse211/capturetheflag/Navigation.java:107-114 | a half turn either way is a tie, and a tie turns counter-clockwise |
| Driving.TurnWheelsOpposite | CaptureTheFlag/src/ca/mcgill/ecse211/capturetheflag/Navigation.java:107-114 | with equal wheels the two rotations cancel, the left wheel goes forward exactly on a clockwise turn, and neither exceeds a half turn's degrees |
| Driving.ConvertAngleRange | CaptureTheFlag/src/ca/mcgill/ecse211/capturetheflag/Navigation.java:177-179 | a turn of up to half a circle takes between zero and a half turn's wheel degrees |
| Driving.TurnEndsFast | CaptureTheFlag/src/ca/mcgill/ecse211/capturetheflag/Navigation.java:94-116 | a turn's commands leave both wheels at the fast acceleration and turn each wheel by its own rotation |
| Driving.TurnReachesHeading | CaptureTheFlag/src/ca/mcgill/ecse211/capturetheflag/Navigation.java:93-117 | the turn is at most half a circle either way and ends on the target heading modulo 360, also for the negative bearings travelTo passes |
| Driving.BearingInRange | CaptureTheFlag/src/ca/mcgill/ecse211/capturetheflag/Navigation.java:72 | with an arc tangent in [−π, π], the bearing lies in [−180, 180] |
| Driving.ForwardDrivesBoth | Localisation/src/ca/mcgill/ecse211/odometerlab/Navigation.java:71-77 | a straight drive turns each wheel by its own degrees and sets no acceleration |
| CaptureNavigation.Navigation.constructor | CaptureTheFlag/src/ca/mcgill/ecse211/capturetheflag/Navigation.java:27-57 | nothing is issued yet, the interrupted heading starts at −1, and the associations and constants are stored |
| CaptureNavigation.Navigation.TurnTo | CaptureTheFlag/src/ca/mcgill/ecse211/capturetheflag/Navigation.java:93-117 | the commands issued are the rotation speed, slow acceleration, the shorter turn's wheel rotations and fast acceleration again, from the odometer's heading |
| CaptureNavigation.Navigation.Forward | CaptureTheFlag/src/ca/mcgill/ecse211/capturetheflag/Navigation.java:132-139 | the commands issued are forward speed, fast acceleration and both wheels by the distance's wheel degrees, the right one waited for unless returnThread |
| CaptureNavigation.Navigation.TravelTo | CaptureTheFlag/src/ca/mcgill/ecse211/capturetheflag/Navigation.java:67-87 | the commands issued are the turn toward the bearing of the target, then the straight drive over the distance to it |
| CaptureNavigation.Navigation.FaceZipline | CaptureTheFlag/src/ca/mcgill/ecse211/capturetheflag/Navigation.java:122-124 | the commands issued are the turn toward the bearing from the green zip line's start to its end |
| CaptureNavigation.Navigation.InterruptNav | CaptureTheFlag/src/ca/mcgill/ecse211/capturetheflag/Navigation.java:146-157 | the commands issued are the stops and the quarter turn to the chosen side, and the interrupted heading becomes the odometer's heading truncated to an int |
| CaptureNavigation.Navigation.SetInterruptedTheta | CaptureTheFlag/src/ca/mcgill/ecse211/capturetheflag/Navigation.java:185-187 | the interrupted heading becomes the argument |
| CaptureNavigation.ForwardIsStraight | CaptureTheFlag/src/ca/mcgill/ecse211/capturetheflag/Navigation.java:132-139 | forward turns both wheels by the same degrees, starts the left without waiting and leaves both at the fast acceleration |
| CaptureNavigation.InterruptTurnsOnTheSpot | CaptureTheFlag/src/ca/mcgill/ecse211/capturetheflag/Navigation.java:146-154 | both wheels are stopped first, then turned opposite ways by a quarter turn's degrees, the left one forward exactly when turning right |
| CaptureNavigation.InterruptedHeadingIsWhole | CaptureTheFlag/src/ca/mcgill/ecse211/capturetheflag/Navigation.java:156 | the stored heading is whole, so truncating it again changes nothing |
| LabNavigation.Navigation.constructor | Localisation/src/ca/mcgill/ecse211/odometerlab/Navigation.java:13-40 | both wheels are set to the fast acceleration, the interrupted heading starts at −1, and the odometer, radii and width are stored |
| LabNavigation.Navigation.TravelTo | Localisation/src/ca/mcgill/ecse211/odometerlab/Navigation.java:49-80 | the commands issued are the turn toward the bearing of the target, then both wheels at forward speed by the distance's degrees for their own radius, neither waited for |
| LabNavigation.Navigation.TurnTo | Localisation/src/ca/mcgill/ecse211/odometerlab/Navigation.java:82-106 | the commands issued are the rotation speed, slow acceleration, the shorter turn's wheel rotations for each wheel's radius and fast acceleration again |
| LabNavigation.Navigation.InterruptNav | Localisation/src/ca/mcgill/ecse211/odometerlab/Navigation.java:108-119 | the commands issued are the two stops and a quarter turn clockwise, and the interrupted heading becomes the odometer's heading truncated to an int |
| LabNavigation.Navigation.SetInterruptedTheta | Localisation/src/ca/mcgill/ecse211/odometerlab/Navigation.java:130-134 | the interrupted heading becomes the argument |
| LabNavigation.TravelNeverWaits | Localisation/src/ca/mcgill/ecse211/odometerlab/Navigation.java:71-77 | travelTo's straight drive starts both wheels without waiting, at the forward speed |
| LabNavigation.InterruptTurnsClockwise | Localisation/src/ca/mcgill/ecse211/odometerlab/Navigation.java:113-114 | interruptNav turns the left wheel forward and the right wheel back, each by its own quarter turn's degrees |
| ZiplineNavigation.Navigation.constructor | ZipLine/src/ca/mcgill/ecse211/zipline/Navigation.java:32-42 | both wheels are set to the fast acceleration, and the radii and width are stored |
| ZiplineNavigation.Navigation.TravelTo | ZipLine/src/ca/mcgill/ecse211/zipline/Navigation.java:51-82 | the commands issued are the turn toward the bearing of the target, then both wheels at forward speed by the distance's degrees, the right one waited for unless returnThread |
| ZiplineNavigation.Navigation.TurnTo | ZipLine/src/ca/mcgill/ecse211/zipline/Navigation.java:84-108 | the commands issued are the rotation speed, slow acceleration, the shorter turn's wheel rotations and fast acceleration again |
| ZiplineNavigation.Navigation.TurnToPoint | ZipLine/src/ca/mcgill/ecse211/zipline/Navigation.java:110-117 | the commands issued are the turn toward the bearing of the point |
| ZiplineNavigation.Navigation.Forward | ZipLine/src/ca/mcgill/ecse211/zipline/Navigation.java:119-124 | the commands issued are both wheels at the rotation speed, by the distance's degrees for their own radius |
| ZiplineNavigation.TurnToPointReachesBearing | ZipLine/src/ca/mcgill/ecse211/zipline/Navigation.java:84-117 | turning toward a point reaches its bearing modulo a full turn, turns at most half a circle, and ends at the fast acceleration |
| SquareDriving.Drive | NavigationLab/src/ca/mcgill/ecse211/odometerlab/SquareDriver.java:17-76 | the commands are the reset of each wheel, then four copies of one leg; the odometer's left tacho count ends where it began |
| SquareDriving.LegsNetRotation | NavigationLab/src/ca/mcgill/ecse211/odometerlab/SquareDriver.java:33-75 | each leg repeated n times turns a wheel by n times the leg's rotation |
| SquareDriving.LegsLength | NavigationLab/src/ca/mcgill/ecse211/odometerlab/SquareDriver.java:33-75 | n legs hold n times a leg's commands |
| SquareDriving.LegsKeepAcceleration | NavigationLab/src/ca/mcgill/ecse211/odometerlab/SquareDriver.java:33-75 | legs that set no acceleration leave the last acceleration as it was |
| SquareDriving.LegNetRotation | NavigationLab/src/ca/mcgill/ecse211/odometerlab/SquareDriver.java:35-69 | over one leg the one-degree nudges cancel: the left wheel drives the leg less a quarter turn, the right wheel the leg plus a quarter turn |
| SquareDriving.SquareLength | NavigationLab/src/ca/mcgill/ecse211/odometerlab/SquareDriver.java:17-76 | the square is 44 commands: four resets and four legs of ten |
| SquareDriving.SquareTotals | NavigationLab/src/ca/mcgill/ecse211/odometerlab/SquareDriver.java:20-75 | over the square each wheel ends at the reset acceleration and turns by four legs' rotation |
| SquareDriving.SquareNetRotation | NavigationLab/src/ca/mcgill/ecse211/odometerlab/SquareDriver.java:17-84 | in wheel degrees, the left wheel turns four legs less four quarter turns and the right wheel four legs plus four quarter turns, both ending at the reset acceleration |
| ColorPulse.PulseStep | CaptureTheFlag/src/ca/mcgill/ecse211/capturetheflag/ColorLocalisationData.java:41-60 | the first sample becomes the reference, which never changes after; a line is reported exactly when armed and the rise above the reference, an int subtraction that wraps, exceeds 4, and then nothing changes; a drop of more than 4 arms the detector for 10 samples; the counter stays in 0..10 |
| ColorPulse.SeedOnly | CaptureTheFlag/src/ca/mcgill/ecse211/capturetheflag/ColorLocalisationData.java:43-44 | the first sample only sets the reference |
| ColorPulse.NoLineWithoutDip | CaptureTheFlag/src/ca/mcgill/ecse211/capturetheflag/ColorLocalisationData.java:41-60 | without a drop of more than 4 below the reference, no run of samples reports a line or arms the detector |
| ColorPulse.CounterStaysInRange | CaptureTheFlag/src/ca/mcgill/ecse211/capturetheflag/ColorLocalisationData.java:49-57 | the arming counter stays in 0..10 over any run of samples |
| ColorPulse.ColorLocalisationData.constructor | CaptureTheFlag/src/ca/mcgill/ecse211/capturetheflag/ColorLocalisationData.java:19-32 | the reference is unset (−1), the counter is 10 and the detector is not armed |
| ColorPulse.ColorLocalisationData.ProcessData | CaptureTheFlag/src/ca/mcgill/ecse211/capturetheflag/ColorLocalisationData.java:41-60 | the new state and the wake-up of the localisation routine are exactly those of PulseStep |
| UltrasonicEdges.EdgeStep | CaptureTheFlag/src/ca/mcgill/ecse211/capturetheflag/UltrasonicLocalisationData.java:38-66 | the first sample becomes the reference; an edge is a crossing of 50 between the reference and the sample; before the first edge either polarity counts and is recorded, after it only that polarity; each edge flips the first-edge flag |
| UltrasonicEdges.ThresholdNeverFires | CaptureTheFlag/src/ca/mcgill/ecse211/capturetheflag/UltrasonicLocalisationData.java:43-59 | a sample or reference of exactly 50 never reports an edge |
| UltrasonicEdges.PolarityIsFixed | CaptureTheFlag/src/ca/mcgill/ecse211/capturetheflag/UltrasonicLocalisationData.java:42-53 | over any run, a found first edge has the polarity the reference allows: falling above 50, rising below |
| UltrasonicEdges.EdgesAlternate | CaptureTheFlag/src/ca/mcgill/ecse211/capturetheflag/UltrasonicLocalisationData.java:42-64 | after any run the first-edge flag has flipped exactly when an odd number of edges was reported, and the reference is unchanged |
| UltrasonicEdges.FlatReferenceIsSilent | CaptureTheFlag/src/ca/mcgill/ecse211/capturetheflag/UltrasonicLocalisationData.java:43-59 | a reference of exactly 50 never reports an edge, whatever follows |
| UltrasonicEdges.UltrasonicLocalisationData.constructor | CaptureTheFlag/src/ca/mcgill/ecse211/capturetheflag/UltrasonicLocalisationData.java:19-30 | the reference is unset and no edge has been found |
| UltrasonicEdges.UltrasonicLocalisationData.ProcessData | CaptureTheFlag/src/ca/mcgill/ecse211/capturetheflag/UltrasonicLocalisationData.java:38-66 | the new state and the wake-up are exactly those of EdgeStep |
| ZiplineLanding.LightStep | CaptureTheFlag/src/ca/mcgill/ecse211/capturetheflag/ZiplineLightData.java:39-54 | the first sample becomes the reference; afterwards the reference stays and a landing is reported exactly on a rise of more than 4 above it, the difference wrapping as a Java int |
| ZiplineLanding.LandingIsARise | CaptureTheFlag/src/ca/mcgill/ecse211/capturetheflag/ZiplineLightData.java:39-54 | over a run with the reference set, the samples that report a landing are exactly those more than 4 above the reference, the difference taken in wrapping int arithmetic |
| ZiplineLanding.ZiplineLightData.constructor | CaptureTheFlag/src/ca/mcgill/ecse211/capturetheflag/ZiplineLightData.java:22-32 | the reference is unset (−1) and the unused counter is 10 |
| ZiplineLanding.ZiplineLightData.ProcessData | CaptureTheFlag/src/ca/mcgill/ecse211/capturetheflag/ZiplineLightData.java:39-54 | the new reference and the wake-up of the zip-line controller are exactly those of LightStep |
| LineFilters.Sample | Navigation/src/ca/mcgill/ecse211/odometerlab/OdometryCorrection.java:72 | a light reading in [0, 1], scaled by 100 and cast to int, lies in [0, 100] |
| LineFilters.Shifted | Navigation/src/ca/mcgill/ecse211/odometerlab/OdometryCorrection.java:192-198 | a full window loses its oldest entry, keeps the order of the rest, and ends with the new value |
| LineFilters.Initial | Navigation/src/ca/mcgill/ecse211/odometerlab/OdometryCorrection.java:45-62 | the fresh filter is well formed: five samples and the difference window all -1, both counters 0 |
| LineFilters.FilterStep | Navigation/src/ca/mcgill/ecse211/odometerlab/OdometryCorrection.java:167-208 | while the sample window fills, the sample goes into the next slot, the average is the sample, and no difference is made; afterwards the average moves by a fifth of the change over the oldest sample, truncated toward zero (NextAverage), and that move times 11 (ScaledDifference) fills or shifts into the difference window |
| LineFilters.RunningAverage | Navigation/src/ca/mcgill/ecse211/odometerlab/OdometryCorrection.java:203 | the new average is an int; when the change over the oldest sample and the new average fit in an int, it is the last average plus the change divided by the window length, truncated toward zero |
| LineFilters.NextAverage | Navigation/src/ca/mcgill/ecse211/odometerlab/OdometryCorrection.java:203 | the running average over a window of five, with the same guarantee |
| LineFilters.ScaledDifference | Navigation/src/ca/mcgill/ecse211/odometerlab/OdometryCorrection.java:206 | the recorded difference is an int, and it is the change of the average times 11 whenever that product fits in an int |
| LineFilters.FillPhase | Navigation/src/ca/mcgill/ecse211/odometerlab/OdometryCorrection.java:167-174 | after the first one to five samples, the window holds them in order, the average is the latest, and the difference window is untouched |
| LineFilters.DifferenceCount | Navigation/src/ca/mcgill/ecse211/odometerlab/OdometryCorrection.java:167-200 | after n samples the difference counter is min(max(n - 5, 0), window length): the full-window gate opens only after five plus the window length samples (with line 78 of the same file) |
| LineFilters.MinWithZero | Navigation/src/ca/mcgill/ecse211/odometerlab/OdometryCorrection.java:210-225 | the running minimum of isOnLine is at most 0 and at most every entry |
| LineFilters.MaxWithZero | Navigation/src/ca/mcgill/ecse211/odometerlab/OdometryCorrection.java:210-225 | the running maximum of isOnLine is at least 0 and at least every entry |
| LineFilters.OnLineMeansDipAndRise | Navigation/src/ca/mcgill/ecse211/odometerlab/OdometryCorrection.java:210-225 | isOnLine holds exactly when some difference is below -40 and some difference is above 40 |
| LineFilters.Quietened | Localisation/src/ca/mcgill/ecse211/localisation/ColorPoller.java:165-171 | the debounce keeps the length, leaves every difference inside [-40, 40] alone, and zeroes the rest |
| LineFilters.QuietenedIsNotOnLine | Localisation/src/ca/mcgill/ecse211/localisation/ColorPoller.java:151-173 | after the debounce, isOnLine is false on the same window |
| LineFilters.ShiftIn | Navigation/src/ca/mcgill/ecse211/odometerlab/OdometryCorrection.java:192-198 | the in-place shift loop leaves the array equal to Shifted of its old contents |
| LineFilters.LineFilter.constructor | Navigation/src/ca/mcgill/ecse211/odometerlab/OdometryCorrection.java:45-62 | both arrays are new and every entry is -1; the state is Initial |
| LineFilters.LineFilter.NewDifferenceValue | Navigation/src/ca/mcgill/ecse211/odometerlab/OdometryCorrection.java:186-200 | the window fills slot by slot, then shifts; the counter rises until the window is full |
| LineFilters.LineFilter.NewAverageValue | Navigation/src/ca/mcgill/ecse211/odometerlab/OdometryCorrection.java:202-208 | the new average is the last plus a fifth of the change over the oldest sample, and its change times 11 is recorded, both in wrapping int arithmetic (NextAverage, ScaledDifference) |
| LineFilters.LineFilter.NewSensorValue | Navigation/src/ca/mcgill/ecse211/odometerlab/OdometryCorrection.java:167-184 | the new state is FilterStep of the old state |
| LineFilters.LineFilter.IsOnLine | Navigation/src/ca/mcgill/ecse211/odometerlab/OdometryCorrection.java:210-225 | the min/max loop returns OnLine of the difference window |
| LineFilters.LineFilter.IsOnLineQuietening | Localisation/src/ca/mcgill/ecse211/localisation/ColorPoller.java:151-173 | returns OnLine of the old window, and the window becomes Quietened exactly when a line was seen |
| LineCorrection.Apply | Navigation/src/ca/mcgill/ecse211/odometerlab/OdometryCorrection.java:92-128 | a write to one axis leaves the other coordinate unchanged |
| LineCorrection.Closest | Navigation/src/ca/mcgill/ecse211/odometerlab/OdometryCorrection.java:156-160 | closestMultipleOfSquareSide returns a multiple of 30, and a non-negative one for an input of at least -tolerance |
| LineCorrection.Attempt | Navigation/src/ca/mcgill/ecse211/odometerlab/OdometryCorrection.java:88-96 | a correction is written exactly when its code differs from the last one, and then the code is recorded |
| LineCorrection.Branch | Navigation/src/ca/mcgill/ecse211/odometerlab/OdometryCorrection.java:86-133 | the branches are tried in the order +Y, -Y, +X, -X; each needs its heading within a degree and its value in the band; no heading near an axis means no branch |
| LineCorrection.Correct | Navigation/src/ca/mcgill/ecse211/odometerlab/OdometryCorrection.java:86-137 | the code changes exactly when a write happens; y is written only facing 0 or 180 degrees, and x only facing 90 or 270 degrees |
| LineCorrection.ClosestInBand | Navigation/src/ca/mcgill/ecse211/odometerlab/OdometryCorrection.java:156-160 | for v + tolerance in [30k, 30k + 30), closestMultipleOfSquareSide is 30k |
| LineCorrection.NearLineIsWithinTolerance | Navigation/src/ca/mcgill/ecse211/odometerlab/OdometryCorrection.java:156-160 | a value at least -tolerance that passes the band test is within the tolerance of the line that closestMultipleOfSquareSide picks (with line 86 of the same file) |
| LineCorrection.CorrectionIsSmall | Navigation/src/ca/mcgill/ecse211/odometerlab/OdometryCorrection.java:86-133 | a write moves the coordinate it writes by at most the tolerance |
| LineCorrection.LineIsItsOwnClosest | Navigation/src/ca/mcgill/ecse211/odometerlab/OdometryCorrection.java:156-160 | a grid line passes the band test and is its own closest multiple |
| LineCorrection.CorrectWritesOnLine | Navigation/src/ca/mcgill/ecse211/odometerlab/OdometryCorrection.java:92-128 | every written value is a grid line plus or minus the sensor offset |
| LineCorrection.CorrectedPositionIsStable | Navigation/src/ca/mcgill/ecse211/odometerlab/OdometryCorrection.java:82-133 | once a write is made, the same detection at the corrected position, with the recorded code, writes nothing |
| LineCorrection.RepeatIsIgnored | Navigation/src/ca/mcgill/ecse211/odometerlab/OdometryCorrection.java:89-125 | a detection exactly on the recorded line, with its code recorded, writes nothing |
| LineCorrection.BranchAtLineY | Navigation/src/ca/mcgill/ecse211/odometerlab/OdometryCorrection.java:86-109 | at a corrected y, the same Y branch matches again, exactly on the line |
| LineCorrection.BranchAtLineX | Navigation/src/ca/mcgill/ecse211/odometerlab/OdometryCorrection.java:110-133 | at a corrected x, the same X branch matches again, exactly on the line |
| NavigationCorrection.OdometryCorrection.constructor | Navigation/src/ca/mcgill/ecse211/odometerlab/OdometryCorrection.java:45-62 | the filter starts Initial with a ten-entry difference window, and the last correction is -1 |
| NavigationCorrection.OdometryCorrection.Step | Navigation/src/ca/mcgill/ecse211/odometerlab/OdometryCorrection.java:65-138 | the reading passes through the filter, and a correction is made exactly when the difference window is full and shows a line |
| NavigationCorrection.CorrectionSnapsOnce | Navigation/src/ca/mcgill/ecse211/odometerlab/OdometryCorrection.java:86-133 | with offset 6, tolerance 4 and both coordinates at least 2 cm, a correction moves each coordinate by at most 4 cm, and is not repeated for the same line |
| OdometryLabCorrection.CorrectAsWritten | Odometry/src/ca/mcgill/ecse211/odometerlab/OdometryCorrection.java:80-124 | as written, every branch takes its line from y and writes y, and only the +Y branch records its code |
| OdometryLabCorrection.AsWrittenWritesYDrivingAlongX | Odometry/src/ca/mcgill/ecse211/odometerlab/OdometryCorrection.java:101-110 | at heading 90 and (35, 100), y is rewritten to 95; the intended step writes x = 35 |
| OdometryLabCorrection.AsWrittenJumpsDrivingAlongMinusY | Odometry/src/ca/mcgill/ecse211/odometerlab/OdometryCorrection.java:91-100 | at heading 180 and (0, 50), y jumps to 25; the intended step puts it at 55 |
| OdometryLabCorrection.IntendedCorrectionSnapsOnce | Odometry/src/ca/mcgill/ecse211/odometerlab/OdometryCorrection.java:72-124 | the intended step with offset 5 and tolerance 8 moves the odometer by at most 8 cm, writes x only facing 90 or 270 degrees, and is not repeated for the same line |
| OdometryLabCorrection.OdometryCorrection.constructor | Odometry/src/ca/mcgill/ecse211/odometerlab/OdometryCorrection.java:39-56 | the filter starts Initial with a seven-entry difference window, and the last correction is -1 |
| OdometryLabCorrection.OdometryCorrection.Step | Odometry/src/ca/mcgill/ecse211/odometerlab/OdometryCorrection.java:59-125 | the reading passes through the filter; a full difference window showing a line leads to the corrected update, not the Y-only branches as written (see Findings) |
| LocalisationColorPolling.ColorPoller.constructor | Localisation/src/ca/mcgill/ecse211/localisation/ColorPoller.java:44-61 | the filter starts Initial with a ten-entry difference window, and polling is off |
| LocalisationColorPolling.ColorPoller.StartPolling | Localisation/src/ca/mcgill/ecse211/localisation/ColorPoller.java:66-68 | polling is on |
| LocalisationColorPolling.ColorPoller.StopPolling | Localisation/src/ca/mcgill/ecse211/localisation/ColorPoller.java:175-179 | polling is off |
| LocalisationColorPolling.ColorPoller.GetPolling | Localisation/src/ca/mcgill/ecse211/localisation/ColorPoller.java:180-184 | returns the polling flag |
| LocalisationColorPolling.ColorPoller.Step | Localisation/src/ca/mcgill/ecse211/localisation/ColorPoller.java:72-82 | the reading passes through the filter; the waiting routine is released exactly when the new window shows a line, and then the window is quietened |
| LocalisationColorPolling.NoLineTwiceInARow | Localisation/src/ca/mcgill/ecse211/localisation/ColorPoller.java:165-171 | after a quietened window, the next sample cannot show a line again (with lines 79-82 of the same file) |
| LocalisationUltrasonicPolling.Initial | Localisation/src/ca/mcgill/ecse211/localisation/UltrasonicPoller.java:29-49 | the fresh poller is well formed: the window all -1, both averages -1, and the mode falling |
| LocalisationUltrasonicPolling.AverageStep | Localisation/src/ca/mcgill/ecse211/localisation/UltrasonicPoller.java:90-116 | while the window fills, the current average is the distance and the last average stays; afterwards the last average takes the current one, and the current one moves by a fifth of the change over the oldest sample, truncated, in wrapping int arithmetic (NextAverage) |
| LocalisationUltrasonicPolling.Poll | Localisation/src/ca/mcgill/ecse211/localisation/UltrasonicPoller.java:56-79 | a distance of 0 or less changes nothing and reports nothing; an edge needs a positive last average, above 40 and then below it in falling mode, or below 40 and then above it in rising mode; the averages are those of AverageStep, wrapped as Java ints |
| LocalisationUltrasonicPolling.Positive | Localisation/src/ca/mcgill/ecse211/localisation/UltrasonicPoller.java:60 | the distances the poller acts on are all positive, and no more than were read |
| LocalisationUltrasonicPolling.NonPositiveReadingsAreIgnored | Localisation/src/ca/mcgill/ecse211/localisation/UltrasonicPoller.java:60-63 | a run of readings leaves the same state and edge count as its positive readings alone |
| LocalisationUltrasonicPolling.NoEdgeWhileFilling | Localisation/src/ca/mcgill/ecse211/localisation/UltrasonicPoller.java:73-96 | from the start, up to five positive distances report no edge and leave the last average at -1 (with line 33 of the same file) |
| LocalisationUltrasonicPolling.SaturatedReadingFakesEdge | Localisation/src/ca/mcgill/ecse211/localisation/UltrasonicPoller.java:109-116 | counterexample exhibit, not a property: four readings of 50 and one saturated at Integer.MAX_VALUE fill the window; one more saturated reading makes the last average Integer.MAX_VALUE and wraps the current one below zero, so a falling edge is reported although the distance only rose (with line 75 of the same file) |
| LocalisationUltrasonicPolling.UltrasonicPoller.constructor | Localisation/src/ca/mcgill/ecse211/localisation/UltrasonicPoller.java:23-49 | the state is Initial and polling is on |
| LocalisationUltrasonicPolling.UltrasonicPoller.NewAverageValue | Localisation/src/ca/mcgill/ecse211/localisation/UltrasonicPoller.java:109-116 | the last average takes the current one, and the current one moves by a fifth of the change over the oldest sample, in wrapping int arithmetic (NextAverage) |
| LocalisationUltrasonicPolling.UltrasonicPoller.NewSensorValue | Localisation/src/ca/mcgill/ecse211/localisation/UltrasonicPoller.java:90-107 | the new state is AverageStep of the old state |
| LocalisationUltrasonicPolling.UltrasonicPoller.CheckThreshold | Localisation/src/ca/mcgill/ecse211/localisation/UltrasonicPoller.java:73-79 | an edge is reported exactly when the average crossed 40 cm in the direction of the mode, from a positive last average |
| LocalisationUltrasonicPolling.UltrasonicPoller.Step | Localisation/src/ca/mcgill/ecse211/localisation/UltrasonicPoller.java:57-63 | one pass is Poll of the reading in cm |
| LocalisationUltrasonicPolling.UltrasonicPoller.SetFallingEdgeMode | Localisation/src/ca/mcgill/ecse211/localisation/UltrasonicPoller.java:119-121 | the mode is the one given |
| LocalisationUltrasonicPolling.UltrasonicPoller.StopPolling | Localisation/src/ca/mcgill/ecse211/localisation/UltrasonicPoller.java:127-131 | polling is off |
| ZiplineColorPolling.Initial | ZipLine/src/ca/mcgill/ecse211/zipline/ZiplineColorPoller.java:24-47 | the fresh poller is well formed: ten samples of -1 and both averages -1 |
| ZiplineColorPolling.SignalIsSymmetric | ZipLine/src/ca/mcgill/ecse211/zipline/ZiplineColorPoller.java:131-135 | sendSignal holds exactly when one average is below 2 and the other is not, in either order |
| ZiplineColorPolling.AverageStepAsWritten | ZipLine/src/ca/mcgill/ecse211/zipline/ZiplineColorPoller.java:103-129 | as written, the fill stores the sample in the last average; afterwards the new average is built on the last average, which then takes the old current one, both in wrapping int arithmetic (RunningAverage) |
| ZiplineColorPolling.AsWrittenFillSignalsOnLight | ZipLine/src/ca/mcgill/ecse211/zipline/ZiplineColorPoller.java:105-135 | as written, a filling pass signals exactly on a sample of at least 2 and leaves the current average at -1 |
| ZiplineColorPolling.AsWrittenSteadyLightSignalsForever | ZipLine/src/ca/mcgill/ecse211/zipline/ZiplineColorPoller.java:123-129 | as written, under a steady light of 50 with a full window, the averages swap between 50 and -1, a signal fires on every sample, and the state repeats after two samples |
| ZiplineColorPolling.AverageStep | ZipLine/src/ca/mcgill/ecse211/zipline/ZiplineColorPoller.java:103-129 | as meant, the fill sets the current average to the sample; afterwards the last average takes the current one, and the current one moves by a tenth of the change over the oldest sample, truncated, in wrapping int arithmetic (RunningAverage) |
| ZiplineColorPolling.Poll | ZipLine/src/ca/mcgill/ecse211/zipline/ZiplineColorPoller.java:63-77 | as meant, on the corrected average update: with a full window, a signal fires exactly when the average crosses the light level 2 in either direction |
| ZiplineColorPolling.FillSignalsOnLight | ZipLine/src/ca/mcgill/ecse211/zipline/ZiplineColorPoller.java:105-135 | a filling pass from the start signals exactly on a sample of at least 2, as the source does |
| ZiplineColorPolling.SteadyLightIsSilent | ZipLine/src/ca/mcgill/ecse211/zipline/ZiplineColorPoller.java:123-135 | a window full of one int level stays so under more of that level, and sends no signal |
| ZiplineColorPolling.ZiplineColorPoller.constructor | ZipLine/src/ca/mcgill/ecse211/zipline/ZiplineColorPoller.java:38-47 | the state is Initial and polling is off |
| ZiplineColorPolling.ZiplineColorPoller.NewAverageValue | ZipLine/src/ca/mcgill/ecse211/zipline/ZiplineColorPoller.java:123-129 | runs the corrected update, not the one as written (see Findings): the last average takes the current one, and the current one moves by a tenth of the change over the oldest sample, in wrapping int arithmetic (RunningAverage) |
| ZiplineColorPolling.ZiplineColorPoller.NewSensorValue | ZipLine/src/ca/mcgill/ecse211/zipline/ZiplineColorPoller.java:103-120 | runs the corrected update: the new state is AverageStep of the old state, not AverageStepAsWritten |
| ZiplineColorPolling.ZiplineColorPoller.SendSignal | ZipLine/src/ca/mcgill/ecse211/zipline/ZiplineColorPoller.java:131-135 | returns the level-crossing test on the two averages |
| ZiplineColorPolling.ZiplineColorPoller.Step | ZipLine/src/ca/mcgill/ecse211/zipline/ZiplineColorPoller.java:63-71 | runs the corrected update: one pass is Poll of the reading scaled by 100 |
| ZiplineColorPolling.ZiplineColorPoller.StartPolling | ZipLine/src/ca/mcgill/ecse211/zipline/ZiplineColorPoller.java:57-59 | polling is on |
| ZiplineColorPolling.ZiplineColorPoller.StopPolling | ZipLine/src/ca/mcgill/ecse211/zipline/ZiplineColorPoller.java:139-143 | polling is off |
| ZiplineUltrasonicPolling.Initial | ZipLine/src/ca/mcgill/ecse211/zipline/ZiplineUSPoller.java:23-42 | the fresh poller is well formed: five samples of -1 and the average -1 |
| ZiplineUltrasonicPolling.WrappedSum | ZipLine/src/ca/mcgill/ecse211/zipline/ZiplineUSPoller.java:89-98 | the sum accumulated by `+=` is an int: every addition wraps to 32 bits |
| ZiplineUltrasonicPolling.SumBounds | ZipLine/src/ca/mcgill/ecse211/zipline/ZiplineUSPoller.java:89-98 | entries between lo and hi sum to between n lo and n hi |
| ZiplineUltrasonicPolling.MeanBounds | ZipLine/src/ca/mcgill/ecse211/zipline/ZiplineUSPoller.java:99 | for a full window of non-negative entries whose exact sum fits in an int, the truncated mean of the wrapping sum lies between the smallest and the largest entry |
| ZiplineUltrasonicPolling.NonNegativeSumWraps | ZipLine/src/ca/mcgill/ecse211/zipline/ZiplineUSPoller.java:89-98 | when the entries are not negative and their exact sum fits in an int, no addition along the way wraps and the wrapping sum is the exact one |
| ZiplineUltrasonicPolling.AverageStep | ZipLine/src/ca/mcgill/ecse211/zipline/ZiplineUSPoller.java:81-101 | while the window fills, the average is the latest distance; afterwards it is the truncated mean of the shifted window, summed in wrapping int arithmetic (WrappedSum) |
| ZiplineUltrasonicPolling.Poll | ZipLine/src/ca/mcgill/ecse211/zipline/ZiplineUSPoller.java:56-79 | a distance of 0 or less changes nothing and releases nothing; any other releases the controller exactly when the new average is below 17 |
| ZiplineUltrasonicPolling.ReleaseFollowsWindow | ZipLine/src/ca/mcgill/ecse211/zipline/ZiplineUSPoller.java:58-99 | with the window full, five distances in [0, 17) release the controller, and five of at least 17 whose sum fits in an int never do |
| ZiplineUltrasonicPolling.SaturatedReadingReleases | ZipLine/src/ca/mcgill/ecse211/zipline/ZiplineUSPoller.java:89-99 | counterexample exhibit, not a property: a distance of 20 shifted into the window [20, Integer.MAX_VALUE, 20, 20, 20] leaves [Integer.MAX_VALUE, 20, 20, 20, 20], whose sum wraps below zero, so the controller is released although every distance is at least 17 |
| ZiplineUltrasonicPolling.ZiplineUSPoller.constructor | ZipLine/src/ca/mcgill/ecse211/zipline/ZiplineUSPoller.java:17-42 | the state is Initial and polling is on |
| ZiplineUltrasonicPolling.ZiplineUSPoller.NewSensorValue | ZipLine/src/ca/mcgill/ecse211/zipline/ZiplineUSPoller.java:81-101 | the summing shift loop, adding as Java ints do, leaves the state equal to AverageStep of the old state |
| ZiplineUltrasonicPolling.ZiplineUSPoller.ShiftIn | ZipLine/src/ca/mcgill/ecse211/zipline/ZiplineUSPoller.java:89-98 | the loop leaves the array holding the old window shifted left with the new distance last, and returns the wrapping sum of that window |
| ZiplineUltrasonicPolling.ZiplineUSPoller.CheckThreshold | ZipLine/src/ca/mcgill/ecse211/zipline/ZiplineUSPoller.java:77-79 | returns whether the average is below 17 |
| ZiplineUltrasonicPolling.ZiplineUSPoller.Step | ZipLine/src/ca/mcgill/ecse211/zipline/ZiplineUSPoller.java:55-64 | one pass is Poll of the reading in cm |
| ZiplineUltrasonicPolling.ZiplineUSPoller.StopPolling | ZipLine/src/ca/mcgill/ecse211/zipline/ZiplineUSPoller.java:105-109 | polling is off |
| LocalisationGeometry.Sweep | Localisation/src/ca/mcgill/ecse211/localisation/Localisation.java:116-119 | the edge difference is the difference of the headings, plus 360 when negative, and is itself a heading |
| LocalisationGeometry.SweepIsTheTurn | Localisation/src/ca/mcgill/ecse211/localisation/Localisation.java:116-119 | the sweep is the only turn in [0, 360) that carries the first heading onto the second |
| LocalisationGeometry.SweepsAddUp | Localisation/src/ca/mcgill/ecse211/localisation/Localisation.java:116-119 | the sweeps there and back add up to 360, or are both 0 for equal headings |
| LocalisationGeometry.SweepIgnoresCommonTurn | Localisation/src/ca/mcgill/ecse211/localisation/Localisation.java:116-119 | turning both headings by the same amount leaves the sweep unchanged |
| LocalisationGeometry.Bisector | Localisation/src/ca/mcgill/ecse211/localisation/Localisation.java:115-129 | the orientation, base plus half the sweep, lies in [base, base + 180) |
| LocalisationGeometry.BisectorIgnoresCommonTurn | Localisation/src/ca/mcgill/ecse211/localisation/Localisation.java:115-129 | the derived orientation does not depend on the heading the odometer started from |
| LocalisationGeometry.HalvedDifference | Localisation/src/ca/mcgill/ecse211/localisation/Localisation.java:99-113 | the line angle is half the difference, plus 360 when negative, is a heading and is never 180 |
| LocalisationGeometry.HalvedDifferenceAgainstSweep | Localisation/src/ca/mcgill/ecse211/localisation/Localisation.java:100-103 | the line angle is half the sweep when the first heading is not below the second, and that half plus 180 otherwise |
| LocalisationGeometry.LineOffset | Localisation/src/ca/mcgill/ecse211/localisation/Localisation.java:104-112 | -15 cos of the line angle lies within 15 cm of the intersection |
| LabLocalisation.EdgeBase | Localisation/src/ca/mcgill/ecse211/localisation/Localisation.java:122-127 | the base is 225 for rising edges and 45 for falling edges, both headings |
| LabLocalisation.Orientation | Localisation/src/ca/mcgill/ecse211/localisation/Localisation.java:115-129 | the orientation lies in [base, base + 180) |
| LabLocalisation.RisingIsFallingTurnedHalfCircle | Localisation/src/ca/mcgill/ecse211/localisation/Localisation.java:122-127 | the rising-edge orientation is the falling-edge one plus 180 |
| LabLocalisation.Localisation.constructor | Localisation/src/ca/mcgill/ecse211/localisation/Localisation.java:18-33 | the mode is the one given; edges and lines are all -1, the edge difference is -1, nobody waits, and no motor command has been issued |
| LabLocalisation.Localisation.ComputeAngle | Localisation/src/ca/mcgill/ecse211/localisation/Localisation.java:115-129 | stores the sweep between the two edges and returns the orientation |
| LabLocalisation.Localisation.ComputeX | Localisation/src/ca/mcgill/ecse211/localisation/Localisation.java:99-105 | returns the offset from the line angle of slots 0 and 1 |
| LabLocalisation.Localisation.ComputeY | Localisation/src/ca/mcgill/ecse211/localisation/Localisation.java:107-113 | returns the offset from the line angle of slots 2 and 3 |
| LabLocalisation.Localisation.AlignAngle | Localisation/src/ca/mcgill/ecse211/localisation/Localisation.java:35-62 | the two edge headings are stored in order, the heading set is the orientation in radians, and the wheels are sent the edge sweep: spin counter-clockwise at 150, reverse, stop |
| LabLocalisation.Localisation.FixXY | Localisation/src/ca/mcgill/ecse211/localisation/Localisation.java:64-97 | the wheels are sent the line sweep (spin counter-clockwise at 150, then stop); the four line headings go to slots 0, 2, 1 and 3; X comes from the first and third, Y from the second and fourth, both within 15 cm |
| LabLocalisation.Localisation.GetWaiting | Localisation/src/ca/mcgill/ecse211/localisation/Localisation.java:133-137 | returns the waiting flag |
| LabLocalisation.Localisation.SetWaiting | Localisation/src/ca/mcgill/ecse211/localisation/Localisation.java:139-143 | the waiting flag is the one given |
| CaptureLocalisation.Orientation | CaptureTheFlag/src/ca/mcgill/ecse211/capturetheflag/Localisation.java:102-116 | the rising-edge orientation lies in [225, 405) |
| CaptureLocalisation.ThetaColor | CaptureTheFlag/src/ca/mcgill/ecse211/capturetheflag/Localisation.java:118-120 | 275 plus the whole difference of the two lines, in radians, lies between -85 and 635 degrees: it need not be a heading |
| CaptureLocalisation.Localisation.constructor | CaptureTheFlag/src/ca/mcgill/ecse211/capturetheflag/Localisation.java:19-31 | the routine is rising-edge; edges and lines are all -1, the edge difference is -1, it is not paused, and no motor command has been issued |
| CaptureLocalisation.Localisation.ComputeAngle | CaptureTheFlag/src/ca/mcgill/ecse211/capturetheflag/Localisation.java:102-116 | stores the sweep between the two edges and returns the orientation |
| CaptureLocalisation.Localisation.ComputeX | CaptureTheFlag/src/ca/mcgill/ecse211/capturetheflag/Localisation.java:86-92 | returns the offset from the line angle of slots 0 and 1 |
| CaptureLocalisation.Localisation.ComputeY | CaptureTheFlag/src/ca/mcgill/ecse211/capturetheflag/Localisation.java:94-100 | returns the offset from the line angle of slots 2 and 3 |
| CaptureLocalisation.Localisation.UsLocalisation | CaptureTheFlag/src/ca/mcgill/ecse211/capturetheflag/Localisation.java:34-57 | the two edge headings are stored in order, the odometer heading becomes the orientation, normalised, and the wheels are sent the edge sweep: spin counter-clockwise at 150, reverse, stop |
| CaptureLocalisation.Localisation.ColorLocalisation | CaptureTheFlag/src/ca/mcgill/ecse211/capturetheflag/Localisation.java:60-84 | the wheels are sent the line sweep (spin counter-clockwise at 150, then stop); the line headings go to slots 0, 2, 1 and 3; X, Y and the normalised colour heading are written to the odometer |
| CaptureLocalisation.Localisation.PauseThread | CaptureTheFlag/src/ca/mcgill/ecse211/capturetheflag/Localisation.java:124-125 | the paused flag is raised |
| CaptureLocalisation.Localisation.ResumeThread | CaptureTheFlag/src/ca/mcgill/ecse211/capturetheflag/Localisation.java:137-144 | the flag is cleared, and the thread is woken exactly when the flag was raised |
| ZiplineLocalisation.ClosestReference | ZipLine/src/ca/mcgill/ecse211/zipline/Localisation.java:134-143 | the result is a diagonal; for a heading in [0, 360) it is the diagonal of the same quadrant, within 45 degrees |
| ZiplineLocalisation.ClosestMultipleRounds | ZipLine/src/ca/mcgill/ecse211/zipline/Localisation.java:146-153 | for a non-negative value the result is a multiple of the tile within half a tile of the value, an exact half rounding up |
| ZiplineLocalisation.ClosestMultiple | ZipLine/src/ca/mcgill/ecse211/zipline/Localisation.java:146-153 | the result is a whole multiple of the tile, whichever multiple the remainder picks |
| ZiplineLocalisation.NearestMultipleIsUnique | ZipLine/src/ca/mcgill/ecse211/zipline/Localisation.java:146-153 | only one multiple of the tile lies in that half-open band, so the result is the nearest one |
| ZiplineLocalisation.NegativeRoundsTowardZero | ZipLine/src/ca/mcgill/ecse211/zipline/Localisation.java:146-153 | for a negative value the result lies between the value and 0, so it is not always the nearest multiple |
| ZiplineLocalisation.FirstSlot | ZipLine/src/ca/mcgill/ecse211/zipline/Localisation.java:80-95 | the first line's slot is in [0, 4) |
| ZiplineLocalisation.FirstSlotTable | ZipLine/src/ca/mcgill/ecse211/zipline/Localisation.java:80-95 | diagonals 45, 135, 225 and 315 send the first line heading to slots 0, 3, 1 and 2 |
| ZiplineLocalisation.EachSlotOnce | ZipLine/src/ca/mcgill/ecse211/zipline/Localisation.java:95-123 | the four line headings fill the four slots, one each |
| ZiplineLocalisation.EdgeBase | ZipLine/src/ca/mcgill/ecse211/zipline/Localisation.java:195-225 | the base is a heading for each corner and mode, and 0 for any other corner label |
| ZiplineLocalisation.Orientation | ZipLine/src/ca/mcgill/ecse211/zipline/Localisation.java:188-233 | the orientation lies in [base, base + 180) |
| ZiplineLocalisation.FallingIsOppositeRising | ZipLine/src/ca/mcgill/ecse211/zipline/Localisation.java:196-225 | at every named corner the falling-edge base is the rising-edge base turned by 180, so the two orientations differ by 180 |
| ZiplineLocalisation.LineSplit | ZipLine/src/ca/mcgill/ecse211/zipline/Localisation.java:157-166 | the sign is +1 exactly when the sweep between the lines passes 180; the half-angle lies in [0, 90] |
| ZiplineLocalisation.LineSplitHalvesSmallerSweep | ZipLine/src/ca/mcgill/ecse211/zipline/Localisation.java:157-166 | twice the half-angle is the smaller of the two sweeps between the lines |
| ZiplineLocalisation.Coordinate | ZipLine/src/ca/mcgill/ecse211/zipline/Localisation.java:156-186 | the correction moves the target up for sign +1 and down for sign -1, by at most 15 cm |
| ZiplineLocalisation.Localisation.constructor | ZipLine/src/ca/mcgill/ecse211/zipline/Localisation.java:25-41 | the mode and navigation are the ones given; edges and lines are all -1, the edge difference is -1, nobody waits, and no motor command has been issued |
| ZiplineLocalisation.Localisation.ComputeAngle | ZipLine/src/ca/mcgill/ecse211/zipline/Localisation.java:188-233 | stores the sweep between the two edges and returns the corner's orientation |
| ZiplineLocalisation.Localisation.AlignAngle | ZipLine/src/ca/mcgill/ecse211/zipline/Localisation.java:43-66 | the two edge headings are stored in order, the heading set is the orientation in radians, and the wheels are sent the edge sweep: spin counter-clockwise at 150, reverse, stop |
| ZiplineLocalisation.Localisation.FixXY | ZipLine/src/ca/mcgill/ecse211/zipline/Localisation.java:68-131 | the navigation logs the turn to the nearest diagonal, then the wheels are sent the line sweep (spin counter-clockwise at 150, then stop); line k goes to slot SlotOf(k), and X is corrected from slots 0 and 2 and Y from slots 1 and 3, around the snapped position |
| ZiplineLocalisation.Localisation.GetWaiting | ZipLine/src/ca/mcgill/ecse211/zipline/Localisation.java:244-248 | returns the waiting flag |
| ZiplineLocalisation.Localisation.SetWaiting | ZipLine/src/ca/mcgill/ecse211/zipline/Localisation.java:250-254 | the waiting flag is the one given |
| LocalisationSweeps.EdgeSweepReverses | Localisation/src/ca/mcgill/ecse211/localisation/Localisation.java:37-55 | in the edge sweep the left wheel runs backward then forward and the right wheel forward then backward, so the second edge is met turning the other way; after the sweep both wheels are stopped, the left one without waiting |
| LocalisationSweeps.LineSweepKeepsDirection | Localisation/src/ca/mcgill/ecse211/localisation/Localisation.java:66-87 | in the line sweep each wheel is set going once, the left backward and the right forward, so all four lines are met turning one way; afterwards both wheels are stopped |
| Motors.DirectionsAppend | Localisation/src/ca/mcgill/ecse211/localisation/Localisation.java:39-47 | the directions a wheel is sent over two logs in a row are those of the first log followed by those of the second |
| Motors.LastMotionAppend | Localisation/src/ca/mcgill/ecse211/localisation/Localisation.java:39-55 | a wheel's last motion after two logs in a row is the one in the second log, or the one in the first when the second has none for it |
| WallFollowing.Direction | Midstorms-Ev3/Wall_Following/src/ca/mcgill/ecse211/wallfollowing/PController.java:71-76 | the command is Forward or Backward on the given motor, as the flag says |
| WallFollowing.DriveCommands | Midstorms-Ev3/Wall_Following/src/ca/mcgill/ecse211/wallfollowing/PController.java:71-100 | a drive is issued as four commands: the left speed, the right speed, then the right wheel's direction, then the left's |
| WallFollowing.MirroredTwice | CaptureTheFlag/src/ca/mcgill/ecse211/capturetheflag/UltrasonicNavigationData.java:159-168 | exchanging the wheels twice gives the drive back |
| WallFollowing.InBandIsNear | Midstorms-Ev3/Wall_Following/src/ca/mcgill/ecse211/wallfollowing/PController.java:71 | without wrap-around, the sweet-spot test on Java ints is the plain distance test |
| WallFollowing.Filtered | Midstorms-Ev3/Wall_Following/src/ca/mcgill/ecse211/wallfollowing/PController.java:43-58 | the filter passes the reading, or replaces a far reading by the substitute; a near reading resets the count, which stays within [0, filterOut] |
| WallFollowing.FarRunPassesAfterFilterOut | Midstorms-Ev3/Wall_Following/src/ca/mcgill/ecse211/wallfollowing/PController.java:43-58 | in a run of far readings, the first filterOut - count are replaced and every later one passes; the count ends at filterOut |
| WallFollowing.NearReadingRearmsFilter | Midstorms-Ev3/Wall_Following/src/ca/mcgill/ecse211/wallfollowing/PController.java:53-57 | a near reading passes and resets the count, so the next far reading is replaced again |
| WallPController.SpeedDifference | Midstorms-Ev3/Wall_Following/src/ca/mcgill/ecse211/wallfollowing/PController.java:60-67 | the difference is 60 for a far reading; otherwise it is in [0, 70] or exactly 90 |
| WallPController.SpeedDifferenceIsProportional | Midstorms-Ev3/Wall_Following/src/ca/mcgill/ecse211/wallfollowing/PController.java:60-67 | below the jump the difference is the error times 3.5 truncated; from an error of 71/3.5 on, it is 90 |
| WallPController.Respond | Midstorms-Ev3/Wall_Following/src/ca/mcgill/ecse211/wallfollowing/PController.java:35-109 | the spinning counter restarts at each spin and otherwise counts up; in the band the spinning flag stays, and outside it the flag says whether the robot spins |
| WallPController.SteersAgainstTheError | Midstorms-Ev3/Wall_Following/src/ca/mcgill/ecse211/wallfollowing/PController.java:71-100 | straight in the band, a right turn away from the wall when too close, a left turn toward it when too far |
| WallPController.PController.constructor | Midstorms-Ev3/Wall_Following/src/ca/mcgill/ecse211/wallfollowing/PController.java:22-32 | the state is zero, and both wheels are set to 140 and started forward |
| WallPController.PController.IssueDrive | Midstorms-Ev3/Wall_Following/src/ca/mcgill/ecse211/wallfollowing/PController.java:71-100 | appends DriveCommands of the drive |
| WallPController.PController.ProcessUSData | Midstorms-Ev3/Wall_Following/src/ca/mcgill/ecse211/wallfollowing/PController.java:35-109 | the new state and the commands issued are those of Respond |
| WallPController.PController.ReadUSDistance | Midstorms-Ev3/Wall_Following/src/ca/mcgill/ecse211/wallfollowing/PController.java:113-115 | returns the filtered distance |
| LabPController.SpeedDifference | Localisation/src/ca/mcgill/ecse211/odometerlab/PController.java:64-68 | the difference lies in [0, 90] |
| LabPController.SpeedDifferenceIsProportional | Localisation/src/ca/mcgill/ecse211/odometerlab/PController.java:64-68 | short of the clamp the difference is the error times 3.5, truncated; from then on it is 90 |
| LabPController.Respond | Localisation/src/ca/mcgill/ecse211/odometerlab/PController.java:35-107 | a corner is a filtered distance of 100 or more: the robot sweeps left with difference 45 and keeps the spinning flag; otherwise only a spin raises the flag |
| LabPController.DifferenceIsUnusedForReplacedReading | Localisation/src/ca/mcgill/ecse211/odometerlab/PController.java:42-68 | a far reading replaced by the band centre gives a straight drive, whatever the difference from the raw reading is |
| LabPController.SteersAgainstTheError | Localisation/src/ca/mcgill/ecse211/odometerlab/PController.java:56-104 | a left sweep at a corner, straight in the band, backing off when very close, a right turn when too close otherwise, a left turn when too far |
| LabPController.PController.constructor | Localisation/src/ca/mcgill/ecse211/odometerlab/PController.java:22-32 | the state is zero, and both wheels are set to 140 and started forward |
| LabPController.PController.IssueDrive | Localisation/src/ca/mcgill/ecse211/odometerlab/PController.java:56-104 | appends DriveCommands of the drive |
| LabPController.PController.ProcessUSData | Localisation/src/ca/mcgill/ecse211/odometerlab/PController.java:35-107 | the new state and the commands issued are those of Respond |
| LabPController.PController.ReadUSDistance | Localisation/src/ca/mcgill/ecse211/odometerlab/PController.java:110-112 | returns the filtered distance |
| BangBangControl.Respond | Wall_Following/src/ca/mcgill/ecse211/wallfollowing/BangBangController.java:32-89 | the spinning flag is raised exactly when the robot backs off or spins out of the band; the distance is the reading or, for a far reading, the band centre |
| BangBangControl.SteersAgainstTheError | Wall_Following/src/ca/mcgill/ecse211/wallfollowing/BangBangController.java:52-88 | both wheels low in the band, backing off when very close, a right turn when too close otherwise, a left turn when too far |
| BangBangControl.BangBangController.constructor | Wall_Following/src/ca/mcgill/ecse211/wallfollowing/BangBangController.java:19-29 | the state is zero, and both wheels are set to the low speed and started forward |
| BangBangControl.BangBangController.IssueDrive | Wall_Following/src/ca/mcgill/ecse211/wallfollowing/BangBangController.java:52-88 | appends DriveCommands of the drive |
| BangBangControl.BangBangController.ProcessUSData | Wall_Following/src/ca/mcgill/ecse211/wallfollowing/BangBangController.java:32-89 | the new state and the commands issued are those of Respond |
| BangBangControl.BangBangController.ReadUSDistance | Wall_Following/src/ca/mcgill/ecse211/wallfollowing/BangBangController.java:92-94 | returns the filtered distance |
| CaptureAvoidance.RotationsSplitTheCircle | CaptureTheFlag/src/ca/mcgill/ecse211/capturetheflag/UltrasonicNavigationData.java:190-197 | for headings less than a turn apart, the clockwise and counter-clockwise turns add up to 360, or are both 0 when the headings agree |
| CaptureAvoidance.ClockwiseRotation | CaptureTheFlag/src/ca/mcgill/ecse211/capturetheflag/UltrasonicNavigationData.java:190-197 | the rotation is an int; for headings less than a turn apart it is the clockwise turn from one to the other, modulo 360, so it lies in [0, 360) |
| CaptureAvoidance.TurnsRightToward | CaptureTheFlag/src/ca/mcgill/ecse211/capturetheflag/UltrasonicNavigationData.java:183-199 | for headings less than a turn apart the robot turns right exactly when the centre is less than half a turn clockwise: the shorter way, and left for a centre straight ahead or exactly behind |
| CaptureAvoidance.CentreHeading | CaptureTheFlag/src/ca/mcgill/ecse211/capturetheflag/UltrasonicNavigationData.java:184-188 | with an arc tangent in [−π, π], the truncated heading to the board centre lies in [−180, 180] |
| CaptureAvoidance.SpeedDifference | CaptureTheFlag/src/ca/mcgill/ecse211/capturetheflag/UltrasonicNavigationData.java:131-133 | the difference lies in [0, 80] |
| CaptureAvoidance.SpeedDifferenceIsProportional | CaptureTheFlag/src/ca/mcgill/ecse211/capturetheflag/UltrasonicNavigationData.java:131-133 | short of the cap the difference is the error from 20 times 3.5, truncated, and off the band it is at least 10 |
| CaptureAvoidance.RightWallMirrorsLeftWall | CaptureTheFlag/src/ca/mcgill/ecse211/capturetheflag/UltrasonicNavigationData.java:122-173 | following a wall on the right is following one on the left with the wheels exchanged |
| CaptureAvoidance.FollowStep | CaptureTheFlag/src/ca/mcgill/ecse211/capturetheflag/UltrasonicNavigationData.java:104-175 | a corner is a filtered distance of 100 or more and keeps the last difference; the distance is the reading or, for a far reading, 20 |
| CaptureAvoidance.DifferenceIsUnusedForReplacedReading | CaptureTheFlag/src/ca/mcgill/ecse211/capturetheflag/UltrasonicNavigationData.java:107-137 | a far reading replaced by 20 gives a straight drive, whatever the difference |
| CaptureAvoidance.SteersAgainstTheError | CaptureTheFlag/src/ca/mcgill/ecse211/capturetheflag/UltrasonicNavigationData.java:121-174 | for either wall: a sweep toward the wall at a corner, straight in the band, backing off when very close, a turn away when too close, a turn toward it when too far |
| CaptureAvoidance.UltrasonicNavigationData.constructor | CaptureTheFlag/src/ca/mcgill/ecse211/capturetheflag/UltrasonicNavigationData.java:42-66 | the state is zero, nothing is issued, and the associations are unset |
| CaptureAvoidance.UltrasonicNavigationData.SetOdometer | CaptureTheFlag/src/ca/mcgill/ecse211/capturetheflag/UltrasonicNavigationData.java:205-207 | the odometer is the one given |
| CaptureAvoidance.UltrasonicNavigationData.SetNavigation | CaptureTheFlag/src/ca/mcgill/ecse211/capturetheflag/UltrasonicNavigationData.java:213-215 | the navigation is the one given |
| CaptureAvoidance.UltrasonicNavigationData.SetNavigationController | CaptureTheFlag/src/ca/mcgill/ecse211/capturetheflag/UltrasonicNavigationData.java:221-223 | the planner is the one given |
| CaptureAvoidance.UltrasonicNavigationData.IssueDrive | CaptureTheFlag/src/ca/mcgill/ecse211/capturetheflag/UltrasonicNavigationData.java:104-175 | appends DriveCommands of the drive |
| CaptureAvoidance.UltrasonicNavigationData.WhichDirectionInterruption | CaptureTheFlag/src/ca/mcgill/ecse211/capturetheflag/UltrasonicNavigationData.java:183-199 | the robot turns right exactly when the clockwise turn from the truncated heading to the board centre is the shorter |
| CaptureAvoidance.UltrasonicNavigationData.ProcessWallFollowing | CaptureTheFlag/src/ca/mcgill/ecse211/capturetheflag/UltrasonicNavigationData.java:104-175 | the new state and the commands issued are those of FollowStep |
| CaptureAvoidance.UltrasonicNavigationData.BreakOff | CaptureTheFlag/src/ca/mcgill/ecse211/capturetheflag/UltrasonicNavigationData.java:79-87 | picks the side toward the centre, points the sensor at that wall, turns a quarter turn and switches the planner to AVOIDING |
| CaptureAvoidance.UltrasonicNavigationData.ProcessData | CaptureTheFlag/src/ca/mcgill/ecse211/capturetheflag/UltrasonicNavigationData.java:76-96 | while navigating, a reading below 18 breaks off; while avoiding, the reading drives the follower; otherwise nothing changes |
| CaptureColorPolling.ColorPoller.constructor | CaptureTheFlag/src/ca/mcgill/ecse211/capturetheflag/ColorPoller.java:19-60 | the detectors are the ones given; the mode starts LOCALISATION and polling is off |
| CaptureColorPolling.ColorPoller.SetPollingState | CaptureTheFlag/src/ca/mcgill/ecse211/capturetheflag/ColorPoller.java:125-129 | the mode is the one given |
| CaptureColorPolling.ColorPoller.GetPollingState | CaptureTheFlag/src/ca/mcgill/ecse211/capturetheflag/ColorPoller.java:151-155 | returns the mode |
| CaptureColorPolling.ColorPoller.GetColorLocalisationData | CaptureTheFlag/src/ca/mcgill/ecse211/capturetheflag/ColorPoller.java:135-137 | returns the pulse detector |
| CaptureColorPolling.ColorPoller.GetZiplineLightData | CaptureTheFlag/src/ca/mcgill/ecse211/capturetheflag/ColorPoller.java:143-145 | returns the landing detector |
| CaptureColorPolling.ColorPoller.StartPolling | CaptureTheFlag/src/ca/mcgill/ecse211/capturetheflag/ColorPoller.java:160-163 | the mode is set and polling is on (with line 67 of the same file) |
| CaptureColorPolling.ColorPoller.StopPolling | CaptureTheFlag/src/ca/mcgill/ecse211/capturetheflag/ColorPoller.java:168-170 | polling is off |
| CaptureColorPolling.ColorPoller.Tick | CaptureTheFlag/src/ca/mcgill/ecse211/capturetheflag/ColorPoller.java:71-119 | the back reading, scaled by 100 and truncated, goes to the current mode's detector and to no other; block searching changes nothing |
| CaptureUltrasonicPolling.Route | CaptureTheFlag/src/ca/mcgill/ecse211/capturetheflag/UltrasonicPoller.java:59-71 | a sample of 0 or less is dropped; in LOCALISATION a sample goes to the edge detector capped at 255; in NAVIGATION it goes to the avoider unchanged |
| CaptureUltrasonicPolling.LocalisationCapsAt255 | CaptureTheFlag/src/ca/mcgill/ecse211/capturetheflag/UltrasonicPoller.java:63-64 | in LOCALISATION the edge detector sees samples up to 255 as they are, and 255 for any reading of 2.55 or more |
| CaptureUltrasonicPolling.UltrasonicPoller.constructor | CaptureTheFlag/src/ca/mcgill/ecse211/capturetheflag/UltrasonicPoller.java:20-46 | the detectors are the ones given; the mode starts LOCALISATION and polling is off |
| CaptureUltrasonicPolling.UltrasonicPoller.SetPollingState | CaptureTheFlag/src/ca/mcgill/ecse211/capturetheflag/UltrasonicPoller.java:87-91 | the mode is the one given |
| CaptureUltrasonicPolling.UltrasonicPoller.GetPollingState | CaptureTheFlag/src/ca/mcgill/ecse211/capturetheflag/UltrasonicPoller.java:97-101 | returns the mode |
| CaptureUltrasonicPolling.UltrasonicPoller.GetUltrasonicLocalisationData | CaptureTheFlag/src/ca/mcgill/ecse211/capturetheflag/UltrasonicPoller.java:107-109 | returns the edge detector |
| CaptureUltrasonicPolling.UltrasonicPoller.GetUltrasonicNavigationData | CaptureTheFlag/src/ca/mcgill/ecse211/capturetheflag/UltrasonicPoller.java:115-117 | returns the avoider |
| CaptureUltrasonicPolling.UltrasonicPoller.StartPolling | CaptureTheFlag/src/ca/mcgill/ecse211/capturetheflag/UltrasonicPoller.java:123-126 | the mode is set and polling is on (with line 54 of the same file) |
| CaptureUltrasonicPolling.UltrasonicPoller.StopPolling | CaptureTheFlag/src/ca/mcgill/ecse211/capturetheflag/UltrasonicPoller.java:132-134 | polling is off |
| CaptureUltrasonicPolling.UltrasonicPoller.Tick | CaptureTheFlag/src/ca/mcgill/ecse211/capturetheflag/UltrasonicPoller.java:57-72 | the sample goes where Route says; the edge detector steps only on a LOCALISATION delivery, and a dropped sample changes neither detector |
| LabNavigationControl.TurnedAroundIsHalfTurn | Localisation/src/ca/mcgill/ecse211/odometerlab/NavigationController.java:50-53 | for headings in [0, 360), the turned-around test holds exactly when the turn since the interruption is strictly between 175 and 185 degrees |
| LabNavigationControl.NextPass | Localisation/src/ca/mcgill/ecse211/odometerlab/NavigationController.java:36-61 | as meant: the list keeps its head or drops it; the head is dropped exactly when navigating within 3 cm of it; the state stays AVOIDING exactly when the robot has not yet turned around |
| LabNavigationControl.PassAsWritten | Localisation/src/ca/mcgill/ecse211/odometerlab/NavigationController.java:6-61 | as written: a missing state throws, and throws only then |
| LabNavigationControl.AsWrittenLosesTheState | Localisation/src/ca/mcgill/ecse211/odometerlab/NavigationController.java:6-54 | as written, turning around stores null, and the next pass throws a NullPointerException; as meant, the state returns to NAVIGATING |
| LabNavigationControl.AsWrittenKeepsReachedWaypoint | Localisation/src/ca/mcgill/ecse211/odometerlab/NavigationController.java:45-47 | as written, the robot at the waypoint (30, 0) keeps it, because the test measures the distance to the origin; as meant, the list is emptied |
| LabNavigationControl.CorrectedAgreesElsewhere | Localisation/src/ca/mcgill/ecse211/odometerlab/NavigationController.java:36-61 | with the waypoint at the origin and no turn-around, the source and the corrected pass agree |
| LabNavigationControl.NavigationController.constructor | Localisation/src/ca/mcgill/ecse211/odometerlab/NavigationController.java:14-31 | the parts are the ones given; the state is NAVIGATING, the odometer is started, and the poller is started exactly with object detection |
| LabNavigationControl.NavigationController.GetNavigationState | Localisation/src/ca/mcgill/ecse211/odometerlab/NavigationController.java:66-70 | returns the state |
| LabNavigationControl.NavigationController.SetNavigationState | Localisation/src/ca/mcgill/ecse211/odometerlab/NavigationController.java:72-76 | the state is the one given |
| LabNavigationControl.NavigationController.RunPass | Localisation/src/ca/mcgill/ecse211/odometerlab/NavigationController.java:34-61 | runs the corrected pass, not the one as written (see Findings): an empty list ends the loop; otherwise the state and list are those of NextPass, and a navigating pass first issues the travel to the head |
| LocalisationNavigationControl.NextPass | Localisation/src/ca/mcgill/ecse211/localisation/NavigationController.java:39-60 | a travel is sent exactly from READY, to the head, and then the state is NAVIGATING; the head is dropped exactly when navigating, stopped and within 5 cm of it, and then the state is READY; AVOIDING changes nothing |
| LocalisationNavigationControl.VisitsWaypointsInOrder | Localisation/src/ca/mcgill/ecse211/localisation/NavigationController.java:39-66 | every run leaves a suffix of the list, and the points sent, with the one in flight, are the waypoints in order |
| LocalisationNavigationControl.EmptyListStops | Localisation/src/ca/mcgill/ecse211/localisation/NavigationController.java:39 | an empty list sends nothing and changes nothing |
| LocalisationNavigationControl.NavigationController.constructor | Localisation/src/ca/mcgill/ecse211/localisation/NavigationController.java:23-35 | the list is the one given, the state is READY, and the odometer is started |
| LocalisationNavigationControl.NavigationController.GetNavigationState | Localisation/src/ca/mcgill/ecse211/localisation/NavigationController.java:70-74 | returns the state |
| LocalisationNavigationControl.NavigationController.SetNavigationState | Localisation/src/ca/mcgill/ecse211/localisation/NavigationController.java:76-80 | the state is the one given |
| LocalisationNavigationControl.NavigationController.RunPass | Localisation/src/ca/mcgill/ecse211/localisation/NavigationController.java:39-60 | an empty list ends the loop; otherwise the pass is NextPass |
| LocalisationNavigationControl.NavigationController.Run | Localisation/src/ca/mcgill/ecse211/localisation/NavigationController.java:37-68 | the loop's final state, list and travels sent are those of RunPasses |
| LabUltrasonicPolling.Distance | Localisation/src/ca/mcgill/ecse211/odometerlab/UltrasonicPoller.java:46 | the distance is a Java int, and for a reading in range it is the reading times 100 rounded down |
| LabUltrasonicPolling.React | Localisation/src/ca/mcgill/ecse211/odometerlab/UltrasonicPoller.java:48-58 | break off exactly when navigating and closer than 15; follow the wall exactly when avoiding; otherwise ignore |
| LabUltrasonicPolling.StraighteningUndoesTheTurn | Localisation/src/ca/mcgill/ecse211/odometerlab/UltrasonicPoller.java:51-70 | the break-off turn of the sensor, followed by usSensorStraight, leaves it where it was |
| LabUltrasonicPolling.UltrasonicPoller.constructor | Localisation/src/ca/mcgill/ecse211/odometerlab/UltrasonicPoller.java:28-34 | the sensor motor speed is set to 30 |
| LabUltrasonicPolling.UltrasonicPoller.Tick | Localisation/src/ca/mcgill/ecse211/odometerlab/UltrasonicPoller.java:45-58 | a break-off turns the sensor by -70, interrupts the navigation and switches to AVOIDING; wall following is the controller's processUSData; otherwise nothing changes |
| LabUltrasonicPolling.UltrasonicPoller.UsSensorStraight | Localisation/src/ca/mcgill/ecse211/odometerlab/UltrasonicPoller.java:68-70 | turns the sensor motor by 70 without waiting |
| PathPlanner.Insert | CaptureTheFlag/src/ca/mcgill/ecse211/capturetheflag/NavigationController.java:187 | List.add at an index: the new waypoint sits at that index, the ones before it are kept and the ones after it move up by one (with line 253 of the same file) |
| PathPlanner.Remove | CaptureTheFlag/src/ca/mcgill/ecse211/capturetheflag/NavigationController.java:257 | List.remove at an index: the waypoints before it are kept and the ones after it move down by one (with line 397 of the same file) |
| PathPlanner.RemoveInsert | CaptureTheFlag/src/ca/mcgill/ecse211/capturetheflag/NavigationController.java:252-258 | taking out a waypoint just put in restores the list, which is how a failed try is undone |
| PathPlanner.InsertKeepsAlignedBefore | CaptureTheFlag/src/ca/mcgill/ecse211/capturetheflag/NavigationController.java:222-321 | putting a waypoint after index i keeps every earlier leg a row or column leg, and the leg into it too when it is a row or column step from waypoint i |
| PathPlanner.TurnedAroundIsHalfTurn | CaptureTheFlag/src/ca/mcgill/ecse211/capturetheflag/NavigationController.java:145-150 | for headings in [0, 360) the stop-avoiding test holds exactly when the heading changed by 180 degrees give or take 15, whichever way the robot turned |
| PathPlanner.TurnedAround | CaptureTheFlag/src/ca/mcgill/ecse211/capturetheflag/NavigationController.java:146-149 | when the difference of the truncated headings fits in an int, the test is that their distance lies strictly between 165 and 195; otherwise the difference and its absolute value wrap as Java ints |
| PathPlanner.ShiftIsAligned | CaptureTheFlag/src/ca/mcgill/ecse211/capturetheflag/NavigationController.java:412-468 | a closeShift answer the search keeps (not in the river) is a row or column step from the waypoint: the no-candidate answer (-1, -1) is in the river (with line 252 of the same file) |
| PathPlanner.NavigationController.constructor | CaptureTheFlag/src/ca/mcgill/ecse211/capturetheflag/NavigationController.java:30-100 | the game parameters and tile are the ones given; the list is empty, avoidance is off and the state is READY |
| PathPlanner.NavigationController.SetCoordinateList | CaptureTheFlag/src/ca/mcgill/ecse211/capturetheflag/NavigationController.java:613-615 | the list is the one given |
| PathPlanner.NavigationController.AddWayPoint | CaptureTheFlag/src/ca/mcgill/ecse211/capturetheflag/NavigationController.java:621-623 | the point is appended to the list |
| PathPlanner.NavigationController.AddWayPointAt | CaptureTheFlag/src/ca/mcgill/ecse211/capturetheflag/NavigationController.java:630-632 | the point (x, y) is appended to the list |
| PathPlanner.NavigationController.SetObjectAvoidance | CaptureTheFlag/src/ca/mcgill/ecse211/capturetheflag/NavigationController.java:647-649 | the avoidance flag is the one given |
| PathPlanner.NavigationController.SetNavigationState | CaptureTheFlag/src/ca/mcgill/ecse211/capturetheflag/NavigationController.java:665-669 | the state is the one given |
| PathPlanner.NavigationController.GetNavigationState | CaptureTheFlag/src/ca/mcgill/ecse211/capturetheflag/NavigationController.java:655-659 | returns the state |
| PathPlanner.NavigationController.RecursivePath | CaptureTheFlag/src/ca/mcgill/ecse211/capturetheflag/NavigationController.java:185-381 | from index 0 the closest intersection is put in front; a failure from a later index leaves the list as it was; a success leaves a path from the start to the last waypoint with no redundant waypoint and, on a board right of the origin, only row and column legs; it runs the corrected removeRedundantPoints, not the one as written (see Findings) |
| PathPlanner.NavigationController.TryWaypoint | CaptureTheFlag/src/ca/mcgill/ecse211/capturetheflag/NavigationController.java:252-370 | a waypoint is put after index i and the search goes on from it; on failure the list is as it was, on success the plan keeps both ends |
| PathPlanner.NavigationController.ShiftSearch | CaptureTheFlag/src/ca/mcgill/ecse211/capturetheflag/NavigationController.java:227-372 | the eight shift tries around waypoint i: on failure the list is as it was, on success the plan keeps both ends |
| PathPlanner.NavigationController.StraightLeg | CaptureTheFlag/src/ca/mcgill/ecse211/capturetheflag/NavigationController.java:222-321 | a row or column leg: on failure from a later index the list is as it was, on success the plan keeps both ends |
| PathPlanner.NavigationController.DiagonalLeg | CaptureTheFlag/src/ca/mcgill/ecse211/capturetheflag/NavigationController.java:324-381 | a diagonal leg, tried through the rectangle's corners, then by shifts, then through the crossings' centre: on failure from a later index the list is as it was, on success the plan keeps both ends |
| PathPlanner.NavigationController.BridgeDetour | CaptureTheFlag/src/ca/mcgill/ecse211/capturetheflag/NavigationController.java:263-381 | a path changing zones is sent through the centre of the crossings: on failure from a later index the list is as it was, on success the plan keeps both ends |
| PathPlanner.NavigationController.Step | CaptureTheFlag/src/ca/mcgill/ecse211/capturetheflag/NavigationController.java:115-156 | one loop pass: READY travels to the first waypoint and becomes NAVIGATING; NAVIGATING drops the waypoint once the wheels stop, or relocalises at a passable intersection after four tiles and replans, with the corrected removeRedundantPoints, when the path is rectangular; AVOIDING returns to READY and recentres the front motor once the robot has turned around |
| PathPlanner.NavigationController.RunNavigationTask | CaptureTheFlag/src/ca/mcgill/ecse211/capturetheflag/NavigationController.java:101-164 | the task finishes exactly when it stops the poller, and then the list is empty and stopping was the last effect; a buzz comes first only when the path was to be rectangular |
| PathEditing.DropKeepsAligned | CaptureTheFlag/src/ca/mcgill/ecse211/capturetheflag/NavigationController.java:396-397 | dropping the middle of three waypoints on one row or column keeps every leg a row or column leg |
| PathEditing.DropKeepsChecked | CaptureTheFlag/src/ca/mcgill/ecse211/capturetheflag/NavigationController.java:396-398 | dropping the waypoint after index i leaves the triples already looked at untouched and keeps both ends |
| PathEditing.RemoveRedundantPoints | CaptureTheFlag/src/ca/mcgill/ecse211/capturetheflag/NavigationController.java:388-401 | corrected pass: the result has no three consecutive waypoints on one row or column, is the path with waypoints deleted, keeps both ends, keeps row and column legs, and is the path itself when nothing is redundant |
| PathEditing.ScanStart | CaptureTheFlag/src/ca/mcgill/ecse211/capturetheflag/NavigationController.java:392 | before the scan nothing has been looked at and nothing deleted |
| PathEditing.AdvanceStep | CaptureTheFlag/src/ca/mcgill/ecse211/capturetheflag/NavigationController.java:392-396 | a triple that is not redundant is kept and the scan moves on |
| PathEditing.DropStep | CaptureTheFlag/src/ca/mcgill/ecse211/capturetheflag/NavigationController.java:396-398 | after dropping a waypoint, stepping back one place keeps the scan's invariant |
| PathEditing.ScanDone | CaptureTheFlag/src/ca/mcgill/ecse211/capturetheflag/NavigationController.java:392 | when the scan reaches the end every triple has been looked at, so the pass's promises hold |
| PathEditing.ScanAsWritten | CaptureTheFlag/src/ca/mcgill/ecse211/capturetheflag/NavigationController.java:392-400 | the pass as written never lengthens the path, keeps both ends and keeps row and column legs |
| PathEditing.RemoveRedundantPointsAsWritten | CaptureTheFlag/src/ca/mcgill/ecse211/capturetheflag/NavigationController.java:388-401 | the loop as written computes the as-written scan from index 0 |
| PathEditing.AsWrittenKeepsCollinearTriple | CaptureTheFlag/src/ca/mcgill/ecse211/capturetheflag/NavigationController.java:396-398 | on (0,0) (1,0) (1,5) (1,0) the pass as written leaves three waypoints on the row y = 0 |
| PathEditing.RepeatsBlock | CaptureTheFlag/src/ca/mcgill/ecse211/capturetheflag/NavigationController.java:194-213 | the cycle guard answers yes exactly when some block of between 3 and (i+1)/2 waypoints ending at i repeats the block just before it |
| PathEditing.AllPassable | CaptureTheFlag/src/ca/mcgill/ecse211/capturetheflag/NavigationController.java:186-192 | the scan at index 0 answers yes exactly when no waypoint is in the river or on a tower centre |
| PathEditing.CloseShift | CaptureTheFlag/src/ca/mcgill/ecse211/capturetheflag/NavigationController.java:412-468 | the shift chosen is the first untried one, along the allowed axes, of least squared distance to the goal, and its bit is added to the status; with none left the answer is (-1, -1) and the status is unchanged |
| PathEditing.ShiftStaysOnAxis | CaptureTheFlag/src/ca/mcgill/ecse211/capturetheflag/NavigationController.java:417-464 | a shift moves along the row when vertical moves are not allowed and along the column when horizontal ones are not |
| PathEditing.TakenShiftIsRetired | CaptureTheFlag/src/ca/mcgill/ecse211/capturetheflag/NavigationController.java:465-466 | a taken shift is never offered again by the same search, and the other shifts are offered exactly as before |
| PathEditing.ExhaustedSearch | CaptureTheFlag/src/ca/mcgill/ecse211/capturetheflag/NavigationController.java:417-464 | once all eight bits are set no shift is offered |
| ZoneMap.BridgeCorners | CaptureTheFlag/src/ca/mcgill/ecse211/capturetheflag/NavigationController.java:499-500 | the eight corners of the two crossings |
| ZoneMap.MapPoint | CaptureTheFlag/src/ca/mcgill/ecse211/capturetheflag/NavigationController.java:480-506 | green is the green interior; red the red interior outside green; bridge a crossing interior or a shared zone and crossing border that is not a crossing corner; everything else river |
| ZoneMap.MapPointInset | CaptureTheFlag/src/ca/mcgill/ecse211/capturetheflag/NavigationController.java:516-534 | green is the green interior shrunk by one on each side; red the shrunk red interior outside it; river a point in none of the four shrunk interiors |
| ZoneMap.InsetIsCautious | CaptureTheFlag/src/ca/mcgill/ecse211/capturetheflag/NavigationController.java:480-534 | whatever the inset classifier calls green, red or bridge is no less passable under the full one, and the full one's river is the inset one's river |
| ZoneMap.BridgeCornerIsRiver | CaptureTheFlag/src/ca/mcgill/ecse211/capturetheflag/NavigationController.java:495-505 | a crossing corner inside no interior is river |
| ZoneMap.LeftOfBoardIsRiver | CaptureTheFlag/src/ca/mcgill/ecse211/capturetheflag/NavigationController.java:480-506 | with the board's corners at or above zero, every point left of the board is river |
| ZoneMap.TowerSlope | CaptureTheFlag/src/ca/mcgill/ecse211/capturetheflag/NavigationController.java:586-590 | the slope of the line through two towers that differ in both coordinates is not zero |
| ZoneMap.ColumnBetweenTowersNeverHolds | CaptureTheFlag/src/ca/mcgill/ecse211/capturetheflag/NavigationController.java:574 | the third column test asks for a.x to be both below and above the red tower, so it never holds |
| ZoneMap.ObstacleCheck | CaptureTheFlag/src/ca/mcgill/ecse211/capturetheflag/NavigationController.java:542-607 | only a row or a column leg is ever reported blocked: a leg that is neither is clear |
| ZoneMap.ObstacleCheckSymmetric | CaptureTheFlag/src/ca/mcgill/ecse211/capturetheflag/NavigationController.java:542-607 | obstacleCheck gives the same answer in both directions of travel |
| ZoneMap.TowerOnLegBlocks | CaptureTheFlag/src/ca/mcgill/ecse211/capturetheflag/NavigationController.java:543-572 | a row or column leg through the centre of either tower is always blocked |
| ZoneMap.OneTowerBlocksOnlyThroughIt | CaptureTheFlag/src/ca/mcgill/ecse211/capturetheflag/NavigationController.java:542-607 | with both towers at one point, a leg is blocked exactly when it runs through that point |

## Left out

- Threads, `run` loops and sleeps: each loop is modelled as one pass, or as a finite run of passes over given readings. Thread start is a flag; `synchronized` and `volatile` are not modelled, and the static state shared between threads is an ordinary field.
- Sensors, motors and the clock: readings are parameters; motor calls are recorded, in order, as `Command` values; blocking waits on a poller are replaced by the headings the odometer would report when each event happens.
- `Sound`, `println` and the LCD display: not modelled, because they do not affect any state.
- Sine, cosine, atan2 and square root: these are function parameters, bounded only where a property needs it (cosine between -1 and 1, atan2 between -π and π). Where a square root is only compared, the squares are compared.
- Floating point: doubles are exact reals, so rounding error is not modelled.
- The Navigation and Odometer classes of the localisation package are not part of this model. Their callers take motor activity and position as parameters, and `travelTo` is returned as the point it was given.
- The zip-line and localisation-lab odometers are not part of this model, so the localisation routines return the odometer writes they would make instead of making them.
- ZipLine `computeThetaColor` and the constant `colorLocalisationLineOffset` are not modelled: nothing in the shown code uses them.
- The Capture-the-Flag controller calls `localisation.getClosestMultiple`, `colorLocalisation(false)` and `odometer.getDistanceSinceLastLocalisation()`, which the shown `Localisation` and `Odometer` files do not define. The closest intersection and the distance since relocalising are parameters, and `colorLocalisation` is an effect.
- PathPlanner.NavigationController.RecursivePath: the unbounded recursion is bounded by a `fuel` parameter; running out of fuel stands for the `StackOverflowError` and is returned as `Exhausted`, which, like the error, passes through every caller without undoing anything.
- PathPlanner.NavigationController.RunNavigationTask: runs over a finite sequence of readings, so a run that does not empty the list ends when the readings end rather than looping forever.
- The association getters and setters that only hand objects between threads (for example `getUltrasonicNavigationData`) are modelled as plain fields. CaptureAvoidance.UltrasonicNavigationData starts with a null odometer, navigation and controller, as in the source, and receives them through its three setters. The line, edge and zip-line detectors (`setLocalisation`, `setZiplineController`) hold no association: each reading's wake-up call is returned as a flag instead.
- `turnFrontMotor` is the one-line non-blocking `rotateTo`; the obstacle avoider records that command in its own log.
- The obstacle avoider's break-off heading comes from the navigation object's own odometer, as in the source, but that navigation's quarter turn is logged in the navigation object.
- LabOdometry.Odometer.GetPosition: requires the mask and the position array to cover every written index; the Java method has no length check and would throw an `ArrayIndexOutOfBoundsException` instead.
- LabOdometry.Odometer.SetPosition: the same requires as GetPosition, for the same reason.
- Driving.ConvertDistance: requires a positive wheel radius; the source divides by it and gives infinity or NaN for zero.
- Driving.ConvertAngle: requires a positive wheel radius, as ConvertDistance does.
- CaptureNavigation.Navigation.TurnTo: requires a positive wheel radius, as ConvertDistance does; the same holds for every other driver method that converts distances (TravelTo, Forward, InterruptNav, FaceZipline).
- LabNavigation.Navigation.TurnTo: requires positive wheel radii, as ConvertDistance does; the same holds for TravelTo and InterruptNav.
- ZiplineNavigation.Navigation.TurnTo: requires positive wheel radii, as ConvertDistance does; the same holds for TravelTo, Forward and TurnToPoint.
- SquareDriving.Drive: requires positive wheel radii, as ConvertDistance does.
- LabUltrasonicPolling.UltrasonicPoller.Tick: requires the navigation's radii to be positive even on a reading that does not break off, because the requires cannot depend on the reading.
- PathPlanner.NavigationController.RecursivePath: runs the corrected `removeRedundantPoints` (PathEditing.RemoveRedundantPoints) where the source calls the one as written (see Findings), so its no-redundant-waypoint promise is about the corrected pass. The same holds for the planner methods that reach it: Step, TryWaypoint, ShiftSearch, StraightLeg, DiagonalLeg and BridgeDetour.
- ZiplineColorPolling.ZiplineColorPoller.NewAverageValue: runs the corrected average update (AverageStep), not the one as written (AverageStepAsWritten, see Findings).
- ZiplineColorPolling.ZiplineColorPoller.NewSensorValue: runs the corrected fill and average update, for the same reason as NewAverageValue.
- ZiplineColorPolling.ZiplineColorPoller.Step: one pass is the corrected Poll; the pass as written is AverageStepAsWritten followed by the same threshold test.
- LabNavigationControl.NavigationController.RunPass: runs the corrected pass (NextPass), where the source stores the null `NAVIGATING` constant and measures arrival against the origin (see Findings); the pass as written is PassAsWritten.
- OdometryLabCorrection.OdometryCorrection.Step: applies the corrected line snap (LineCorrection.Correct), where the source rounds and writes Y on every heading (see Findings); the branches as written are CorrectAsWritten.
- ZiplineUltrasonicPolling.ReleaseFollowsWindow: the no-release half holds only when the window's exact sum fits in an int; SaturatedReadingReleases shows a window of saturated distances that releases the controller.
- ZiplineUltrasonicPolling.MeanBounds: the bounds hold only when the window's exact sum fits in an int, for the same reason.
- Odometry.WheelDistanceAdds: holds only when none of the three tacho differences wraps.
- CaptureOdometry.Odometer.Tick: requires `track != 0.0`, because the heading change divides by the track; the source divides anyway and gives infinity or NaN for a zero track.
- ZiplineLocalisation.Localisation.FixXY: requires positive wheel radii on its navigation, as ZiplineNavigation.Navigation.TurnTo does, because it turns to the nearest diagonal first.

## Findings

| source | as written | input that shows it | evidently intended | confidence | as-written member | corrected member |
|---|---|---|---|---|---|---|
| CaptureTheFlag/src/ca/mcgill/ecse211/capturetheflag/NavigationController.java:392-399 | after removing the middle waypoint, `i--` and the loop's `i++` cancel, so the triple ending at the new neighbour is never looked at | the path (0,0) (1,0) (1,5) (1,0) becomes (0,0) (1,0) (1,0): three waypoints still on the row y = 0 | step back one place after a removal, so no three consecutive waypoints share a row or a column | not executed | PathEditing.AsWrittenKeepsCollinearTriple | PathEditing.RemoveRedundantPoints |
| CaptureTheFlag/src/ca/mcgill/ecse211/capturetheflag/GameParameters.java:167 | `ZC_R` is assigned the `ZC_G` argument | any two different tower centres: both fields hold the green one and the red one is lost | `ZC_R` takes the `ZC_R` argument | not executed | GameParams.RedTowerLost | GameParams.ConstructIntended |
| Odometry/src/ca/mcgill/ecse211/odometerlab/OdometryCorrection.java:91-119 | all four headings round Y and write Y, and only the +Y branch records the line as corrected | heading 90 at (35, 100): y becomes 95 where x should become 35; heading 180 at (0, 50): y jumps to 25 where 55 is intended | driving along x corrects x; every branch records the line so it is corrected once | not executed | OdometryLabCorrection.AsWrittenWritesYDrivingAlongX | OdometryLabCorrection.IntendedCorrectionSnapsOnce |
| ZipLine/src/ca/mcgill/ecse211/zipline/ZiplineColorPoller.java:107, 124-125 | the fill phase writes `lastAverage` instead of `currentAverage`, and the new average is built on `lastAverage` just before `lastAverage` takes the current one | a steady light of 50: the averages swap between 50 and -1 and a signal is sent on every sample | the new average is built on the current one, so a steady light sends no signal | not executed | ZiplineColorPolling.AsWrittenSteadyLightSignalsForever | ZiplineColorPolling.SteadyLightIsSilent |
| Localisation/src/ca/mcgill/ecse211/odometerlab/NavigationController.java:6, 53-54 | the constant `NAVIGATING` is `null`, so turning around after an obstacle stores a null state | a robot that turns around while avoiding: the next pass switches on null and throws a `NullPointerException` | turning around returns the state to navigating | not executed | LabNavigationControl.AsWrittenLosesTheState | LabNavigationControl.NextPass |
| Localisation/src/ca/mcgill/ecse211/odometerlab/NavigationController.java:45 | a waypoint counts as reached when the robot is within 3 of the origin, not of the waypoint | the only waypoint (30, 0) with the robot standing on it: it is never removed and the loop never ends | arrival is measured against the waypoint | not executed | LabNavigationControl.AsWrittenKeepsReachedWaypoint | LabNavigationControl.NextPass |
