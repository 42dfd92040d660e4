# Pose coach analysis engine in Dafny

This project models the analysis core of a webcam coaching tool. A pose
detector finds one person per frame and reports named joints in pixel
coordinates. For each frame the active analyzer turns those joints into the
text lines drawn over the video. There are two kinds of analyzer:

- fifteen **exercise coaches** (bicep curl, barbell row, squat, bent-over row,
  lunge, Romanian deadlift, lateral raise, deadlift, push-up, leg press,
  cable woodchopper, bench press, lat pull-down, box jump, calf raise). Each
  keeps a small state machine across frames, counts repetitions and prints
  form cues;
- eleven **pose raters** (double biceps, Arnold, abdominals and thighs, side
  triceps, side chest, front lat spread, rear lat spread, quarter turns, most
  muscular, moon pose, vacuum). They keep no state. Each gives a frame a
  0–100 score, cues for the failed checks and a closing line for a good pose.

Every analyzer's `update(landmarks, visibility, frame_shape)` is modelled as a
pure Dafny function. A coach's function takes the old state and returns an
`Outcome(state, lines)`. A rater's function returns only the lines. "No person
detected" is `None`. The shared helpers `is_visible` and `safe_points` of the
analyzer base class are modelled with Python's index semantics: negative
indices wrap, and an out-of-range index raises.

Module layout:

| file | module | models |
|---|---|---|
| wrappers.dfy | Wrappers | `Option`, and `Result` with Python's `IndexError` |
| geometry.dfy | Geometry | points, midpoints, `abs`/`min`/`max`, the 1e-6 epsilon, and the angle/norm oracle |
| landmarks.dfy | Landmarks | the named joints, elbow confidences, frame size, and the side choice by elbow visibility |
| text.dfy | Text | `str(int)` for the counters |
| analyzer.dfy | Analyzer | `is_visible`, `safe_points` |
| report.dfy | Report | how every analyzer puts its lines together: header, status, cues of failed checks in order, trailing lines |
| scores.dfy | Scores | how a pose rater's score adds up the weights of its passed checks, and the cap at 100 |
| phases.dfy | Phases | the two-phase repetition counter shared by twelve coaches |
| one file per coach/rater | `<Name>Coach` / `<Name>Rater` | that analyzer's thresholds, state machine and lines |

Angles and lengths come from an `Oracle`: a datatype holding three total
functions, `angleAt` (the angle at a joint), `angleBetween` (the angle between
two vectors) and `norm`. The contracts hold for every oracle, so they never
depend on how the trigonometry is computed. Comparisons are made over exact
`real`s.

Behaviours of the code worth spelling out:
- With no person, an exercise coach emits three lines: the header, the
  no-person message and `Reps: N` (`Jumps: N` for box jumps). The pose
  raters emit two: the header and the no-person message.
- The calf raise baseline is the ankle height of the first frame with a
  person, and it is never updated. Only the box jump's ground line moves
  (downward).
- The double biceps weights add up to 110, and the score is capped at 100. Its
  closing line needs all five checks, not a score of 90 or more. So an
  asymmetric pose scores 100 without the closing line. With one elbow dropped
  from a perfect pose the score is 85.
- The double biceps flexion cue contains the two characters `Â°` where a
  degree sign was meant. The model keeps the string as written.

## Model

| member | source | states |
|---|---|---|
| Analyzer.AllVisible | src/pose_coach/feedback.py:17 | `Ok(true)` exactly when every index is in range and its confidence reaches the threshold. `Ok(false)` only when some in-range entry falls below it. Otherwise `IndexError`, because `all` stops at the first failing entry |
| Analyzer.IsVisible | src/pose_coach/feedback.py:14-17 | no visibility array gives false; otherwise the result of `AllVisible`, computed by a loop; an empty index list gives true |
| Analyzer.IsVisibleByDefault | src/pose_coach/feedback.py:14 | the default threshold is 0.5 |
| Analyzer.Gather | src/pose_coach/feedback.py:24 | fancy indexing succeeds exactly when every index is in range. Row k of the result is the row at index k, with negative indices wrapping |
| Analyzer.SafePoints | src/pose_coach/feedback.py:20-26 | `None` without landmarks or when any index is out of range; otherwise the selected rows, in order |
| Landmarks.ChooseSide | src/pose_coach/exercises/bicep_curl.py:33-35 | the left side exactly when its elbow confidence is at least the right one's. Without confidences both read 0.0, so the left side is chosen |
| Geometry.Mid | src/pose_coach/exercises/squats.py:39-42 | a midpoint is equidistant from both joints and lies between them on each axis |
| Text.Digit | src/pose_coach/exercises/squats.py:62 | the character is a decimal digit with the given value |
| Text.Decimal | src/pose_coach/exercises/squats.py:62 | `str(n)` is non-empty, all digits, with no leading zero |
| Text.ValueOfDecimal | src/pose_coach/exercises/squats.py:62 | reading back `str(n)` gives n |
| Text.DecimalInjective | src/pose_coach/exercises/squats.py:62 | different counts print differently |
| Report.Failures | src/pose_coach/exercises/squats.py:63-68 | at most one cue per check |
| Report.Cues | src/pose_coach/exercises/squats.py:63-68 | one cue line per failed check |
| Report.NoCuesIffAllPassed | src/pose_coach/exercises/squats.py:63-70 | no cue is shown exactly when every check passed |
| Report.CuesOfFailures | src/pose_coach/exercises/squats.py:63-68 | a line is a cue exactly when some failed check carries it |
| Report.CuesAppend | src/pose_coach/exercises/squats.py:63-68 | the cues of two check lists, in order, are the cues of their concatenation |
| Report.CueShown | src/pose_coach/exercises/squats.py:63-68 | a check with its own cue shows that cue exactly when it fails |
| Report.Lines | src/pose_coach/exercises/squats.py:24-72 | header first, status second, then the cues of the failed checks in order, then the trailing lines |
| Report.CueShownInLines | src/pose_coach/exercises/squats.py:62-70 | below the status line, a cue appears exactly when its check fails |
| Report.ClosingShownInLines | src/pose_coach/exercises/squats.py:69-70 | the closing line appears exactly when every check passed, and it is then the only line below the status |
| Report.Closing | src/pose_coach/exercises/squats.py:69-70 | a closing line exactly when every check passed |
| Report.Acclaim | src/pose_coach/poses/moon_pose.py:43-44 | a closing line exactly when the score reaches 90 |
| Report.FeedbackOfLines | src/pose_coach/exercises/squats.py:62-72 | below the status come exactly the cues of the failed checks, in check order, then the trailing lines |
| Report.CuesOfOne | src/pose_coach/exercises/pushups.py:57-58 | one check contributes its cue exactly when it fails |
| Report.CuesOfTwo | src/pose_coach/exercises/lunges.py:59-62 | two checks contribute their cues in check order, each exactly when it fails |
| Report.CuesOfThree | src/pose_coach/exercises/squats.py:63-68 | three checks contribute their cues in check order, each exactly when it fails |
| Report.ClosingOfTwo | src/pose_coach/exercises/lunges.py:59-64 | with two checks: the first cue if it fails, the second if it fails, and the closing line only if both pass, in that order |
| Report.ClosingOfThree | src/pose_coach/exercises/squats.py:63-70 | with three checks: each cue in check order when its check fails, then the closing line only if all pass |
| Scores.Points | src/pose_coach/poses/ab_thigh.py:38-44 | the points earned never exceed the total of the weights |
| Scores.PointsExtremes | src/pose_coach/poses/ab_thigh.py:38-44 | with positive weights, the full total exactly when every check passes and zero exactly when none does |
| Scores.FailedCheckForfeits | src/pose_coach/poses/ab_thigh.py:38-52 | a failed check's weight is missing from the points |
| Scores.ShownCueForfeits | src/pose_coach/poses/ab_thigh.py:38-52 | when a check's own cue is on screen, that check's weight is missing from the score |
| Scores.PointsAppend | src/pose_coach/poses/double_biceps.py:52-62 | the points of two check lists scored one after the other add up |
| Scores.PointsOfOne | src/pose_coach/poses/ab_thigh.py:39-40 | one check earns its weight exactly when it passes |
| Scores.PointsOfTwo | src/pose_coach/poses/moon_pose.py:32-36 | two checks earn their weights, each exactly when it passes |
| Scores.PointsOfThree | src/pose_coach/poses/ab_thigh.py:38-44 | three checks earn their weights, each exactly when it passes |
| Scores.Capped | src/pose_coach/poses/double_biceps.py:63 | the capped score is at most 100 and at most the points, and equals one of them |
| Report.StatusLineInjective | src/pose_coach/exercises/squats.py:62 | two status lines with the same phase are equal only for equal counts |
| Report.DigitsPrefix | src/pose_coach/exercises/squats.py:62 | a digit run that ends at a non-digit is determined by the string |
| Phases.Advance | src/pose_coach/exercises/squats.py:56-60 | the phase flips only on its own trigger. The count grows by one exactly on entering the counted phase |
| Phases.RunMonotone | src/pose_coach/exercises/squats.py:56-60 | over any frame sequence the count never falls, and it grows by at most one per frame |
| Phases.DeadZoneRun | src/pose_coach/exercises/squats.py:53-60 | frames that trigger neither transition change nothing |
| Phases.OneRepPerCycle | src/pose_coach/exercises/squats.py:53-60 | because of the gap between the two thresholds, each repetition takes two phase changes |
| BicepCurlCoach.Step | src/pose_coach/exercises/bicep_curl.py:59-66 | down to up exactly below 50°, counting one; up to down exactly above 150°; between them nothing changes |
| BicepCurlCoach.Lines | src/pose_coach/exercises/bicep_curl.py:68-90 | side/reps/phase status; each of the three cues exactly when its check fails; praise exactly when all pass, and then alone; the feedback is exactly these lines, cues first in the order the checks are made |
| BicepCurlCoach.Update | src/pose_coach/exercises/bicep_curl.py:25-92 | no person: state kept and three lines; otherwise the side chosen by visibility is measured, the counter stepped, and the lines built from the new state |
| BicepCurlCoach.RangeCueMeansNoTransition | src/pose_coach/exercises/bicep_curl.py:78 | the range cue appears exactly on frames between the thresholds, and those frames change no state |
| BicepCurlCoach.CurlScenario | src/pose_coach/exercises/bicep_curl.py:59-66 | extended, curled, extended: counts 0, 1, 1 with phases down, up, down |
| BarbellRowCoach.Step | src/pose_coach/exercises/barbell_row.py:64-71 | down to up exactly below 70°, counting one; up to down exactly above 140° |
| BarbellRowCoach.NeutralSpineWithoutDivision | src/pose_coach/exercises/barbell_row.py:60-61 | the shoulder-slope test is the same as comparing rise with 0.4 × (run + 1e-6) |
| BarbellRowCoach.Lines | src/pose_coach/exercises/barbell_row.py:57-88 | hinge, spine and wrist cues each exactly when its check fails; praise exactly when all pass; the feedback is exactly these lines, cues first in the order the checks are made |
| BarbellRowCoach.Update | src/pose_coach/exercises/barbell_row.py:26-88 | no person: state kept and three lines; otherwise step on the chosen arm's elbow angle |
| BarbellRowCoach.MeasuresChosenSide | src/pose_coach/exercises/barbell_row.py:33-50 | the elbow angle is taken on the arm whose elbow is at least as visible |
| SquatCoach.Step | src/pose_coach/exercises/squats.py:49-60 | up to down exactly when the hip is below the knee and the knee angle is under 100°; down to up exactly above 160°, counting one |
| SquatCoach.Lines | src/pose_coach/exercises/squats.py:49-70 | depth, knee and torso cues each exactly when its check fails; praise exactly when all pass; the feedback is exactly these lines, cues first in the order the checks are made |
| SquatCoach.Update | src/pose_coach/exercises/squats.py:23-72 | no person: state kept and three lines; otherwise step on the midpoint measurements |
| SquatCoach.DepthCueBlocksDescent | src/pose_coach/exercises/squats.py:53-64 | a frame with the depth cue never takes the squatter down, and a descent frame never shows it |
| BentOverRowCoach.Step | src/pose_coach/exercises/bent_over_rows.py:48-56 | down to up exactly below 70°, counting one; up to down exactly above 140° |
| BentOverRowCoach.Lines | src/pose_coach/exercises/bent_over_rows.py:46-68 | hinge cue exactly outside 20–60°; wrist cue exactly when the wrist strays; praise exactly when both pass; the feedback is exactly these lines, cues first in the order the checks are made |
| BentOverRowCoach.Update | src/pose_coach/exercises/bent_over_rows.py:23-68 | no person: state kept and three lines; otherwise step on the midpoint elbow angle |
| LungeCoach.FrontSide | src/pose_coach/exercises/lunges.py:36-43 | the left leg leads exactly when its stride is strictly longer, so a tie picks the right leg |
| LungeCoach.Step | src/pose_coach/exercises/lunges.py:45-56 | up to down exactly below 110°; down to up exactly above 160°, counting one |
| LungeCoach.Lines | src/pose_coach/exercises/lunges.py:46-64 | shin and depth cues each exactly when its check fails; praise exactly when both pass; the feedback is exactly these lines, cues first in the order the checks are made |
| LungeCoach.Update | src/pose_coach/exercises/lunges.py:21-66 | no person: state kept and three lines; otherwise step on the front leg's knee angle |
| LungeCoach.PraiseOnlyAtBottom | src/pose_coach/exercises/lunges.py:47-64 | a praised frame always leaves the machine in the down phase |
| RDLCoach.Step | src/pose_coach/exercises/rdl.py:45-52 | up to down exactly above 50° from horizontal; down to up exactly below 20°, counting one |
| RDLCoach.Lines | src/pose_coach/exercises/rdl.py:43-60 | hinge cue exactly outside 20–70°; knee cue exactly at 25° or more; praise exactly when both pass; the feedback is exactly these lines, cues first in the order the checks are made |
| RDLCoach.Update | src/pose_coach/exercises/rdl.py:21-62 | no person: state kept and three lines; otherwise step on the torso angle |
| RDLCoach.CountingFrameShowsHingeCue | src/pose_coach/exercises/rdl.py:43-56 | the frame that counts a repetition always shows the hinge cue, because the top lies outside the hinge band |
| LateralRaiseCoach.Step | src/pose_coach/exercises/lateral_raises.py:40-46 | down to up exactly when both elbows are within the shoulder band, counting one; up to down exactly when both are well below |
| LateralRaiseCoach.PhasesDisjoint | src/pose_coach/exercises/lateral_raises.py:35-41 | on a frame of non-negative height, no frame is both at the top and at the bottom |
| LateralRaiseCoach.Lines | src/pose_coach/exercises/lateral_raises.py:35-54 | one height cue when either arm is out of band; elbow cue exactly when a forearm is too steep; praise exactly when all pass; the feedback is exactly these lines, cues first in the order the checks are made |
| LateralRaiseCoach.Update | src/pose_coach/exercises/lateral_raises.py:21-55 | no person: state kept and three lines; otherwise step |
| LateralRaiseCoach.CountingFrameAtShoulderHeight | src/pose_coach/exercises/lateral_raises.py:42-50 | the frame that counts never shows the height cue |
| DeadliftCoach.Step | src/pose_coach/exercises/deadlift.py:44-51 | down to up exactly when the back is within 15° of vertical and the hips are above the knees, counting one; up to down exactly above 45° |
| DeadliftCoach.Lines | src/pose_coach/exercises/deadlift.py:53-58 | back cue exactly above 35°; hip cue exactly when the hips are below the shoulders; the reminder is always last, and alone when neither cue fires; cues come back before hips |
| DeadliftCoach.Update | src/pose_coach/exercises/deadlift.py:21-59 | no person: state kept and three lines; otherwise step |
| DeadliftCoach.DescentShowsBackCue | src/pose_coach/exercises/deadlift.py:45-55 | the frame that leaves the top always carries the flat-back cue |
| PushupCoach.Step | src/pose_coach/exercises/pushups.py:47-54 | up to down exactly below 80°; down to up exactly above 150°, counting one |
| PushupCoach.Lines | src/pose_coach/exercises/pushups.py:45-59 | below the status: the core cue when the hips sag, then always the reminder |
| PushupCoach.Update | src/pose_coach/exercises/pushups.py:23-60 | no person: state kept and three lines; otherwise step |
| LegPressCoach.Step | src/pose_coach/exercises/leg_press.py:42-49 | the new stage is up exactly on lockout or when holding up; down exactly at the bottom or when holding down; one count exactly on entering down; start is never re-entered; an angle between 90° and 160° changes nothing |
| LegPressCoach.StartNeverReentered | src/pose_coach/exercises/leg_press.py:17-49 | a run still in start began there, counted nothing, and saw only angles between 90° and 160° |
| LegPressCoach.Lines | src/pose_coach/exercises/leg_press.py:51-53 | always four lines; the tracking line is the valgus cue exactly when a knee caves in, otherwise the approval |
| LegPressCoach.Update | src/pose_coach/exercises/leg_press.py:21-54 | no person: state kept and three lines; otherwise step on the knee angle |
| CableWoodchopperCoach.Step | src/pose_coach/exercises/cable_woodchoppers.py:44-51 | concentric exactly when rotated and either extended or already concentric; one count exactly on entering it; start is left at the first counted chop and never re-entered |
| CableWoodchopperCoach.Lines | src/pose_coach/exercises/cable_woodchoppers.py:53-54 | three lines: header, status, reminder |
| CableWoodchopperCoach.Update | src/pose_coach/exercises/cable_woodchoppers.py:21-55 | no person: state kept and three lines; otherwise step |
| CableWoodchopperCoach.OneChopPerRotation | src/pose_coach/exercises/cable_woodchoppers.py:47-51 | holding the rotation never counts again |
| BenchPressCoach.Step | src/pose_coach/exercises/bench_press.py:42-49 | up to down exactly below 80°; down to up exactly above 150°, counting one |
| BenchPressCoach.Lines | src/pose_coach/exercises/bench_press.py:40-54 | the reminder comes third; the bar-path cue follows it exactly when the bar strays, and nothing else |
| BenchPressCoach.Update | src/pose_coach/exercises/bench_press.py:21-55 | no person: state kept and three lines; otherwise step |
| PullDownCoach.Step | src/pose_coach/exercises/pull_downs.py:42-49 | up to down exactly below 70°, counting one on entering the bottom; down to up exactly above 150° |
| PullDownCoach.Lines | src/pose_coach/exercises/pull_downs.py:40-54 | the reminder comes third; the grip cue follows it exactly when the grip is narrow, and nothing else |
| PullDownCoach.Update | src/pose_coach/exercises/pull_downs.py:21-55 | no person: state kept and three lines; otherwise step |
| BoxJumpCoach.Lower | src/pose_coach/exercises/box_jumps.py:32-33 | the ground line is never above the current ankles or the previous line, and it is one of the two |
| BoxJumpCoach.Step | src/pose_coach/exercises/box_jumps.py:32-41 | the phase is air exactly when the ankles are more than 8 px above the updated ground line; one jump is counted exactly on landing |
| BoxJumpCoach.FirstFrameGrounded | src/pose_coach/exercises/box_jumps.py:14-35 | the first frame sets the ground line and can never be airborne |
| BoxJumpCoach.GroundIsLowestAnkle | src/pose_coach/exercises/box_jumps.py:32-33 | over any run the ground line is the lowest ankle position seen: no ankle lies below it, and it is one of the seen positions or the starting line |
| BoxJumpCoach.Lines | src/pose_coach/exercises/box_jumps.py:43-48 | the knee cue exactly when the knees are not 12 px above the ground line; the reminder last, and nothing else |
| BoxJumpCoach.Update | src/pose_coach/exercises/box_jumps.py:19-49 | no person: state kept and `Jumps: N`; otherwise step, and judge the knees against the updated ground line |
| CalfRaiseCoach.Baseline | src/pose_coach/exercises/calf_raises.py:28-29 | a held baseline is kept; otherwise the current ankle height becomes it |
| CalfRaiseCoach.Step | src/pose_coach/exercises/calf_raises.py:28-39 | down to up exactly when the rise above the baseline exceeds 12 px, counting one; up to down exactly below 4 px; a rise between 4 and 12 px leaves the counter unchanged |
| CalfRaiseCoach.FirstFrameCountsNothing | src/pose_coach/exercises/calf_raises.py:28-36 | the first frame has no rise, so it stays down and counts nothing |
| CalfRaiseCoach.BaselineIsFirstSeen | src/pose_coach/exercises/calf_raises.py:28-29 | over any run, including frames without a person, the baseline is the one already held or the first ankle height seen |
| CalfRaiseCoach.Lines | src/pose_coach/exercises/calf_raises.py:41-42 | three lines: header, status, reminder |
| CalfRaiseCoach.Update | src/pose_coach/exercises/calf_raises.py:17-43 | no person: state kept and three lines; otherwise step |
| DoubleBicepsRater.Score | src/pose_coach/poses/double_biceps.py:39-63 | the sum of the weights 25, 25, 25, 25 and 10 of the passing left-level, right-level, left-flexed, right-flexed and symmetry checks, capped at 100; full marks exactly when both elbows are level and both are flexed, whatever the symmetry; 90 or more only at 100 |
| DoubleBicepsRater.Lines | src/pose_coach/poses/double_biceps.py:65-73 | level, flexion and symmetry cues each exactly when its check fails; the closing line exactly when all five checks pass; the feedback is exactly these lines, cues first in the order the checks are made |
| DoubleBicepsRater.Rate | src/pose_coach/poses/double_biceps.py:19-75 | no person: two lines; otherwise the scored lines |
| DoubleBicepsRater.FullMarksWithoutPraise | src/pose_coach/poses/double_biceps.py:61-73 | an asymmetric spread still scores 100 but shows the symmetry cue and no closing line |
| DoubleBicepsRater.OneElbowDropped | src/pose_coach/poses/double_biceps.py:53-67 | from a perfect pose, one elbow below the band gives 85 and the level cue |
| ArnoldPoseRater.Base | src/pose_coach/poses/arnold_pose.py:50-55 | 70 exactly when the arms are configured; 40 exactly for a same-arm attempt without the configuration; 0 otherwise |
| ArnoldPoseRater.Score | src/pose_coach/poses/arnold_pose.py:36-68 | exactly the configuration's base points plus 15 for each passing bonus check (level shoulders, flared elbows), capped at 100; 90 or more exactly when the arms are configured, the shoulders level and the elbows out; at most 70 without the configuration, at most 30 without even a same-arm attempt; at least 70 when configured and at least 40 for a same-arm attempt |
| ArnoldPoseRater.Lines | src/pose_coach/poses/arnold_pose.py:70-78 | three cues each exactly when its check fails; the closing line exactly at 90 or more, which is when all checks pass; the feedback is exactly these lines, cues first in the order the checks are made |
| ArnoldPoseRater.Rate | src/pose_coach/poses/arnold_pose.py:19-80 | no person: two lines; otherwise the scored lines |
| ArnoldPoseRater.SameArmAttempt | src/pose_coach/poses/arnold_pose.py:53-68 | one arm both overhead and flexed, with everything else in place, scores exactly 70 and shows the arms cue |
| AbdominalsAndThighsRater.Score | src/pose_coach/poses/ab_thigh.py:34-45 | the score is exactly the sum of the weights 35, 30 and 35 of the checks that pass, each check carrying the cue its failure shows; at most 100; 90 or more exactly when all three checks pass; 0 exactly when none do |
| AbdominalsAndThighsRater.Lines | src/pose_coach/poses/ab_thigh.py:46-54 | each cue exactly when its check fails; the closing line exactly at 90 or more, which is when all pass; the feedback is exactly these lines, cues first in the order the checks are made |
| AbdominalsAndThighsRater.Rate | src/pose_coach/poses/ab_thigh.py:19-55 | no person: two lines; otherwise the scored lines |
| SideTricepsRater.Score | src/pose_coach/poses/side_triceps.py:36-44 | the score is exactly the sum of the weights 60 and 40 of the checks that pass, each check carrying the cue its failure shows; at most 100; 90 or more exactly when an arm is extended and the elbows are near the torso |
| SideTricepsRater.Lines | src/pose_coach/poses/side_triceps.py:45-51 | extension cue exactly when neither arm passes 150°; elbow cue exactly when the elbows stray; the closing line exactly at 90 or more; the feedback is exactly these lines, cues first in the order the checks are made |
| SideTricepsRater.Rate | src/pose_coach/poses/side_triceps.py:19-52 | no person: two lines; otherwise the scored lines |
| SideChestRater.Score | src/pose_coach/poses/side_chest.py:36-44 | the score is exactly the sum of the weights 60 and 40 of the checks that pass, each check carrying the cue its failure shows; at most 100; 90 or more exactly when both arms are flexed and the chest is up |
| SideChestRater.Lines | src/pose_coach/poses/side_chest.py:45-51 | each cue exactly when its check fails; the closing line exactly at 90 or more; the feedback is exactly these lines, cues first in the order the checks are made |
| SideChestRater.Rate | src/pose_coach/poses/side_chest.py:19-52 | no person: two lines; otherwise the scored lines |
| FrontLatSpreadRater.Score | src/pose_coach/poses/front_lat_spread.py:31-43 | the sum of the weights 30, 30 and 40 of the passing left-flare, right-flare and level checks, both flares sharing one cue; at most 100; 90 or more exactly when both elbows flare and are level |
| FrontLatSpreadRater.Lines | src/pose_coach/poses/front_lat_spread.py:44-50 | one flare cue when either elbow fails; level cue exactly when the elbows are uneven; the closing line exactly at 90 or more; the feedback is exactly these lines, cues first in the order the checks are made |
| FrontLatSpreadRater.Rate | src/pose_coach/poses/front_lat_spread.py:18-51 | no person: two lines; otherwise the scored lines |
| FrontLatSpreadRater.CollapsedShouldersFlare | src/pose_coach/poses/front_lat_spread.py:31-33 | with zero shoulder width, any elbow off the shoulder line counts as flared |
| RearLatSpreadRater.Score | src/pose_coach/poses/back_lat_spread.py:29-41 | the sum of the weights 30, 30 and 40 of the passing left-flare, right-flare and level checks, both flares sharing one cue; at most 100; 90 or more exactly when both elbows flare and the hips are level |
| RearLatSpreadRater.Lines | src/pose_coach/poses/back_lat_spread.py:42-48 | one flare cue when either elbow fails; hip cue exactly when the hips are uneven; the closing line exactly at 90 or more; the feedback is exactly these lines, cues first in the order the checks are made |
| RearLatSpreadRater.Rate | src/pose_coach/poses/back_lat_spread.py:16-49 | no person: two lines; otherwise the scored lines |
| QuarterTurnsRater.Score | src/pose_coach/poses/quarter_turns.py:25-36 | the score is exactly the sum of the weights 35, 35 and 30 of the checks that pass, each check carrying the cue its failure shows; at most 100; 90 or more exactly when all three checks pass; 0 exactly when none do |
| QuarterTurnsRater.Lines | src/pose_coach/poses/quarter_turns.py:37-45 | each cue exactly when its check fails; the closing line exactly at 90 or more; the feedback is exactly these lines, cues first in the order the checks are made |
| QuarterTurnsRater.Rate | src/pose_coach/poses/quarter_turns.py:14-46 | no person: two lines; otherwise the scored lines |
| MostMuscularRater.Score | src/pose_coach/poses/most_muscular.py:25-34 | the score is exactly the sum of the weights 60 and 40 of the checks that pass, each check carrying the cue its failure shows; at most 100; 90 or more exactly when the elbows are in and the shoulders forward |
| MostMuscularRater.Lines | src/pose_coach/poses/most_muscular.py:35-41 | each cue exactly when its check fails; the closing line exactly at 90 or more; the feedback is exactly these lines, cues first in the order the checks are made |
| MostMuscularRater.Rate | src/pose_coach/poses/most_muscular.py:14-42 | no person: two lines; otherwise the scored lines |
| MostMuscularRater.ForwardMeansLevelShoulders | src/pose_coach/poses/most_muscular.py:27 | the "shoulders forward" test holds exactly when the two shoulders differ in height by less than a tenth of the frame |
| MoonPoseRater.Score | src/pose_coach/poses/moon_pose.py:29-37 | the score is exactly the sum of the weights 50 and 50 of the checks that pass, each check carrying the cue its failure shows; at most 100; 90 or more exactly when the torso tilts and the arms reach |
| MoonPoseRater.Lines | src/pose_coach/poses/moon_pose.py:38-44 | each cue exactly when its check fails; the closing line exactly at 90 or more; the feedback is exactly these lines, cues first in the order the checks are made |
| MoonPoseRater.Rate | src/pose_coach/poses/moon_pose.py:16-45 | no person: two lines; otherwise the scored lines |
| MoonPoseRater.UprightIsNotTilted | src/pose_coach/poses/moon_pose.py:29 | a torso upright enough for the quarter-turns test always gets the tilt cue here |
| VacuumPoseRater.Score | src/pose_coach/poses/vacuum.py:28-36 | the score is exactly the sum of the weights 50 and 50 of the checks that pass, each check carrying the cue its failure shows; at most 100; 90 or more exactly when both thresholds are passed |
| VacuumPoseRater.Lines | src/pose_coach/poses/vacuum.py:37-43 | each cue exactly when its check fails; the closing line exactly at 90 or more; the feedback is exactly these lines, cues first in the order the checks are made |
| VacuumPoseRater.Rate | src/pose_coach/poses/vacuum.py:14-44 | no person: two lines; otherwise the scored lines |
| VacuumPoseRater.StomachDecides | src/pose_coach/poses/vacuum.py:28-43 | on a frame of non-negative height, the stomach threshold implies the ribcage one, the score is 0, 50 or 100, and the closing line appears exactly when the stomach threshold passes |

## Left out

- The trigonometry and norms of the geometry helpers are not modelled. An uninterpreted `Oracle` supplies them, so no contract depends on their values.
- Floating-point rounding is not modelled. Coordinates and thresholds are exact reals. A frame lying within rounding distance of a threshold may be classified differently by the program.
- The landmark array is modelled as the twelve named joints the analyzers read, with real coordinates (the detector's integer pixels are a special case). The detector's array always holds every joint, so the analyzers' fixed-index reads cannot fail and are not modelled as index errors. General indexing is modelled in `Analyzer.Gather` and `Analyzer.SafePoints`. Of the confidences, only the two elbow values, which the side choice reads, are kept.
- The bicep coach's `side_hint` field is set in the constructor and never read. It is not modelled.
- Frame capture, drawing, the command-line entry point, the web app and its exercise/pose catalogue (including the alias that maps the back double biceps pose onto the double biceps rater) are outside the analysis core and are not modelled.
- Report.Cues: the contract gives only the number of cue lines. Which lines appear, and in what order, is stated by `Report.CuesOfFailures`, `Report.CuesAppend` and `Report.CueShown`.
- Text.Decimal: the contract states the shape of the digits. That they spell the number is stated by `Text.ValueOfDecimal`.
