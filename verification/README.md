# Verified model of the G1 navigation stack's decision logic

This Dafny project models the parts of the humanoid navigation stack that decide
things, and proves what they promise. It covers six programs.

* **BBS_2D global pose search** (`Arith`, `Pyramid`, `Scoring`, `Yaws`, `HitMap`, `Search`,
  `Frontier`, `Optimality`, `Policy`, `Traps`, `Bbs`, `Counterexamples`,
  `Exactness`, `BbsSearch`). An occupancy map is max-pooled into a pyramid, dilated into upper bounds, and searched best-first over (yaw, ty, tx) with
  pruning, optional non-maximum suppression, and a cache that switches from gathering cell
  by cell to one whole-level correlation map. `BbsSearch` is the program with its loops,
  edited candidate list and cache; `Search` is the state machine it is proved equal to;
  `Frontier`, `Optimality` and `Bbs` prove what every run of that machine does, `Policy` what it
  pops, queues, cuts and keeps whatever the bounds, and `Traps`, `Counterexamples` and `Exactness`
  exactly when its answer is the best one.
* **Motion gateway** (`Bridge`, `BridgeLaws`, `Gateway`). The ROS-side control tick and the SDK worker
  process around a bounded latest-value queue with its feeder thread, interleaved at single
  gets, puts and feeds.
* **FAST-LIO sensor packaging and local map** (`LioBuffers`, `LioRuns`, `LioLaws`, `LocalMap`). LiDAR
  and IMU buffers with their drop rules and caps, packaging of one scan with its IMU batch,
  and the sliding map cube with its deletion boxes.
* **Localizer** (`Kalman`, `Localizer`, `LocalizerLaws`). First lock, tracking gate, relocalization, freeze
  and Kalman smoothing, over arbitrary registration results.
* **Goal relay** (`GoalRelay`, `RelayLaws`). Clicks in, navigation goals out, one pending slot, callbacks
  in any order.
* **Ground-truth recovery verdict** (`RecoveryGt`). Stamp matching, first loss and
  recovered-window segmentation, proved equal to their declarative meaning.

`Options` and `Reals` hold what several models share.

Code that changes state is a class or a method with loops, proved against a specification
function of the old state; the lemmas are about those functions and about whole runs. The
`Laws` modules say what those functions decide without naming them: by stamps, counts,
thresholds and logs of what went in and out.

## Where code and documentation disagree

The model follows the code. Two documented claims, and one set of defaults, do not
hold up.

* The search is described as admissible
  (`src/lidar_localization_ros2/scripts/make_bbs_relocalization_attempts.py:6-8`). A coarse
  index of -1 counts as outside although a pose below that node can reach index 0, so a
  bound can lie under the score of a pose it covers. `Scoring.AdmissibleIff` gives the exact
  condition for the bounds and `Exactness.SearchExactIff` the exact condition for the search:
  every map that breaks it has a scan, at one or two sampled yaws, whose best pose is missed.
  `Exactness.UnrotatedMiss` is the smallest, a 1 x 3 map with three scan points.
* The goal relay describes itself as keeping a single active goal
  (`nav/g1_goal_to_nav.py:113`). A goal handle is recorded only when the server accepts the
  request, and a late cancel-done callback sends whatever waits in the slot. So two requests can
  be unanswered (`GoalRelay.TwoUnanswered`, `GoalRelay.LateCancelDone`) and two goals can run with
  the first handle overwritten (`GoalRelay.TwoRunning`). `GoalRelay.SingleGoalIff` says for every
  run when it does not happen, and `GoalRelay.PatienceKeepsOne` how a user can make sure.
* The fallback values `cube_side_length` 200 and `det_range` 300
  (`src/fast_lio/src/laserMapping.cpp:927-928`, `:963-964`) break the condition
  `cube_len >= 3 * DET_RANGE` under which sliding never deletes map points near the LiDAR
  (`LocalMap.DeletesOnlyFarIff`); a robot standing still then loses near points on the first tick
  (`LocalMap.StationaryIff`). So does `src/fast_lio/config/avia.yaml` (1000 and 450); the
  G1's own `config/mid360_g1.yaml` (1000 and 100) and the other configurations meet it.

One consequence of the segmentation code is easy to miss: a low-error sample that follows a
gap longer than the limit closes the open window and does not start a new one, so it belongs
to no window. `RecoveryGt.Good` states this.

## Reading the model

A score is an integer hit count; the program divides it by the number of points and compares
with a tolerance of 1e-12, which changes no comparison below 10^12 points. The -infinity that
the k-th score starts from is -1. `heapq` with unique keys is a sorted sequence, and
`list.sort` a stable insertion sort. The scan is turned by the cosine and sine of each sampled
yaw; the search's exactness uses only their values at 0 and at -pi. Stamps,
poses and filter values are reals; a non-finite velocity is a value of its own. `hide` statements only tell the verifier which definitions a proof does
not need.

## Model

| member | source | states |
|---|---|---|
| Arith.FloorDiv | src/lidar_localization_ros2/scripts/make_bbs_relocalization_attempts.py:193-198 | flooring a real divided by an integer factor equals integer floor division of its floor, so whole-cell offsets are enough at every level |
| Reals.NormalizeMeaning | src/lidar_localization_ros2/scripts/make_bbs_relocalization_attempts.py:90-91 | the normalized angle lies in [-pi, pi) and is whole turns away |
| Yaws.YawSamples | src/lidar_localization_ros2/scripts/make_bbs_relocalization_attempts.py:1028-1031 | at least one sample, each in [-pi, pi) |
| Yaws.YawSpacing | src/lidar_localization_ros2/scripts/make_bbs_relocalization_attempts.py:1028-1031 | consecutive samples are one n-th of a turn apart, at most the resolution, and n - 1 samples would be farther apart |
| Yaws.FewSamples | src/lidar_localization_ros2/scripts/make_bbs_relocalization_attempts.py:1028-1031 | a full turn of resolution samples 0, half a turn 0 and -pi |
| Yaws.TurnedIsTurned | src/lidar_localization_ros2/scripts/make_bbs_relocalization_attempts.py:203-204 | the turned point has cosine and sine times the squared length as its dot and cross product with the point: it is turned counter-clockwise |
| Yaws.TableIsTurned | src/lidar_localization_ros2/scripts/make_bbs_relocalization_attempts.py:200-205 | row y of the table is the whole scan turned counter-clockwise by sample y |
| Yaws.TwoYawTable | src/lidar_localization_ros2/scripts/make_bbs_relocalization_attempts.py:200-205 | at those two yaws the scan and its point reflection are searched |
| Pyramid.DilateMeaning | src/lidar_localization_ros2/scripts/make_bbs_relocalization_attempts.py:1018-1025 | or-ing the nine shifted views is true exactly where the 3 x 3 neighbourhood holds an occupied cell |
| Pyramid.DilateOneCell | src/lidar_localization_ros2/scripts/make_bbs_relocalization_attempts.py:1018-1025 | the accumulating double loop computes that dilation |
| Pyramid.BuildOccupancyPyramid | src/lidar_localization_ros2/scripts/make_bbs_relocalization_attempts.py:94-106 | the loop with its early break builds exactly the levels of PyramidOf |
| Pyramid.PyramidHeight | src/lidar_localization_ros2/scripts/make_bbs_relocalization_attempts.py:100-106 | the pyramid has depth + 1 levels or ends at its first single-cell level |
| Pyramid.BuildUpperBoundPyramid | src/lidar_localization_ros2/scripts/make_bbs_relocalization_attempts.py:109-115 | level 0 is the map itself, every other level is the one-cell dilation of its occupancy level |
| Pyramid.LevelMeaning | src/lidar_localization_ros2/scripts/make_bbs_relocalization_attempts.py:94-106 | for every map and level l: a cell is true iff its 2^l x 2^l block holds an occupied cell |
| Pyramid.LevelDims | src/lidar_localization_ros2/scripts/make_bbs_relocalization_attempts.py:1005-1015 | level l has ceil(h / 2^l) rows and ceil(w / 2^l) columns |
| Scoring.GatherAddCell | src/lidar_localization_ros2/scripts/make_bbs_relocalization_attempts.py:208-213 | merging one more point into the sorted offset table, as a new row or a higher count, adds exactly that point's hit to every gather |
| Scoring.ScoreMeaning | src/lidar_localization_ros2/scripts/make_bbs_relocalization_attempts.py:1034-1057 | the reference score is the number of points that, with the pose at a cell middle, lie in the square of an occupied cell |
| Scoring.FastScoringRefines | src/lidar_localization_ros2/scripts/make_bbs_relocalization_attempts.py:193-214 | the split floor, the merged duplicates and the gather give the point-by-point reference score at every aligned node of every grid and factor |
| HitMap.OffsetsMerged | src/lidar_localization_ros2/scripts/make_bbs_relocalization_attempts.py:208-213 | the offset table lists cells in row order, none twice and none empty, each with the number of points that fall in it |
| Scoring.ScanBound | src/lidar_localization_ros2/scripts/make_bbs_relocalization_attempts.py:136-155 | with the margin, a level's bound is at least the exact score of every in-grid pose below the node, for every scan |
| Scoring.MissedPoint | src/lidar_localization_ros2/scripts/make_bbs_relocalization_attempts.py:295-299 | every occupied cell outside the margin gives a one-point scan whose score is 1 below a node bounded at 0 |
| Scoring.AdmissibleIff | src/lidar_localization_ros2/scripts/make_bbs_relocalization_attempts.py:109-155 | a level's bounds are admissible on all scans if and only if every occupied cell keeps 2^l - 1 cells off the low edges or lies on the last row or column |
| HitMap.SlicedIsGather | src/lidar_localization_ros2/scripts/make_bbs_relocalization_attempts.py:216-267 | padding, flipping, circular convolution of any sufficient transform shape and slicing give the direct gather at every block |
| HitMap.FullHitMap | src/lidar_localization_ros2/scripts/make_bbs_relocalization_attempts.py:216-267 | the whole-level map is a table of direct gathers, for every non-empty offset table |
| HitMap.PadOf | src/lidar_localization_ros2/scripts/make_bbs_relocalization_attempts.py:314-317 | the four paddings keep the slice of every offset inside the padded grid |
| HitMap.AccumulateSlices | src/lidar_localization_ros2/scripts/make_bbs_relocalization_attempts.py:318-328 | accumulating count-weighted shifted slices gives a table of direct gathers |
| HitMap.SeedHitMap | src/lidar_localization_ros2/scripts/make_bbs_relocalization_attempts.py:313-328 | so does the seed map with its computed padding |
| Search.PushSorted | src/lidar_localization_ros2/scripts/make_bbs_relocalization_attempts.py:416-427 | a push with a fresh sequence number keeps the queue in pop order |
| Search.InsertRanked | src/lidar_localization_ros2/scripts/make_bbs_relocalization_attempts.py:1060-1061 | inserting a new pose by the candidate key keeps a ranked list ranked, with the same members plus the new one |
| Search.StepDecreases | src/lidar_localization_ros2/scripts/make_bbs_relocalization_attempts.py:345-426 | every pop strictly lowers the summed subtree sizes of the open nodes |
| Frontier.ChildrenTileParent | src/lidar_localization_ros2/scripts/make_bbs_relocalization_attempts.py:391-398 | the four children cover each pose of their parent exactly once and no other pose |
| Frontier.InitTiles | src/lidar_localization_ros2/scripts/make_bbs_relocalization_attempts.py:306-339 | the seeds cover every in-grid pose exactly once, on a well-formed queue |
| Frontier.StepTiles | src/lidar_localization_ros2/scripts/make_bbs_relocalization_attempts.py:345-426 | a pop moves each pose of the popped block to exactly one of queue, scored leaves, pruned subtrees |
| Frontier.FrontierTiles | src/lidar_localization_ros2/scripts/make_bbs_relocalization_attempts.py:306-426 | in every reachable state each pose is in exactly one open node, scored leaf or pruned subtree; no leaf is scored twice |
| Frontier.RunEnds | src/lidar_localization_ros2/scripts/make_bbs_relocalization_attempts.py:345-426 | the loop is over within as many pops as the seeds' summed subtree sizes |
| Frontier.RunIsAfter | src/lidar_localization_ros2/scripts/make_bbs_relocalization_attempts.py:345-426 | the recursive run and the pop-by-pop states agree at every point |
| Frontier.ResultHonest | src/lidar_localization_ros2/scripts/make_bbs_relocalization_attempts.py:341-429 | whatever the bounds, suppression on or off: at most k candidates come back, each in the grid with its own level-0 score |
| Policy.SeedOrder | src/lidar_localization_ros2/scripts/make_bbs_relocalization_attempts.py:331-339 | seeds are numbered through by yaw, block row and block column |
| Policy.PopsFirst | src/lidar_localization_ros2/scripts/make_bbs_relocalization_attempts.py:345-349 | the popped node has the greatest bound and, among equals, was queued first |
| Policy.StopsIff | src/lidar_localization_ros2/scripts/make_bbs_relocalization_attempts.py:345-349 | the loop stops exactly when the queue is empty or its head could not beat the last of k kept scores |
| Policy.ChildQueuedIff | src/lidar_localization_ros2/scripts/make_bbs_relocalization_attempts.py:394-426 | a child is left out exactly when it is off the grid, or the list is full and its bound is below the last kept score |
| Policy.CutBelow | src/lidar_localization_ros2/scripts/make_bbs_relocalization_attempts.py:414-415 | whatever an expansion cuts had a bound strictly below the last of k kept scores |
| Policy.SuppressMeaning | src/lidar_localization_ros2/scripts/make_bbs_relocalization_attempts.py:366-383 | a new candidate is appended when none is in range; otherwise only the first in range changes, exactly when the new one scores more |
| Policy.AddFirst | src/lidar_localization_ros2/scripts/make_bbs_relocalization_attempts.py:384-389 | suppression off: keeping the k first of the scored poses is preserved by every new one |
| Policy.RunLawful | src/lidar_localization_ros2/scripts/make_bbs_relocalization_attempts.py:345-426 | in every reachable state, suppression off, the list is the k first of the poses scored and every cut node is bounded below its last score |
| Policy.AnyBounds | src/lidar_localization_ros2/scripts/make_bbs_relocalization_attempts.py:341-429 | admissible bounds or not, suppression off: the result is the k first of the poses scored, and every other pose lies below a node whose bound could not beat the last of them |
| Policy.TiesInCountingOrder | src/lidar_localization_ros2/scripts/make_bbs_relocalization_attempts.py:1060-1061 | equal scores rank in the order in which yaws, rows and columns are counted through |
| Optimality.TopKResult | src/lidar_localization_ros2/scripts/make_bbs_relocalization_attempts.py:341-429 | suppression off, admissible bounds: distinct poses with exact scores in rank order, and every pose left out scores no more than the last of k |
| Optimality.TopKCount | src/lidar_localization_ros2/scripts/make_bbs_relocalization_attempts.py:386-387 | such a list has min(k, number of poses) entries |
| Optimality.Outranking | src/lidar_localization_ros2/scripts/make_bbs_relocalization_attempts.py:384-389 | every pose scoring above position i of the list comes before position i |
| Optimality.TopKUnique | src/lidar_localization_ros2/scripts/make_bbs_relocalization_attempts.py:384-429 | two such lists have equal length and equal scores at every rank: only tie choices are free |
| Optimality.ExhaustiveIsTopK | src/lidar_localization_ros2/scripts/make_bbs_relocalization_attempts.py:118-133 | scoring every pose, sorting and cutting at k is such a list |
| Optimality.SearchIsExhaustive | src/lidar_localization_ros2/scripts/make_bbs_relocalization_attempts.py:341-429 | fast search and exhaustive ranking have the same length and the same score at every rank |
| Optimality.SuppressedResult | src/lidar_localization_ros2/scripts/make_bbs_relocalization_attempts.py:366-389 | suppression on: returned poses are pairwise out of range, and any pose above the last returned score (any pose at all, when fewer than k return) is in range of a returned pose scoring at least as high |
| Policy.SuppressedCells | src/lidar_localization_ros2/scripts/make_bbs_relocalization_attempts.py:366-383 | the same in cells: returned poses are over the radius apart on some axis, and a pose above the last returned score is within it on both of one scoring no less |
| Optimality.LeavesInOrder | src/lidar_localization_ros2/scripts/make_bbs_relocalization_attempts.py:345-414 | in every reachable state the scored leaves are in non-increasing score and no child has been pruned |
| Optimality.NothingReplaced | src/lidar_localization_ros2/scripts/make_bbs_relocalization_attempts.py:366-387 | a scored leaf is absorbed or inserted; the replacement branch and the truncation never change the list |
| Bbs.BoundIsScore | src/lidar_localization_ros2/scripts/make_bbs_relocalization_attempts.py:272-301 | what the search reads for an aligned node is the reference score on the level's grid |
| Bbs.ExactIsScore | src/lidar_localization_ros2/scripts/make_bbs_relocalization_attempts.py:118-133 | what it reads for a leaf is the reference score on the map itself |
| Bbs.CandidatesHonest | src/lidar_localization_ros2/scripts/make_bbs_relocalization_attempts.py:351-365 | on every map, scan and setting a returned hit count is the reference score of its pose, at most the number of points |
| Bbs.MarginAdmits | src/lidar_localization_ros2/scripts/make_bbs_relocalization_attempts.py:136-155 | the start level's margin makes every bound at every level admissible |
| Bbs.MarginMakesExhaustive | src/lidar_localization_ros2/scripts/make_bbs_relocalization_attempts.py:118-429 | on any map with the margin, any scan and k, suppression off: the search has the length and rank-by-rank scores of an exhaustive ranking, and each score is the reference score of its own pose |
| Bbs.MarginMakesExact | src/lidar_localization_ros2/scripts/make_bbs_relocalization_attempts.py:341-429 | with the margin the k best come back, for every table of rotated points and every k, suppression off |
| Traps.HeadAbove | src/lidar_localization_ros2/scripts/make_bbs_relocalization_attempts.py:345-349 | in a trapped run the head of a live queue holds a goal only above the level at which goals hide |
| Traps.TrappedLeaf | src/lidar_localization_ros2/scripts/make_bbs_relocalization_attempts.py:351-390 | scoring a leaf keeps the trap shut: no goal scored, every goal outbid |
| Traps.TrappedExpand | src/lidar_localization_ros2/scripts/make_bbs_relocalization_attempts.py:391-426 | so does expanding a node, whatever is queued or pruned |
| Traps.TrapFails | src/lidar_localization_ros2/scripts/make_bbs_relocalization_attempts.py:341-429 | no search over a trap, whatever its ties, returns a best pose |
| Counterexamples.BackIsTrap | src/lidar_localization_ros2/scripts/make_bbs_relocalization_attempts.py:272-301 | occupied cells on the first of three or more lines only: two points one cell back and one two cells back, at one yaw, make a trap |
| Counterexamples.EdgeIsTrap | src/lidar_localization_ros2/scripts/make_bbs_relocalization_attempts.py:272-301 | on the first of two lines only: a point on a cell edge, turned about, makes a trap |
| Counterexamples.PinIsTrap | src/lidar_localization_ros2/scripts/make_bbs_relocalization_attempts.py:272-301 | an occupied cell off the margin and one beyond the first line: points pinned to the first and last occupied cell make a trap whose only goal hides under a seed |
| Exactness.RealTrap | src/lidar_localization_ros2/scripts/make_bbs_relocalization_attempts.py:158-301 | every occupied cell off the margin, along either axis, has a scan and an angular resolution at which the search returns no best pose |
| Exactness.RealInstance | src/lidar_localization_ros2/scripts/make_bbs_relocalization_attempts.py:178-205 | the instance searched has the map, a yaw for each sample and, for every pose, the reference score of the turned scan |
| Exactness.SearchExactIff | src/lidar_localization_ros2/scripts/make_bbs_relocalization_attempts.py:158-429 | for every scan, angular resolution and k, suppression off, the search returns the k best if and only if the occupied cells keep the start level's margin |
| Exactness.TableExactIff | src/lidar_localization_ros2/scripts/make_bbs_relocalization_attempts.py:158-429 | the same over every table of rotated points, one list a yaw |
| Exactness.UnrotatedMiss | src/lidar_localization_ros2/scripts/make_bbs_relocalization_attempts.py:158-429 | a 1 x 3 map and a three-point, one-yaw scan on which the returned candidate is not the best pose |
| BbsSearch.BuildOffsetCache | src/lidar_localization_ros2/scripts/make_bbs_relocalization_attempts.py:199-214 | the double loop fills every (yaw, level) with the merged offset table of the scan turned counter-clockwise by that yaw |
| BbsSearch.ScaledMeaning | src/lidar_localization_ros2/scripts/make_bbs_relocalization_attempts.py:178 | a scaled coordinate times the resolution is the coordinate in metres |
| BbsSearch.HitScorer.CachedValue | src/lidar_localization_ros2/scripts/make_bbs_relocalization_attempts.py:275-279 | the cached entry of an in-grid pose is in range and is the direct gather |
| BbsSearch.HitScorer.GatherHits | src/lidar_localization_ros2/scripts/make_bbs_relocalization_attempts.py:272-301 | cold, turning hot or cached, any call history: the answer is the direct gather |
| BbsSearch.QueueRow | src/lidar_localization_ros2/scripts/make_bbs_relocalization_attempts.py:330-335 | one row of seeds is pushed in column order with the direct bounds |
| BbsSearch.SeedQueue | src/lidar_localization_ros2/scripts/make_bbs_relocalization_attempts.py:303-339 | the seeded queue and sequence number are the initial state of the search |
| BbsSearch.AddCandidate | src/lidar_localization_ros2/scripts/make_bbs_relocalization_attempts.py:366-383 | the first candidate in range absorbs or is replaced by the new one, otherwise it is appended |
| BbsSearch.ScorePopped | src/lidar_localization_ros2/scripts/make_bbs_relocalization_attempts.py:351-390 | scoring a leaf leaves the specified sorted, capped list and a valid cache |
| BbsSearch.QueueChild | src/lidar_localization_ros2/scripts/make_bbs_relocalization_attempts.py:394-426 | one child is skipped outside the grid, pruned below the k-th score, or queued |
| BbsSearch.QueueChildren | src/lidar_localization_ros2/scripts/make_bbs_relocalization_attempts.py:391-426 | the nested loop queues the surviving children in visiting order |
| BbsSearch.BestFirst | src/lidar_localization_ros2/scripts/make_bbs_relocalization_attempts.py:303-429 | the loop with its caches, early break and running k-th score terminates with the result of the cache-free search |
| BbsSearch.SearchScan | src/lidar_localization_ros2/scripts/make_bbs_relocalization_attempts.py:178-429 | pyramids, yaws, offset tables and search composed: the candidates reported are those of the specified search, over the instance `Exactness.RealInstance` describes |
| BbsSearch.ReportedScores | src/lidar_localization_ros2/scripts/make_bbs_relocalization_attempts.py:351-365 | a reported score is the fraction of scan points that land on occupied cells, in [0, 1], with its yaw and point count |
| BbsSearch.ReportedTurned | src/lidar_localization_ros2/scripts/make_bbs_relocalization_attempts.py:200-365 | the hits reported are the points that land on occupied cells when the scan is turned counter-clockwise by the yaw reported |
| BbsSearch.BranchAndBoundCandidates | src/lidar_localization_ros2/scripts/make_bbs_relocalization_attempts.py:158-429 | empty results and errors, shape errors included, in the order of the checks; otherwise the reported candidates of the search over the scaled scan turned by every sampled yaw, the turn by `Yaws.TableIsTurned` and `BbsSearch.ReportedTurned` |
| Bridge.FiniteClamp | host/g1_cmd_vel_bridge.py:51-55 | non-finite input gives zero, a finite one lands in range and is unchanged when already there |
| Bridge.BridgeNode.HandleCmd | host/g1_cmd_vel_bridge.py:165-167 | the whole new state after a Twist |
| Bridge.BridgeNode.HandleTick | host/g1_cmd_vel_bridge.py:212-261 | the whole new state and output of a tick; the first-motion cap, being equal to the normal cap, never changes a command |
| Bridge.ArmedFromMeaning | host/g1_cmd_vel_bridge.py:216-222 | the recorded arming tick is a tick that saw the arm file, as did every tick since, while the tick before it did not |
| Bridge.ReplayTracks | host/g1_cmd_vel_bridge.py:165-261 | over every history the fields equal their declarative readings and the outputs stay in range |
| Bridge.NonzeroIsJustified | host/g1_cmd_vel_bridge.py:212-261 | a nonzero output comes only from a tick armed for at least 1.0 s with the latest Twist received after arming and at most 0.30 s old |
| Bridge.SlewBound | host/g1_cmd_vel_bridge.py:250-259 | an enabled tick moves each output by at most its rate times min(0.25, dt); any other tick outputs zero |
| Bridge.RampBound | host/g1_cmd_vel_bridge.py:250-259 | over every run each speed is at most its rate times the time since that output was last zero |
| Bridge.FullSpeedTakesTwoSeconds | host/g1_cmd_vel_bridge.py:250-259 | full forward speed is never reached within 2 s of a zero output |
| BridgeLaws.EnabledIff | host/g1_cmd_vel_bridge.py:216-248 | a tick moves the robot if and only if the history justifies it: armed for the settle time, the latest Twist after arming and fresh |
| BridgeLaws.TickLaw | host/g1_cmd_vel_bridge.py:212-261 | a justified tick brings each output as near as its rate allows to what the latest Twist asks, forward speed from linear x and turning from angular z; any other outputs zero |
| BridgeLaws.CmdLaw | host/g1_cmd_vel_bridge.py:165-167 | a Twist by itself moves neither output |
| Gateway.CommandQueue.GetNowait | host/g1_cmd_vel_bridge.py:61-63 | takes the oldest item, or reports empty |
| Gateway.CommandQueue.PutNowait | host/g1_cmd_vel_bridge.py:66-67 | appends below the bound, refuses at it |
| Gateway.CommandQueue.PutLatest | host/g1_cmd_vel_bridge.py:58-67 | with nothing left in the feeder, whatever was queued, only the newest command is left |
| Gateway.StepKeepsInv | host/g1_cmd_vel_bridge.py:58-117 | every single get, put, feed, send, failure or callback of either process keeps the joint invariant |
| Gateway.EndToEndSafety | host/g1_cmd_vel_bridge.py:51-104 | over every interleaving a nonzero SetVelocity has vx in [0, 0.20], vy = 0, wz in [-0.20, 0.20] and carries the output of a justified tick |
| Gateway.LatestValueQueue | host/g1_cmd_vel_bridge.py:58-104 | over every interleaving, feeder thread included: the commands used are a subsequence of those emitted, in order, and at most two are unread; that they are the newest is `Gateway.WorkerUsesNewest` |
| Gateway.RunNewest | host/g1_cmd_vel_bridge.py:58-104 | over every interleaving the hand is the last item taken; what was fed is in the pipe, taken or drained; each of these logs is in emission order |
| Gateway.WorkerUsesNewest | host/g1_cmd_vel_bridge.py:92-104 | the command in hand is the newest the worker ever took off the pipe, and a send that has not expired carries it |
| Gateway.EmptyPipeNewest | host/g1_cmd_vel_bridge.py:58-97 | when the worker finds the pipe empty, anything newer that had reached it was drained for a command newer still, emitted or about to be |
| Gateway.NewestFedIff | host/g1_cmd_vel_bridge.py:58-97 | the hand of a worker that found the pipe empty is the newest command fed to it if and only if nothing newer was drained |
| Gateway.DrainBeatsWorker | host/g1_cmd_vel_bridge.py:58-97 | a run in which a drain that has just ended leaves the worker with an older command than one that had reached the pipe |
| Gateway.DrainedIsOlder | host/g1_cmd_vel_bridge.py:58-65 | the producer drains only what is older than the command it is about to put |
| Gateway.ShutdownLaw | host/g1_cmd_vel_bridge.py:88-117 | the stop event is set exactly once the final zero is put; then no get is entered, and the worker ends with five zero calls |
| Gateway.RefusedIff | host/g1_cmd_vel_bridge.py:58-67 | over every run a put is refused if and only if some put finds two commands unread |
| Gateway.LaggingFeederRefuses | host/g1_cmd_vel_bridge.py:58-67 | a run in which the feeder lags two ticks and the third put is refused |
| Gateway.PromptRun | host/g1_cmd_vel_bridge.py:58-67 | when the feeder has passed on each command before the next tick and no drain is cut short, no put is refused and at most one command is unread |
| Gateway.SilenceStops | host/g1_cmd_vel_bridge.py:88-117 | once the producer falls silent the worker makes at most three more nonzero calls, one in hand and two unread |
| Gateway.PromptSilenceStops | host/g1_cmd_vel_bridge.py:58-117 | after a prompt run at most two more, and no put was refused |
| LioBuffers.Mapper.StandardPclCbk | src/fast_lio/src/laserMapping.cpp:291-340 | a glitched stamp changes nothing; otherwise the whole new state |
| LioBuffers.Mapper.AcceptCloud | src/fast_lio/src/laserMapping.cpp:316-336 | a stamp that is no glitch: both buffers grow by one and keep their newest 100, and the clocks may synchronise |
| LioLaws.AcceptedIff | src/fast_lio/src/laserMapping.cpp:291-315 | over every run a cloud is accepted if and only if it is the first or its stamp lies between the last accepted stamp and 5 s past it; otherwise nothing changes |
| LioBuffers.Mapper.CapLidarBuffers | src/fast_lio/src/laserMapping.cpp:325-330 | the cap loop keeps the newest 100 of both buffers |
| LioBuffers.Mapper.SelfSync | src/fast_lio/src/laserMapping.cpp:331-336 | the clock offset is set at most once, from stamps over a second apart |
| LioLaws.ClockSetIff | src/fast_lio/src/laserMapping.cpp:331-336 | an accepted cloud sets the offset if and only if synchronisation is on, none is set, samples wait and the clocks are over 1 s apart; the last sample then lands 0.1 s after the cloud |
| LioLaws.ClockKept | src/fast_lio/src/laserMapping.cpp:331-336 | no other callback touches the offset, and once set it stays |
| LioBuffers.Mapper.ImuCbk | src/fast_lio/src/laserMapping.cpp:427-458 | the corrected stamp; a backward stamp empties the buffer, which then keeps its newest 2000 |
| LioLaws.SampleStamp | src/fast_lio/src/laserMapping.cpp:427-441 | a sample is kept with the offset added when that is over 0.1 s and synchronisation is on, else with the fixed delay taken off |
| LioLaws.LastReceived | src/fast_lio/src/laserMapping.cpp:441-450 | the last received stamp is that of the last sample, over every run |
| LioBuffers.Mapper.CapImuBuffer | src/fast_lio/src/laserMapping.cpp:455 | the cap loop keeps the newest 2000 |
| LioBuffers.Mapper.OpenLidarScan | src/fast_lio/src/laserMapping.cpp:472-501 | the scan's end time and running mean, believed only between half the mean and one second |
| LioLaws.OpeningLaw | src/fast_lio/src/laserMapping.cpp:472-501 | a scan opens at the front stamp and lasts as long as its last point says when that is at least half the mean and at most 1 s, and then the span enters the mean; otherwise it lasts the mean |
| LioLaws.OpenStays | src/fast_lio/src/laserMapping.cpp:472-501 | an open scan keeps its frame and its times until it goes out |
| LioBuffers.Mapper.PushScan | src/fast_lio/src/laserMapping.cpp:472-501 | an open scan stays, otherwise the front frame is opened |
| LioBuffers.Mapper.PopImuBatch | src/fast_lio/src/laserMapping.cpp:513-523 | the loop pops exactly a prefix of the buffer, split where the scan ends |
| LioBuffers.Mapper.TakePackage | src/fast_lio/src/laserMapping.cpp:513-535 | the package is the open scan with the popped batch, and the front frame leaves both buffers |
| LioBuffers.Mapper.SyncPackages | src/fast_lio/src/laserMapping.cpp:462-536 | ready or not, the whole new state and the package delivered; when that is, is `LioLaws.DeliversIff` |
| LioLaws.DeliversIff | src/fast_lio/src/laserMapping.cpp:462-536 | a sync delivers if and only if no buffer is empty and the last received stamp has reached the scan end; otherwise it only leaves the scan open |
| LioLaws.PackagesWait | src/fast_lio/src/laserMapping.cpp:504-512 | over every order of callbacks no package goes out before a sample at or past its end has been received, after all of its own |
| LioLaws.LaterSamples | src/fast_lio/src/laserMapping.cpp:504-523 | unless a backward stamp arrives, every sample in a later package or still buffered is at or past the end of each earlier package |
| LioLaws.BatchExact | src/fast_lio/src/laserMapping.cpp:513-523 | the batch is exactly the samples before the end, and one at the end when some are before it; with none before it the batch is empty |
| LioRuns.BuffersInStep | src/fast_lio/src/laserMapping.cpp:291-340 | in every reachable state the LiDAR buffers are level, at most 100 long, with stamps in order and at most 5 s apart, and the IMU buffer is sorted |
| LioRuns.FramesDelivered | src/fast_lio/src/laserMapping.cpp:291-536 | accepted frames = buffered + delivered + evicted; each is delivered at most once, in arrival order, with its own stamp |
| LioRuns.NothingLostIff | src/fast_lio/src/laserMapping.cpp:325-330 | the packages are exactly the frames that left the buffer, in order, if and only if the cap never evicted |
| LioRuns.SamplesDelivered | src/fast_lio/src/laserMapping.cpp:427-536 | each IMU sample is delivered at most once, in arrival order |
| LioRuns.SamplesConserved | src/fast_lio/src/laserMapping.cpp:427-536 | received samples = delivered + buffered + evicted by the cap + cleared by a backward stamp; the batches followed by the buffer are all of them, in order, if and only if none was evicted or cleared |
| LioRuns.TakenSplits | src/fast_lio/src/laserMapping.cpp:513-523 | on a sorted buffer the batch holds stamps <= the scan end and leaves only stamps >= it |
| LioRuns.BatchIsPrefix | src/fast_lio/src/laserMapping.cpp:513-523 | in every reachable state the delivered batch is such a prefix of the buffer |
| LioRuns.StallGuard | src/fast_lio/src/laserMapping.cpp:460-501 | the mean scan time is the exact average of the accepted spans and stays in [0, 1]; every package lasts between 0 and 1 s whatever the last point says |
| LioRuns.RunKeeps | src/fast_lio/src/laserMapping.cpp:291-536 | every order of callbacks keeps all buffer, order, conservation and scan-time invariants |
| LocalMap.Segmenter.LasermapFovSegment | src/fast_lio/src/laserMapping.cpp:240-288 | first call centres the cube; later calls give the slid cube and the deletion boxes |
| LocalMap.Segmenter.EdgeDistances | src/fast_lio/src/laserMapping.cpp:255-261 | the distances to both edges on every axis, and no near edge is missed |
| LocalMap.Segmenter.Slide | src/fast_lio/src/laserMapping.cpp:263-280 | the axis loop slides each near axis and records its slab |
| LocalMap.SlidesIff | src/fast_lio/src/laserMapping.cpp:255-265 | the cube stays where it is if and only if every face is over one and a half detection ranges from the LiDAR |
| LocalMap.SlideAmount | src/fast_lio/src/laserMapping.cpp:263-280 | how far and to which side each axis slides, the low side first |
| LocalMap.SettlesAtOnceIff | src/fast_lio/src/laserMapping.cpp:263-280 | from anywhere inside the cube one slide leaves no face near, if and only if 3 * cube_len > 19 * DET_RANGE |
| LocalMap.SlideCovers | src/fast_lio/src/laserMapping.cpp:263-280 | every point of the old cube is in the new cube or in a deletion box |
| LocalMap.SlabTouchesFace | src/fast_lio/src/laserMapping.cpp:263-280 | a deletion box meets the new cube only on a face of it |
| LocalMap.RunKeepsCube | src/fast_lio/src/laserMapping.cpp:240-288 | over every track all three sides keep length cube_len |
| LocalMap.DeletesOnlyFarIff | src/fast_lio/src/laserMapping.cpp:255-280 | no slide, from any LiDAR position, deletes a point nearer than DET_RANGE if and only if cube_len >= 3 * DET_RANGE |
| LocalMap.ShortCubeDeletesNear | src/fast_lio/src/laserMapping.cpp:265-280 | a position at which a shorter cube deletes a near point |
| LocalMap.PointsAccountedFor | src/fast_lio/src/laserMapping.cpp:240-288 | a point ever inside the cube is inside it now or was deleted by some slide |
| LocalMap.StationaryIff | src/fast_lio/src/laserMapping.cpp:240-280 | on the first tick after initialization, the LiDAR standing still, no near point is deleted if and only if cube_len >= 3 * DET_RANGE |
| LocalMap.RunDeletesOnlyFarIff | src/fast_lio/src/laserMapping.cpp:240-288 | no slide of any run from a given start deletes near the LiDAR if and only if cube_len >= 3 * DET_RANGE |
| Kalman.KalmanScalar.constructor | src/localizer.py:400-408 | a new filter is a reset one |
| Kalman.KalmanScalar.ResetTo | src/localizer.py:400-419 | the estimate restarts at the seed with unit variance |
| Kalman.KalmanScalar.Observe | src/localizer.py:400-419 | the whole new state after a measurement, or the division error when the gain has no denominator |
| Kalman.StepVariance | src/localizer.py:400-419 | with positive noise, after every step the variance is in (0, R), and the gain in (0, 1) |
| Kalman.StepIsWeightedMean | src/localizer.py:400-419 | the estimate is the mean of prediction and measurement, each weighted by the variance of the other, and the variance their product over their sum |
| Kalman.StepShrinksIff | src/localizer.py:400-419 | one step does not raise the variance if and only if R Q <= P (P + Q) |
| Kalman.NonIncreasingIff | src/localizer.py:400-419 | after a reset the variance never rises, over any measurements, if and only if R Q <= 1 + Q |
| Kalman.FilterHull | src/localizer.py:400-419 | over any run the estimate stays between the bounds of its seed and measurements |
| Kalman.WrapNearMeaning | src/localizer.py:978-986 | the yaw fed in differs from the measured yaw by whole turns and from the state by at most half a turn |
| Localizer.LocalizerNode.SeedKalmans | src/localizer.py:1010-1017 | the four filters restart at the pose and nothing else changes |
| Localizer.LocalizerNode.SmoothTf | src/localizer.py:971-1008 | filters on: each takes its own coordinate and their estimate is returned; off: x and y are blended with the published pose, z taken over, the attitude interpolated |
| LocalizerLaws.ConfidentLaw | src/localizer.py:971-1008 | filters on, a confident match moves each published coordinate to the weighted mean of its own filter and its own measurement, the yaw up to whole turns |
| LocalizerLaws.BlendLaw | src/localizer.py:971-1008 | filters off, x and y go the share alpha of the way to the match |
| LocalizerLaws.UnconfidentLaw | src/localizer.py:1273-1340 | a match taken below the confidence threshold changes nothing that is published |
| LocalizerLaws.PublishedOnFloor | src/localizer.py:1194-1340 | over any run after the lock the published height is the floor's |
| Localizer.LocalizerNode.FirstLocalizeScan | src/localizer.py:1194-1236 | lock or no lock, the whole new state |
| Localizer.LocalizerNode.TrackScan | src/localizer.py:1238-1368 | accept, hold, lose or relocalize, the whole new state; which of them, is `LocalizerLaws.TrackLaw` |
| LocalizerLaws.TrackLaw | src/localizer.py:1238-1358 | the match is taken if and only if it meets fitness, error, tilt, ceiling and drift or margin (or settling); failing that a global match after enough losses if and only if it meets its thresholds; failing both the pose is held and one more loss counted |
| LocalizerLaws.FirstLockLaw | src/localizer.py:1194-1236 | the first lock is taken if and only if the global match meets fitness and tilt and lies near the hint; it is published either way |
| LocalizerLaws.IdleLaw | src/localizer.py:905-967 | a tick without transform or cloud, and a frozen localizer, change nothing |
| LocalizerLaws.MapPoseIsSound | src/localizer.py:1238-1358 | over any run the map pose is the one it started from or that of a registration result that met its fitness, error and tilt thresholds |
| LocalizerLaws.HopelessRun | src/localizer.py:1238-1358 | through any number of ticks whose matches miss a threshold the pose and all that is published are held, and each counts as a loss |
| Localizer.LocalizerNode.LocalizeTick | src/localizer.py:905-967 | frozen, not ready, first lock or tracking, the whole new state |
| Localizer.LocalizerNode.constructor | src/localizer.py:789-792 | the filters start reset at the initial pose |
| Localizer.TickWithinAllowance | src/localizer.py:1238-1358 | one tick moves the map pose by no more than it adds to the run's allowance |
| Localizer.PathBound | src/localizer.py:1238-1358 | over any run the way of the map pose, back and forth included, is at most the steady drift budgets, plus the per-tick ceiling for each settle tick and justified jump, plus the recovery bound for each relocalization |
| Localizer.DriftBound | src/localizer.py:1238-1358 | so the map pose is never farther than that from where the run started |
| Localizer.SettleTicksBounded | src/localizer.py:1253-1260 | settle ticks used and left never exceed the grace period times the locks |
| Localizer.FirstLockNearHint | src/localizer.py:1207-1220 | the locking tick puts the map pose within the bound around the hint and starts the grace period |
| Localizer.HintBound | src/localizer.py:1207-1358 | from the first lock on, the distance to the hint is bounded by hint bound plus allowance, with settle ticks <= grace * (1 + relocalizations) |
| Localizer.FrozenForever | src/localizer.py:905-922 | a frozen, initialized localizer never changes again |
| Localizer.PublishedIsEstimate | src/localizer.py:1273-1340 | while tracking with the filters on, the published pose is always their estimate |
| Localizer.PublishedInHull | src/localizer.py:971-1008 | filters on or off, the published position never leaves a box holding its seed and every registration result |
| GoalRelay.GoalToNav.SendGoal | nav/g1_goal_to_nav.py:373-387 | the whole new state and the request sent |
| GoalRelay.GoalToNav.TakePending | nav/g1_goal_to_nav.py:324-338 | the slot is emptied and its click sent, if there is one |
| GoalRelay.GoalToNav.HandleGoal | nav/g1_goal_to_nav.py:193-277 | rejected, queued behind a cancel or sent, the whole new state and the requests made |
| RelayLaws.RejectedIff | nav/g1_goal_to_nav.py:193-277 | over every run a click is rejected if and only if it is over 15 s old, has no map pose, was the last to succeed, is close to a click sent under 5 s ago, or is close to the held goal; otherwise it waits if and only if a handle is held |
| GoalRelay.GoalToNav.HandleCancelDone | nav/g1_goal_to_nav.py:324-330 | the goal is cleared, then the slot is sent |
| GoalRelay.GoalToNav.HandleSpinCancelDone | nav/g1_goal_to_nav.py:332-338 | the spin is cleared, then the slot is sent |
| GoalRelay.GoalToNav.HandleCancelNavigation | nav/g1_goal_to_nav.py:340-365 | false ends the grace period, true outside it drops goal, spin and slot |
| RelayLaws.OverrideIff | nav/g1_goal_to_nav.py:340-365 | over every run an override drops goal, spin and waiting click if and only if it is true and no grace period started in the last 5 s |
| RelayLaws.RunRemembers | nav/g1_goal_to_nav.py:193-559 | over every run the relay's stamps, last sent click and grace period are readings of the log of what was sent, accepted and won |
| RelayLaws.HandleLaw | nav/g1_goal_to_nav.py:324-559 | which callbacks take a goal or spin handle and which let it go |
| GoalRelay.GoalToNav.HandleGoalResponse | nav/g1_goal_to_nav.py:405-423 | only an accepted request makes the goal active |
| GoalRelay.GoalToNav.HandleResult | nav/g1_goal_to_nav.py:425-509 | success records the stamp and may ask for the final spin |
| GoalRelay.GoalToNav.HandleSpinResponse | nav/g1_goal_to_nav.py:511-534 | accepted makes the spin active, rejected forgets it |
| GoalRelay.GoalToNav.HandleSpinResult | nav/g1_goal_to_nav.py:539-559 | the spin ends, and the slot is sent unless the result call failed |
| GoalRelay.ReactFates | nav/g1_goal_to_nav.py:193-559 | a click adds its own number to the fates; every other callback only moves numbers between fates |
| GoalRelay.EveryClickAccountedFor | nav/g1_goal_to_nav.py:193-559 | over every callback order: received = rejected + sent + superseded + cancelled + pending, each click with one fate and sent at most once, and a pending click has an outstanding cancel-done callback |
| GoalRelay.CancelDoneSends | nav/g1_goal_to_nav.py:324-338 | whichever cancel-done callback comes next sends the pending click and empties the slot |
| GoalRelay.StepCounts | nav/g1_goal_to_nav.py:193-559 | unanswered requests grow by one exactly when a callback sends and fall by one at a response; running goals grow by an acceptance and fall by a result |
| GoalRelay.SingleGoalIff | nav/g1_goal_to_nav.py:193-559 | over every run: at most one request is ever unanswered if and only if each is sent when none is, and at most one goal is ever out, unanswered or running, if and only if each is sent when none is out |
| GoalRelay.PatienceKeepsOne | nav/g1_goal_to_nav.py:193-559 | clicking only while no goal is out and no click is waiting keeps the single goal, whatever order the callbacks come in |
| GoalRelay.ClickSendsIff | nav/g1_goal_to_nav.py:235-277 | a click that is not rejected sends if and only if no accepted handle is held, whatever is unanswered |
| GoalRelay.TwoUnanswered | nav/g1_goal_to_nav.py:373-423 | a two-click run with two unanswered navigation requests |
| GoalRelay.TwoRunning | nav/g1_goal_to_nav.py:405-423 | both accepted: two goals run while the relay holds one handle |
| GoalRelay.LateCancelDone | nav/g1_goal_to_nav.py:324-330 | a run whose clicks all find nothing unanswered, and whose late cancel-done callback sends a second request |
| RecoveryGt.BisectLeft | src/lidar_localization_ros2/scripts/check_recovery_pose_gt.py:131 | everything before the index is below the stamp, and the index itself is not |
| RecoveryGt.NearestGtIndex | src/lidar_localization_ros2/scripts/check_recovery_pose_gt.py:124-146 | a global nearest truth stamp within tolerance, the later on a tie; absent if and only if none is within tolerance |
| RecoveryGt.ComputePoseErrors | src/lidar_localization_ros2/scripts/check_recovery_pose_gt.py:155-173 | every pose is matched to a nearest truth with its distance, or unmatched because none is in tolerance |
| RecoveryGt.FindFirstLossSec | src/lidar_localization_ros2/scripts/check_recovery_pose_gt.py:176-183 | the stamp of the first matched error above the threshold, or none if and only if there is none |
| RecoveryGt.AfterLoss | src/lidar_localization_ros2/scripts/check_recovery_pose_gt.py:193 | the samples from the loss on: an increasing list of exactly the positions whose stamp is not before it |
| RecoveryGt.CloseWindow | src/lidar_localization_ros2/scripts/check_recovery_pose_gt.py:198-206 | closing a maximal run keeps the listing of qualifying runs exact |
| RecoveryGt.CloseKeeps | src/lidar_localization_ros2/scripts/check_recovery_pose_gt.py:198-206 | adding the closed run, or dropping it as too short, leaves exactly the qualifying runs up to here |
| RecoveryGt.FindQualifyingRecoveredWindows | src/lidar_localization_ros2/scripts/check_recovery_pose_gt.py:186-219 | the windows are precisely the maximal runs of good samples lasting at least the minimum, in order and disjoint, among the samples `RecoveryGt.AfterLoss` picks |
| RecoveryGt.WindowsUnique | src/lidar_localization_ros2/scripts/check_recovery_pose_gt.py:186-219 | that declarative meaning fixes the list of windows, so no other list could be returned |
| RecoveryGt.FindLastMatched | src/lidar_localization_ros2/scripts/check_recovery_pose_gt.py:266-267 | the last matched sample, or none if and only if none is matched |
| RecoveryGt.LongestWindow | src/lidar_localization_ros2/scripts/check_recovery_pose_gt.py:297 | the greatest window duration, zero without windows |
| RecoveryGt.NonEmptyIff | src/lidar_localization_ros2/scripts/check_recovery_pose_gt.py:313-316 | there is a window if and only if some run qualifies |
| RecoveryGt.BucketErrors | src/lidar_localization_ros2/scripts/check_recovery_pose_gt.py:222-246 | each bucket counts the samples in its range |
| RecoveryGt.BucketsPartition | src/lidar_localization_ros2/scripts/check_recovery_pose_gt.py:222-246 | the six buckets together count every sample once |
| RecoveryGt.GreatestError | src/lidar_localization_ros2/scripts/check_recovery_pose_gt.py:291-296 | the greatest matched error after the loss, none if and only if nothing is matched |
| RecoveryGt.FinalState | src/lidar_localization_ros2/scripts/check_recovery_pose_gt.py:299-311 | the trace ends recovered if and only if its last matched error is low or close behind the last window, whose distance is reported |
| RecoveryGt.SummarizeLost | src/lidar_localization_ros2/scripts/check_recovery_pose_gt.py:283-325 | the summary of a lost trace, field by field; in the samples' own terms by `RecoveryGt.SummaryInSamples` |
| RecoveryGt.SummarizeRecoveryPoseGt | src/lidar_localization_ros2/scripts/check_recovery_pose_gt.py:249-325 | the error cases; otherwise every field by its declarative meaning, and never lost, recovered or not recovered each if and only if its condition holds |
| RecoveryGt.SummaryInSamples | src/lidar_localization_ros2/scripts/check_recovery_pose_gt.py:249-325 | the windows are exactly the maximal low runs among the positions from the first loss on, and the verdict is recovered if and only if there is one and the trace ends recovered |
| RecoveryGt.GreatestInSamples | src/lidar_localization_ros2/scripts/check_recovery_pose_gt.py:289-296 | the greatest error reported is that of a matched sample from the first loss on, and none of them has more |
| RecoveryGt.VerdictInSamples | src/lidar_localization_ros2/scripts/check_recovery_pose_gt.py:249-311 | the first loss is the first matched error above the threshold; the trace ends recovered if and only if its last matched error is low or close behind the last window |
| RecoveryGt.LostMeaning | src/lidar_localization_ros2/scripts/check_recovery_pose_gt.py:283-288 | the trace was never lost if and only if no matched error is above the threshold |
| RecoveryGt.BucketLimits | src/lidar_localization_ros2/scripts/check_recovery_pose_gt.py:222-246 | the buckets count the matched errors below 1, 3, 5 and 10 m |

## Left out

- HitMap.FullHitMap: the inverse transform is taken as exact, because FFT round-off is floating point; only the indexing around it is proved.
- Search.Push: the array layout inside `heapq`, which unique keys make unobservable.
- Exactness.SearchExactIff: cosine and sine are real functions with their exact values at 0 and -pi; their rounding is not modelled.
- Gateway.SilenceStops: counts calls, not seconds; the watchdog test is a free choice at every send, and SDK return codes and logging are not modelled.
- Bridge.BridgeNode.HandleTick: the odometry audit and the log lines of the tick, which do not touch its outputs.
- LioBuffers.Mapper.StandardPclCbk: preprocessing, locks and timing plots; the cloud is its size and the time offset of its last point. `abs` is the real absolute value.
- LioBuffers.Mapper.ImuCbk: the copy of the message; the corrected stamp is what the buffer keeps.
- LocalMap.Segmenter.LasermapFovSegment: single-precision rounding of the box and of the slide distance.
- Localizer.LocalizerNode.LocalizeTick: the distance is any metric, and the rebuild of the local map subset is not modelled, because registration results are inputs.
- Localizer.LocalizerNode.SmoothTf: the process and measurement variances of the node are positive; the attitude is one angle, and its interpolation any function of the two angles and the weight.
- GoalRelay.GoalToNav.HandleGoal: the transform into the map frame is an optional pose, absent when the lookup fails; map cells, summaries and log lines are left out.
- GoalRelay.EveryClickAccountedFor: an outstanding cancel is assumed to be answered some time, and a request to the action server never fails to be sent.
- RecoveryGt.SummarizeRecoveryPoseGt: the planar distance is any function of two points.
- Floating-point rounding everywhere: reals are exact.
- The Livox path of FAST-LIO: it clears one buffer without the other, so the level buffers proved here are a property of the PointCloud2 path only.
- The extended Kalman filter, the incremental k-d tree and the plane features of FAST-LIO: matrix arithmetic and library data structures.
- ICP, NDT and the Open3D registrations: numerical libraries, whose results are arbitrary inputs here.
- The goal-to-plan node, the path and odometry relays, reset commands and the ranking of registration candidates: separate programs, on which none of the six modelled here depends.
- ROS publishers, subscribers, launch files, CSV, JSON and bag input and output: plumbing around the modelled logic.
