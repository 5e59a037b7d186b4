# Ragdoll pose control, modelled in Dafny

This project models the pose-control core of a Unity 2D ragdoll figure and proves properties of that model. The figure is a set of body parts, one rigid body each. The core has four scripts:

- **Muscle**: each part's muscle. It computes, once, the mass the part carries (its own plus an influence-weighted share of the parts it carries) and a torque factor from that load. On every physics tick it folds the body's rotation into `[-180, 180)` and, while pose control is on, overrides the angular velocity with a PD command toward the part's target angle.
- **RagdollSet**: the start-up load pass. It walks the carried-parts graph from each root, children before parents, with one shared set of finished parts. After each part's calculation it stamps the figure's proportional base onto that part.
- **TransformHingeLimiter2D**: a joint limit measured on folded angles. Accumulated spins therefore never count against the limit. The relative angle, measured in `(-180, 180]`, is clamped into the bounds. A violation is either snapped onto the bound so chosen or rewound toward it at a bounded rate. That bound is the one on the violated side of the range, which is not always the nearer one around the circle.
- **Ragdoll**: the pose/ragdoll switch. In pose mode the muscles are on and the limits off; in ragdoll mode it is the other way round.

Numbers are exact reals, and Unity's `Mathf` helpers are written after their documented definitions (`unity_math.dfy`). On top of that, each script is modelled twice:

- Its entities are classes whose methods update fields in place. Frames name the fields a script writes on its own object, and name whole objects where it writes into others. Ensures clauses then say which fields of those objects stay as they were.
- What those methods compute is stated by pure functions, with lemmas proved about them.

Files:

- `wrappers.dfy`: `Option`.
- `unity_math.dfy`: `Clamp`, `Repeat`, `DeltaAngle`, `MoveTowards`, `MoveTowardsAngle`, and congruence of angles modulo a full turn.
- `bodies.dfy`: the engine's rigid body and hinge joint, with only the fields the scripts use.
- `muscles.dfy`: the load sum, the torque factor, rotation normalization, the PD command, and the `Muscle` class.
- `load_graph.dfy`: the carried-parts graph as values. It covers the load equation, reachability, closure and post-order.
- `ragdoll_set.dfy`: the `RagdollSet` class and its traversal.
- `hinge_limiter.dfy`: the limit correction and the `TransformHingeLimiter2D` class.
- `ragdoll_mode.dfy`: the mode switch as values and the `Ragdoll` class.

Muscles are kept in one arena (`RagdollSet.parts`). A carried-parts array is a sequence of arena indices, wrapped in `Option` because the array and its entries may be null.

Points where the code behaves differently from what its comments or a first reading suggest; the model follows the code:

- **Cycles in the carried-parts graph.** The comment at `Assets/Scripts/RagdollSet.cs:26-27` says the early return for a finished part prevents infinite loops as well as duplicate calculation. But a part is added to the finished set only after its children (`Assets/Scripts/RagdollSet.cs:44-48`), so on a cycle the walk recurses without end. The traversal therefore requires a rank that strictly decreases along every carried entry. `LoadGraph.NoCycle` proves that a ranked graph has no cycle. Only this direction is proved; that every acyclic graph has a rank is not part of the model.
- **What pose control measures.** The muscle's tick folds the body's own world rotation into `[-180, 180)` and measures the shortest turn from it to the target angle; there is no anchor body (`Assets/Scripts/Muscle.cs:111-133`).
- **Stopping the spin when muscles switch off.** The mode switch writes `musclesActive` directly (`Assets/Scripts/Ragdoll.cs:21`, `:34`), so only `SetMusclesActive(false)` stops the spin. Switching modes leaves every body's velocity as it was.
- **Script order within a tick.** The code fixes no order between a joint's limiter tick and its segment's muscle tick. The two ticks are modelled as separate methods.

## Model

| member | source | states |
|---|---|---|
| UnityMath.Clamp | Assets/Scripts/TransformHingeLimiter2D.cs:60 | Within ordered bounds the result lies in them. A value inside is returned unchanged; below the lower bound gives the lower bound, above the upper gives the upper. |
| UnityMath.Repeat | Assets/Scripts/Muscle.cs:111 | The result lies in `[0, length)`. For a full turn it names the same direction as the input. |
| UnityMath.RepeatUnique | Assets/Scripts/Muscle.cs:111 | The only angle in `[0, 360)` that names the same direction as `t` is `Repeat(t, 360)`. |
| UnityMath.DeltaAngle | Assets/Scripts/TransformHingeLimiter2D.cs:59 | The signed shortest turn lies in `(-180, 180]`. |
| UnityMath.DeltaAngleCongruent | Assets/Scripts/TransformHingeLimiter2D.cs:3-6 | Differences that name the same direction have the same delta. Whole turns are invisible to the measurement. |
| UnityMath.DeltaAngleOfOffset | Assets/Scripts/TransformHingeLimiter2D.cs:59-67 | An offset already in `(-180, 180]` is measured back exactly. |
| UnityMath.DeltaAngleOfSameDirection | Assets/Scripts/Muscle.cs:133 | Two angles naming one direction have delta 0. |
| UnityMath.DeltaAngleLandsOnTarget | Assets/Scripts/Muscle.cs:133 | Turning by the delta from `a` reaches `b`'s direction. |
| UnityMath.MoveTowards | Assets/Scripts/TransformHingeLimiter2D.cs:95 | A target within the step is returned as is. Otherwise the step is at most `maxDelta` and lies between current and target. |
| UnityMath.MoveTowardsAngleStep | Assets/Scripts/TransformHingeLimiter2D.cs:95 | With a non-negative step the turn is at most the step and goes the way of the shortest turn without passing it. A target closer than the step is returned; one within the step is reached in direction. |
| Bodies.RigidBody2D.EulerZ | Assets/Scripts/TransformHingeLimiter2D.cs:57-58 | The body's folded angle lies in `[0, 360)` and names the direction of its accumulated rotation. |
| Muscles.AccumulateIsWeightedSum | Assets/Scripts/Muscle.cs:71-86 | Without a self reference, the summed load is own mass plus influence factor times the carried parts' totals. Null entries and a null array add nothing. |
| Muscles.AccumulateAtLeastOwn | Assets/Scripts/Muscle.cs:71-86 | With non-negative mass, factor and carried totals, a part carries at least its own mass, even with a self reference. |
| Muscles.LoadFactorMonotone | Assets/Scripts/Muscle.cs:89-99 | With non-negative `K` and leverage, a larger total never lowers the factor; with `K`, leverage and mass all positive, a strictly larger total gives a strictly larger factor. A part without positive mass has factor 0 whatever it carries. |
| Muscles.NormalizeRotation | Assets/Scripts/Muscle.cs:111-113 | The normalized rotation lies in `[-180, 180)` and names the same direction. |
| Muscles.PoseVelocityAtRest | Assets/Scripts/Muscle.cs:133-150 | At the target direction with no spin the command is 0, whatever the gains, load or mass. |
| Muscles.PoseVelocityIgnoresTurns | Assets/Scripts/Muscle.cs:133-150 | Angles naming one direction give the same command. |
| Muscles.PoseVelocityTurnsTowardTarget | Assets/Scripts/Muscle.cs:133-150 | With positive gains, strength and mass and no spin, the command is positive, negative or zero exactly as the shortest turn to the target is. |
| Muscles.PoseVelocityDampsSpin | Assets/Scripts/Muscle.cs:139-150 | At the target with positive damping, strength and mass, the command opposes the current spin. |
| Muscles.PoseVelocityExample | Assets/Scripts/Muscle.cs:133-150 | 30 degrees off a target of 0, with gains 1 and 30 and factor 10, the error is -30 and the command is -9000. |
| Muscles.Muscle.constructor | Assets/Scripts/Muscle.cs:5-43 | A new muscle has `pBase` 30 and pose control on, with nothing calculated. |
| Muscles.Muscle.SumTotalMassToCarry | Assets/Scripts/Muscle.cs:70-86 | The total becomes the own mass plus, entry by entry in array order, each non-null carried part's total times the influence factor. Other parts' totals are read from the state before the call. An entry that refers to the part itself instead adds the running total so far times the factor, since the loop reads the field it is writing. Null entries, and a null array, add nothing. |
| Muscles.Muscle.CalculateTotalLoadAndFactor | Assets/Scripts/Muscle.cs:68-105 | The loop leaves the total as the running sum of the carried entries' loads, and the factor is the torque formula, or 0 for a non-positive mass. `loadCalculated` becomes true only for a positive mass; the early return leaves it as it was. Nothing else is written. |
| Muscles.Muscle.FixedUpdate | Assets/Scripts/Muscle.cs:107-121 | Every tick, even with pose control off, writes the normalized rotation. The velocity becomes the PD command on the normalized angle exactly when pose control is on and the load is calculated; otherwise it is unchanged. |
| Muscles.Muscle.ApplyTorqueToMaintainPose | Assets/Scripts/Muscle.cs:123-155 | Once the load is calculated, the velocity is overridden with the PD command; before that, it is left alone. |
| Muscles.Muscle.SetMusclesActive | Assets/Scripts/Muscle.cs:158-165 | Sets the flag. Switching off zeroes the angular velocity; switching on keeps it. |
| Muscles.Muscle.SetPBase | Assets/Scripts/Muscle.cs:168-172 | `pBase` takes a positive value and ignores any other. |
| LoadGraph.TotalIsAccumulate | Assets/Scripts/RagdollSet.cs:32-44 | Once every carried part holds its total, one calculation gives the load equation's total. |
| LoadGraph.TotalAtLeastMass | Assets/Scripts/Muscle.cs:71-86 | With non-negative masses and influence factors, a total is at least the part's own mass. |
| LoadGraph.TotalCoversCarried | Assets/Scripts/Muscle.cs:83 | With non-negative masses and influence factors throughout the graph, a total is at least the influence factor times the total of any part it carries. |
| LoadGraph.FactorAtLeastUnloaded | Assets/Scripts/Muscle.cs:71-94 | With non-negative masses and influence factors, and a non-negative `K` and leverage for the part, its factor is at least the factor of its own mass alone, which for a positive mass is `K * leverage`. |
| LoadGraph.TwoPartExample | Assets/Scripts/Muscle.cs:65-102 | A root of mass 10 carrying a part of mass 5, with K = 10, gets totals 15 and 5 and factors 15 and 10. |
| LoadGraph.ReachClosed | Assets/Scripts/RagdollSet.cs:33-40 | The set a part reaches contains every part carried by any of its members. |
| LoadGraph.ReachWithinClosed | Assets/Scripts/RagdollSet.cs:27-30 | A closed finished set that holds a part holds all it reaches, so stopping at a finished part misses nothing. |
| LoadGraph.ReachBelow | Assets/Scripts/RagdollSet.cs:33-40 | Everything a part reaches is in the graph and has rank no higher than the part. |
| LoadGraph.ChildrenReached | Assets/Scripts/RagdollSet.cs:35-39 | Every non-null carried entry is reached. |
| LoadGraph.ClosedExtend | Assets/Scripts/RagdollSet.cs:48 | Adding a part whose children are finished keeps the finished set closed. |
| LoadGraph.LogExtend | Assets/Scripts/RagdollSet.cs:42-48 | Appending a part that is not yet finished, but all of whose carried parts are, to a calculation log keeps it a calculation log: each part at most once, after every part it carries. |
| LoadGraph.LogIsDistinctPostOrder | Assets/Scripts/RagdollSet.cs:23-50 | A calculation log has no duplicates, and every part it holds comes after each part it carries. |
| LoadGraph.NoCycle | Assets/Scripts/RagdollSet.cs:26-30 | A ranked graph has no walk of one or more steps that returns to its start. |
| RagdollSets.StampedTotal | Assets/Scripts/RagdollSet.cs:44-48 | A stamped part holds the load equation's total. |
| RagdollSets.StampOneMore | Assets/Scripts/RagdollSet.cs:44-48 | If one unfinished part gets its calculation and every other part is left as it was, the result is the stamp of the finished set plus that part. |
| RagdollSets.ProgressExtend | Assets/Scripts/RagdollSet.cs:42-48 | Finishing a part whose carried parts are all finished keeps the walk's state. The finished set stays closed under carrying and the log stays a calculation log. |
| RagdollSets.CarriedStep | Assets/Scripts/RagdollSet.cs:35-39 | Walking one more carried entry extends the finished set by exactly what that entry reaches. |
| RagdollSets.RagdollSet.TraverseAndCalculateLoad | Assets/Scripts/RagdollSet.cs:24-50 | The finished set grows by exactly the parts reachable from the current part; a null or finished part adds nothing. The calibrations become the snapshot taken before the whole walk, with every finished part stamped: calculated once with the load equation's total and factor, then given the set's `pBase`. All other parts are untouched. The finished set stays closed, the ghost log stays a calculation log, and every `musclesActive` is untouched. |
| RagdollSets.RagdollSet.CalculateCarriedParts | Assets/Scripts/RagdollSet.cs:33-40 | The loop over the carried array grows the finished set by exactly what its entries reach, with the same stamping and walk state as the walk itself. |
| RagdollSets.RagdollSet.CalculateOnePart | Assets/Scripts/RagdollSet.cs:44-48 | Finishing a part whose carried parts are finished adds it to the stamp and the log and keeps the walk's state. Other parts and every `musclesActive` are untouched. |
| RagdollSets.RagdollSet.CalibratePart | Assets/Scripts/RagdollSet.cs:44-45 | The two calls leave the part with the equation's total, its factor, the calculated flag and the `pBase` stamp; its `musclesActive` is unchanged. |
| RagdollSets.RagdollSet.LoadsMatchSpec | Assets/Scripts/RagdollSet.cs:42-44 | When a part's children are all finished, the loads it reads are the children's equation totals. |
| RagdollSets.RagdollSet.Awake | Assets/Scripts/RagdollSet.cs:9-21 | After the walk from every root: the calculated parts are exactly those reachable from some root, in a duplicate-free post-order, each with the equation's total, factor and stamp. Every other part is unchanged. |
| HingeLimiter.LimitCorrection | Assets/Scripts/TransformHingeLimiter2D.cs:56-67 | No correction exactly when the relative angle is within the bounds. Otherwise the target is reference plus lower bound when below it, reference plus upper bound when above, and lies within ordered bounds. |
| HingeLimiter.CorrectionIgnoresTurns | Assets/Scripts/TransformHingeLimiter2D.cs:56-62 | Angles naming one direction get the same correction. |
| HingeLimiter.HardClampSettles | Assets/Scripts/TransformHingeLimiter2D.cs:60-68 | With bounds in `(-180, 180]`, a body turned to the corrected angle is within bounds on the next tick. |
| HingeLimiter.RewindStepBounded | Assets/Scripts/TransformHingeLimiter2D.cs:91-98 | For a non-negative `rewindSpeed * dt`, a rewind turns by at most that step, toward the target and not past it. It reaches the target's direction when the target is within one step. |
| HingeLimiter.HardClampExample | Assets/Scripts/TransformHingeLimiter2D.cs:56-67 | 150 degrees against bounds of ±90 corrects to 90, and 90 needs no correction. Against bounds `[0, 90]`, 190 corrects to 0: the relative angle -170 lies below the range, even though 90 is nearer around the circle. |
| HingeLimiter.TransformHingeLimiter2D.Default | Assets/Scripts/TransformHingeLimiter2D.cs:19-30 | The default settings: limits on, bounds -90 and 90, hard clamp, rewind 360 degrees per second, velocity zeroing on. |
| HingeLimiter.TransformHingeLimiter2D.ResolveReferenceTransform | Assets/Scripts/TransformHingeLimiter2D.cs:76-89 | The override first, then the hinge's connected body, else none. |
| HingeLimiter.TransformHingeLimiter2D.ReferenceAngle | Assets/Scripts/TransformHingeLimiter2D.cs:57 | Lies in `[0, 360)`: the reference body's folded angle, or 0 without one. |
| HingeLimiter.TransformHingeLimiter2D.FixedUpdate | Assets/Scripts/TransformHingeLimiter2D.cs:49-74 | With limits off nothing changes, and nothing is written when within bounds. Otherwise the rotation becomes the corrected angle, and the velocity is zeroed exactly when a correction is applied and zeroing is configured. |
| HingeLimiter.TransformHingeLimiter2D.ApplyCorrection | Assets/Scripts/TransformHingeLimiter2D.cs:91-98 | The rotation becomes the target under hard clamp, else one rewind step toward it. |
| HingeLimiter.TransformHingeLimiter2D.SetLimits | Assets/Scripts/TransformHingeLimiter2D.cs:100-104 | Sets both bounds and nothing else. |
| HingeLimiter.TransformHingeLimiter2D.EnableLimits | Assets/Scripts/TransformHingeLimiter2D.cs:106-109 | Sets the enable flag and nothing else. |
| RagdollMode.Toggle | Assets/Scripts/Ragdoll.cs:16-26 | Ragdoll mode becomes the negation of the toggle, and the result is one of the two exclusive modes with the same numbers of muscles and limiters. |
| RagdollMode.Update | Assets/Scripts/Ragdoll.cs:28-39 | The flag flips, every muscle takes the old flag, and the result is exclusive. |
| RagdollMode.UpdateIsToggleOfFlag | Assets/Scripts/Ragdoll.cs:16-39 | `UpdateMode` is `UpdateModeToggle` of the current flag. |
| RagdollMode.UpdateTwice | Assets/Scripts/Ragdoll.cs:28-39 | Switching twice restores the state exactly when the state was exclusive. |
| RagdollMode.ToggleIdempotent | Assets/Scripts/Ragdoll.cs:16-26 | Toggling to a value twice equals toggling once. |
| RagdollMode.StartupIsRagdoll | Assets/Scripts/PoseManager.cs:9-12 | The first switch after start, from flag false, leaves ragdoll mode on, every muscle off and every limit on. |
| RagdollMode.NeverBoth | Assets/Scripts/Ragdoll.cs:16-39 | In an exclusive state no muscle is on while a limit is on. |
| RagdollMode.Ragdoll.constructor | Assets/Scripts/Ragdoll.cs:6-14 | A new figure starts with ragdoll mode off. |
| RagdollMode.Ragdoll.UpdateModeToggle | Assets/Scripts/Ragdoll.cs:16-26 | The figure's flags become `Toggle` of the old flags. Muscle calibrations and limiter bounds are unchanged, and bodies are outside the frame. |
| RagdollMode.Ragdoll.UpdateMode | Assets/Scripts/Ragdoll.cs:28-39 | The figure's flags become `Update` of the old flags. Muscle calibrations and limiter bounds are unchanged, and bodies are outside the frame. |
| RagdollMode.Ragdoll.SetHingeLimit | Assets/Scripts/Ragdoll.cs:41-49 | Every limiter's enable flag becomes the argument; bounds are unchanged. |

## Left out

- Awake lookups (`GetComponent`, `GetComponentsInChildren`): the components they find are constructor arguments. The muscle list of `Ragdoll` is fixed because the hierarchy does not change at run time.
- Muscle's missing-body guard in `Awake` (`Assets/Scripts/Muscle.cs:45-54`): every muscle holds a body.
- The limiter's `Awake`, which switches the engine hinge's own limits off (`Assets/Scripts/TransformHingeLimiter2D.cs:34-47`): it is start-up wiring of an engine joint that nothing in the core reads again.
- `Destroy(this)` at the end of `RagdollSet.Awake`, and every `Debug.Log` call: neither has any effect on the modelled state.
- `Rigidbody2D.MoveRotation`: modelled as an immediate write of the rotation, not as a target applied at the next physics step.
- Physics integration between ticks, and the order in which the engine runs different scripts' ticks.
- Float rounding: all numbers are reals, and `Mathf.Approximately` is treated as equality.
- `Time.fixedDeltaTime`: a parameter of the limiter's tick.
- Collision suppression between parts, the manager scripts around the figure, and `PoseManager`'s key handling. Only `PoseManager`'s first `UpdateMode` call is modelled, by `RagdollMode.StartupIsRagdoll`.
- RagdollSets.RagdollSet.TraverseAndCalculateLoad: requires a non-null carried array for every arena part, because the code calls `Count()` on each part it reaches and a null array would throw. The arena may be any set of muscles closed under carrying, for example the parts the roots reach. A null array on a part outside that set is outside the model, even though the code never touches it.
- RagdollSets.RagdollSet.TraverseAndCalculateLoad: requires a rank over the arena graph. The code does not terminate on a cycle that a root reaches, and the model does not describe that run. A cycle among arena parts that no root reaches is also outside the model, though the code handles it; such parts have to be left out of the arena. Only "ranked implies acyclic" is proved (`LoadGraph.NoCycle`), not the converse.
- Muscles.Muscle.GetTotalMassLoad: a plain accessor for the total. What the total means is stated by `CalculateTotalLoadAndFactor` and `LoadGraph.TotalIsAccumulate`.
- Muscles.Muscle.GetCarriedParts: a plain accessor for the carried array.
