# storybrew hierarchical keyframe merge, in Dafny

This project models the animation-group engine of storybrew's `common/Animations`.

A storyboard element is a `GroupElement`: either a `Group` of child elements or a `GroupSprite` that draws onto one `OsbSprite`. Each element owns three keyframed channels: move (a 2-vector), rotate and scale. The Move / Rotate / Scale overloads append keyframes to these channels.

Drawing walks the tree. A group merges its own channels with the context it received from its parent, and every child gets that same merged context, in insertion order. A sprite merges its channels the same way, clips each consecutive pair of keyframes to its `[startTimeBase, endTimeBase]` lifetime, and issues one `Move`, `Rotate` or `ScaleVec` command per pair that survives.

The merge is a sweep over several independently timed tracks. Each input has a cursor: the current segment `start`/`end` and a `check` flag. Each pass:
- picks the earliest pending segment end (MergeMove also caps the step at 16 time units after the previous output time);
- samples every input with the clamping `Interpolate`;
- emits the composed keyframe;
- advances the cursors that end at that time;
- emits a second "repeat" keyframe at the same time when an advance changed a value.

## How the model is built

- `keyframes.dfy` (Keyframes): vectors, keyframes, tracks as `seq<Keyframe<T>>`, and the linear interpolators.
- `cursors.dfy` (Cursors): the per-input cursor. The enumerator becomes a count of consumed keyframes. InitializeStartEnd, GetNextKeyframe (a `while (true)` method proved against the function `NextKeyframe`), CheckNextKeyframe and Interpolate.
- `sampling.dfy` (Sampling): what a channel shows at a time, defined on the track alone. `ValueAt` is the value reached from the left and `ValueFrom` the value from then on; `Jump` holds where they differ. This is the reference the sweeps are proved against.
- `formulas.dfy` (Formulas): MoveFormula, RotateFormula, ScaleFormula, the channel defaults and `KEYFRAME_TIMESTEP`.
- `merge.dfy` (Merge): each sweep as a function (`PairSweep`, `MoveSweep`) built from one loop pass (`PairIterate`, `MoveIterate`). The theorems about them are here. So are the imperative `do … while` loops (`SweepPair`, `SweepMove`), each proved equal to its function.
- `authoring.dfy` (Authoring): the Move / Rotate / Scale overloads as track functions, with the eased `for` loop as a method.
- `clipping.dfy` (Clipping): GroupSprite.DrawData and the clipping of a whole track.
- `tree.dfy` (Tree): a value snapshot of the tree (`Node`) and the command list a draw issues (`Drawn`, `RootDrawn`).
- `animations.dfy` (Animations): the class `GroupElement`. It has fields for the three tracks and the child list, the authoring methods, `Add`, the merges and both `Draw` overloads. Each `Draw` is proved to append exactly `Drawn(...)` of the tree's snapshot to a command log.
- `findings.dfy` (Findings): MergeMove's time selection as written, over times that may be +infinity (see Findings).

Calls into code outside the model are parameters: `Math.Cos`, `Math.Sin` and `KeyframedValue.Simplify2dKeyframes` are the fields of `Externals`, and the easing function is a `real -> real` argument. The sprites are one `CommandLog` object; each command carries the sprite it was issued to.

Where the code and its surrounding description differ, the model follows the code:
- The eased Rotate and Scale overloads do not simplify their temp track. Only the eased Move overload does (GroupElement.cs:56).
- The eased Scale overload builds its temp track with DEFAULT_ROTATE as the default. That default is never read, because the temp track is never empty.

## Model

| member | source | states |
|---|---|---|
| Cursors.Initialize | common/Animations/GroupElement.cs:250-264 | a cursor over a non-empty track starts pending, at the first keyframe as a zero-length segment; over an empty track it is not pending and holds the channel default at DEFAULT_TIME |
| Cursors.NextKeyframe | common/Animations/GroupElement.cs:279-302 | a cursor that is not pending is left alone; a pending one lowers its remaining count, and ends either not pending with `start == end` or with `start.time < end.time` |
| Cursors.NextKeyframeSorted | common/Animations/GroupElement.cs:284-300 | on a sorted track the loop consumes exactly the keyframes at the old end time, and a new segment starts at the last of them |
| Cursors.Advance | common/Animations/GroupElement.cs:284-300 | the `while (true)` loop of GetNextKeyframe: keyframes at the end's time are skipped, the loop stops at the first later keyframe or when the enumerator runs out; AdvanceSorted and AdvanceValid state what it guarantees |
| Cursors.AdvanceSorted | common/Animations/GroupElement.cs:284-300 | the `while (true)` loop skips only keyframes at the current end time and stops at the first later one |
| Cursors.AdvanceValid | common/Animations/GroupElement.cs:284-300 | the loop leaves a valid cursor and consumes at least one keyframe |
| Cursors.GetNextKeyframe | common/Animations/GroupElement.cs:279-302 | the imperative loop returns exactly `NextKeyframe` |
| Cursors.AdvanceAt | common/Animations/GroupElement.cs:268 | a cursor advances exactly when it is pending and the sweep time equals its end; advancing lowers its remaining count |
| Cursors.CheckNext | common/Animations/GroupElement.cs:266-277 | a repeat is reported exactly when the cursor advances and the new segment's start value differs from the sampled one; the current value is then replaced by that start value |
| Cursors.CheckNextKeyframe | common/Animations/GroupElement.cs:266-277 | the method with `ref` parameters returns CheckNext's cursor and value, and keeps an `isRepeat` that was already set |
| Cursors.Sample | common/Animations/GroupElement.cs:157-166 | one input's part of one pass: its cursor ends as AdvanceAt, and without a repeat the value held afterwards is the sampled one |
| Cursors.Progress | common/Animations/GroupElement.cs:308 | inside a segment the divisor is positive and the fraction lies in `[0, 1)` and recovers the time |
| Cursors.Interpolate | common/Animations/GroupElement.cs:304-309 | the start value before the segment, the end value from its end on, the interpolation at the elapsed fraction in between, and the start value without dividing when `start == end` |
| Cursors.InterpolateWithinSegment | common/Animations/GroupElement.cs:304-309 | with the linear scalar interpolator the result stays between the segment's two values and is exact at both keyframes |
| Cursors.PendingEndIn | common/Animations/GroupElement.cs:250-302 | a pending cursor's end is a keyframe of its track |
| Sampling.ValueAtIndex | common/Animations/GroupElement.cs:304-309 | the value from the left of a sorted track, read off at the index of the first keyframe not before the time |
| Sampling.ValueFromIndex | common/Animations/GroupElement.cs:304-309 | the value from a time on of a sorted track, read off at the index of the first keyframe after the time |
| Sampling.NoJumpWithoutHolds | common/Animations/GroupElement.cs:161-166 | a track whose times strictly increase never jumps, so it never causes a repeat |
| Sampling.InitializeLive | common/Animations/GroupElement.cs:250-264 | a fresh cursor has consumed no keyframe |
| Sampling.LiveDone | common/Animations/GroupElement.cs:296-299 | a cursor that is no longer pending has consumed every keyframe |
| Sampling.LiveStep | common/Animations/GroupElement.cs:266-277 | the keyframes a pass consumes are all at its time |
| Sampling.StepEntry | common/Animations/GroupElement.cs:266-302 | one pass at a time after the previous one and not after the cursor's end consumes only keyframes at that time, and leaves the cursor ready for the next pass |
| Sampling.ConsumedBefore | common/Animations/GroupElement.cs:266-302 | at the top of a pass every consumed keyframe lies before the new time |
| Sampling.StepValueAt | common/Animations/GroupElement.cs:157-160 | the value Interpolate samples in a pass is the value the input shows from the left; if the cursor does not advance, it is also the value from then on |
| Sampling.StepValueFrom | common/Animations/GroupElement.cs:270-275 | when the cursor advances, the new segment's start holds the value the input shows from then on |
| Sampling.StepCursor | common/Animations/GroupElement.cs:157-166 | one input in one pass on a sorted track: the sampled value is ValueAt, the value after CheckNextKeyframe is ValueFrom, a repeat is reported exactly at a jump, and the cursor is ready for the next pass |
| Formulas.RotateFormula | common/Animations/GroupElement.cs:322-325 | the parent's rotation is added to the child's, with no wrap-around; a zero parent rotation leaves the child's unchanged |
| Formulas.ScaleFormula | common/Animations/GroupElement.cs:327-330 | scales multiply; the default scale 1 is neutral on either side |
| Formulas.MoveFormula | common/Animations/GroupElement.cs:311-320 | with zero rotation and unit scale (and cos 0 = 1, sin 0 = 0) the child's position is translated by the parent's |
| Formulas.MoveFormulaNeutral | common/Animations/GroupElement.cs:15-19 | against the default parent sample (zero move, zero rotation, unit scale) the position is returned unchanged |
| Formulas.MoveFormulaIsSimilarity | common/Animations/GroupElement.cs:311-320 | the move composition multiplies squared distances by the parent scale squared, whatever the rotation and translation |
| Formulas.MoveFormulaNests | common/Animations/GroupElement.cs:311-330 | composing with a parent sample and then a grandparent sample equals composing once with the grandparent-composed parent sample (rotations added, scales multiplied) |
| Merge.PairTime | common/Animations/GroupElement.cs:191-193 | the earliest pending end of the two cursors of MergeRotate / MergeScale; PairTimeBounds states its bounds |
| Merge.EarliestEnd | common/Animations/GroupElement.cs:146-150 | the earliest pending end of MergeMove's four cursors; EarliestEndIn shows it is an input time |
| Merge.MoveTime | common/Animations/GroupElement.cs:146-152 | the earliest pending end, capped at `previousTime + 16` once a previous time exists; MoveTimeBounds states its bounds |
| Merge.PairSweep | common/Animations/GroupElement.cs:189-204 | the `do … while` of MergeRotate / MergeScale from given cursors: one pass, then the rest while a cursor is pending; PairSweepTimes and PairSweepSamples state its properties |
| Merge.MoveSweep | common/Animations/GroupElement.cs:144-168 | the `do … while` of MergeMove from given cursors and previous time; MoveSweepOrder, MoveSweepSteps, MoveSweepCovers and MoveSweepSamples state its properties |
| Merge.MergedPair | common/Animations/GroupElement.cs:175-207 | MergeRotate / MergeScale for a given default and composition: the sweep from freshly initialised cursors, or the empty track when both inputs are empty; MergedPairSpec states its properties |
| Merge.MergedRotate | common/Animations/GroupElement.cs:175-207 | MergeRotate: MergedPair with DEFAULT_ROTATE and RotateFormula |
| Merge.MergedScale | common/Animations/GroupElement.cs:209-248 | MergeScale: MergedPair with DEFAULT_SCALE and ScaleFormula |
| Merge.SweptMove | common/Animations/GroupElement.cs:123-168 | MergeMove before Simplify2dKeyframes: the move sweep from freshly initialised cursors, or empty when all four inputs are; SweptMoveSpec states its properties |
| Merge.MergedMove | common/Animations/GroupElement.cs:123-173 | MergeMove: the sweep followed by Simplify2dKeyframes |
| Merge.Earlier | common/Animations/GroupElement.cs:148-151 | one `if (check && end.Time < time)` step: the time is kept or lowered to a pending end |
| Merge.PairIterate | common/Animations/GroupElement.cs:186-203 | one pass of MergeRotate / MergeScale emits one or two keyframes at its time and lowers the cursors' remaining count |
| Merge.MoveIterate | common/Animations/GroupElement.cs:146-166 | one pass of MergeMove at the capped time: either a cursor advances or the step was capped at `previous + 16` before the earliest end |
| Merge.Prepend | common/Animations/GroupElement.cs:144-168 | one pass's keyframes before a later sweep keep the output chronological, and add the pass time to the output times |
| Merge.PrependShape | common/Animations/GroupElement.cs:158-166 | a pass's first keyframe is the first at its time, and it is doubled exactly when the pass emitted a repeat |
| Merge.PairIterateSpec | common/Animations/GroupElement.cs:186-203 | one pass over sorted inputs is at an input time after the previous one; it emits the composition of what both inputs show there, and a repeat holding the composition from then on exactly when an input jumps |
| Merge.PairTimeBounds | common/Animations/GroupElement.cs:191-193 | the pass time is the earliest pending end: after the previous time, not after either end, and an input keyframe time |
| Merge.PairSweepTimes | common/Animations/GroupElement.cs:189-204 | the rest of a rotate/scale sweep is non-empty and chronological, starts at the earliest pending end, and holds only input times and every time not yet consumed |
| Merge.PairSamplesPrepend | common/Animations/GroupElement.cs:193-202 | one pass's keyframes keep the sampling property of the rest of the sweep |
| Merge.PairSweepSamples | common/Animations/GroupElement.cs:189-204 | at the first keyframe of each time a rotate/scale sweep holds the composition of the inputs' values, followed by a repeat exactly at a jump |
| Merge.MoveIterateTimes | common/Animations/GroupElement.cs:146-153 | a MergeMove pass is at an input time or exactly one step after the previous time, never more than 16 after it, and consumes only keyframes at that time |
| Merge.EarliestEndIn | common/Animations/GroupElement.cs:146-151 | the earliest pending end is an input keyframe time |
| Merge.MoveIterateEntry | common/Animations/GroupElement.cs:146-166 | after a MergeMove pass all four cursors are ready for the next one |
| Merge.MoveTimeBounds | common/Animations/GroupElement.cs:146-153 | the capped time comes after the previous one, at most 16 later, and not after any pending end |
| Merge.MoveAdvanceSpec | common/Animations/GroupElement.cs:161-166 | the four CheckNextKeyframe calls at the capped time consume only keyframes at that time |
| Merge.MoveSamplesHold | common/Animations/GroupElement.cs:155-166 | the four samples compose to the position the inputs show at the pass time and from then on, and some sample repeats exactly when an input jumps |
| Merge.MoveIterateValues | common/Animations/GroupElement.cs:155-166 | a MergeMove pass emits the composed position and a repeat with the position from then on exactly when an input jumps |
| Merge.SteppedPrepend | common/Animations/GroupElement.cs:152-153 | one pass's keyframes keep the step bound of the rest of the sweep |
| Merge.MoveSweepOrder | common/Animations/GroupElement.cs:144-168 | the rest of a move sweep is non-empty, chronological, and starts at the capped earliest end |
| Merge.MoveSweepSteps | common/Animations/GroupElement.cs:144-168 | consecutive move-sweep times are never more than 16 apart, and each is an input time, a repeat, or exactly one step after the previous |
| Merge.MoveSweepCovers | common/Animations/GroupElement.cs:144-168 | the move sweep holds the time of every keyframe not yet consumed |
| Merge.MoveLiveDone | common/Animations/GroupElement.cs:168 | when the loop stops no keyframe is left unconsumed |
| Merge.MoveSamplesPrepend | common/Animations/GroupElement.cs:155-166 | one pass's keyframes keep the sampling property of the rest of the move sweep |
| Merge.MoveSweepSamples | common/Animations/GroupElement.cs:144-168 | at the first keyframe of each time the move sweep holds the composed position, followed by a repeat exactly at a jump |
| Merge.MergedPairSpec | common/Animations/GroupElement.cs:175-248 | MergeRotate / MergeScale of sorted tracks: empty exactly when both inputs are; chronological; its times are exactly the input times; each time holds the composition of both inputs' values, with a repeat exactly where one jumps |
| Merge.SweptMoveSpec | common/Animations/GroupElement.cs:123-168 | MergeMove of sorted tracks before simplification: empty exactly when all inputs are; starts at an input time; chronological; holds every input time; steps of at most 16; the composed position at each time, with a repeat exactly where an input jumps |
| Merge.PairBody | common/Animations/GroupElement.cs:186-203 | the body of the MergeRotate / MergeScale loop computes exactly PairIterate |
| Merge.SweepPair | common/Animations/GroupElement.cs:175-248 | the `do … while` loop of MergeRotate / MergeScale returns MergedPair |
| Merge.MoveBody | common/Animations/GroupElement.cs:146-166 | the body of the MergeMove loop, `previousTime` included, computes exactly MoveIterate |
| Merge.SweepMove | common/Animations/GroupElement.cs:123-173 | the `do … while` loop of MergeMove followed by the simplification returns MergedMove |
| Authoring.Instant | common/Animations/GroupElement.cs:30-34 | Move(time, position) and its Rotate / Scale twins: the hold at `time`, then `(time, value)`; InstantSpec states its properties |
| Authoring.Linear | common/Animations/GroupElement.cs:36-41 | the linear overloads: the hold at `startTime`, then `(startTime, startValue)` and `(endTime, endValue)`; LinearSpec states its properties |
| Authoring.Eased | common/Animations/GroupElement.cs:43-58 | the eased overloads: the hold at `startTime`, `(startTime, startValue)`, then the temp track; EasedSpec states its properties |
| Authoring.EasedTemp | common/Animations/GroupElement.cs:48-55 | the temp track the eased `for` loop fills; EasedFromSpec, EasedTempSorted and EasedKeyframes state its properties |
| Authoring.Hold | common/Animations/GroupElement.cs:32 | nothing is added to an empty track; otherwise one keyframe at the new time carrying the last value on |
| Authoring.InstantSpec | common/Animations/GroupElement.cs:30-34 | Move(time, position) keeps earlier keyframes first, adds one keyframe to an empty track and two (hold, then `(time, value)`) otherwise, ends with `(time, value)`, and keeps a sorted track sorted when authored at or after its end |
| Authoring.LinearSpec | common/Animations/GroupElement.cs:36-41 | the linear overload keeps earlier keyframes first, then appends the optional hold at `startTime`, `(startTime, startValue)` and `(endTime, endValue)`, keeping a sorted track sorted |
| Authoring.EasedSpec | common/Animations/GroupElement.cs:43-58 | the eased overload keeps earlier keyframes first, then appends the optional hold, `(startTime, startValue)` and the temp track, keeping a sorted track sorted |
| Authoring.EasedSample | common/Animations/GroupElement.cs:50-54 | sample `k` is at `startTime + 16 k`, below `endTime` |
| Authoring.EasedBudgetDecreases | common/Animations/GroupElement.cs:50 | each turn of the eased `for` loop brings it closer to its end |
| Authoring.EasedFromSpec | common/Animations/GroupElement.cs:50-55 | the temp track holds sample `k` at `startTime + 16 k` for every such time below `endTime`, with the eased value, then `(endTime, endValue)`, and no further sample would fit |
| Authoring.EasedTempEmptyInterval | common/Animations/GroupElement.cs:50-55 | with `endTime <= startTime` the loop body never runs (so never divides) and the temp track is `(endTime, endValue)` alone |
| Authoring.EasedTempSorted | common/Animations/GroupElement.cs:50-55 | over a forward interval the temp track's times strictly increase and lie within the interval |
| Authoring.EasedKeyframes | common/Animations/GroupElement.cs:48-55 | the eased `for` loop fills exactly the temp track |
| Authoring.AppendSorted | common/Animations/GroupElement.cs:30-118 | appending a sorted sequence at or after a sorted track's last time keeps it sorted |
| Clipping.DrawData | common/Animations/GroupSprite.cs:35-48 | null exactly when the segment starts after the window or ends before it; otherwise the clipped times are `max(start, startTimeBase)` and `min(end, endTimeBase)`, endpoints inside keep their values, and the divisor is positive whenever it is used |
| Clipping.DrawDataWithinWindow | common/Animations/GroupSprite.cs:39-44 | for an ordered segment and a non-empty window the clipped segment is ordered and inside the window; a segment inside the window is returned unchanged |
| Clipping.DrawDataOnSegment | common/Animations/GroupSprite.cs:41-44 | with an interpolator exact at both ends, each clipped endpoint is the value Interpolate gives on the original segment at that endpoint's time |
| Clipping.LinearExactAtEnds | common/Animations/GroupSprite.cs:41-44 | both linear interpolators are exact at progress 0 and 1 |
| Clipping.ClipTrack | common/Animations/GroupSprite.cs:52-59 | ForEachPair with DrawData: the clipped segment of each consecutive pair that meets the window, in pair order; the ClipTrack lemmas state its properties |
| Clipping.ClipTrackCount | common/Animations/GroupSprite.cs:52-59 | a track yields at most one segment per consecutive pair |
| Clipping.ClipTrackWindow | common/Animations/GroupSprite.cs:52-59 | on a sorted track and a non-empty window every segment is ordered and inside the window |
| Clipping.ClipTrackOrdered | common/Animations/GroupSprite.cs:52-59 | on a sorted track the segments are chronological, and the last ends no later than the track's last keyframe or the window's end |
| Clipping.ClipTrackBounds | common/Animations/GroupSprite.cs:50-77 | the three clipping properties together |
| Clipping.ClipTrackInside | common/Animations/GroupSprite.cs:50-77 | a track wholly inside the window yields one uncut segment per consecutive pair, with the original times and values |
| Clipping.ClipTrackOutside | common/Animations/GroupSprite.cs:50-77 | a track wholly before or wholly after the window yields nothing |
| Tree.Commands | common/Animations/GroupSprite.cs:52-59 | one command per surviving segment, in pair order |
| Tree.CommandsAppend | common/Animations/GroupSprite.cs:52-59 | the commands of two lists of segments are the commands of each, in order |
| Tree.CommandsInWindow | common/Animations/GroupSprite.cs:56-58 | commands made from segments inside the window keep their times and name their sprite |
| Tree.SpriteDrawnInWindow | common/Animations/GroupSprite.cs:50-77 | a sprite drawing sorted tracks issues at most one command per consecutive pair of each track, all to its own sprite and inside its window |
| Tree.SpriteDrawn | common/Animations/GroupSprite.cs:50-77 | the three ForEachPair loops of a sprite: the move commands, then the rotate commands, then the scale commands |
| Tree.DrawnSpriteInWindow | common/Animations/GroupSprite.cs:50-77 | GroupSprite.Draw(parent…) on sorted tracks within a non-empty window issues at most one command per consecutive pair of each merged track, all to its sprite and inside its window, given that simplification keeps a sorted track sorted |
| Tree.MergedContext | common/Animations/Group.cs:22-24 | the three merged tracks a node draws or hands down under a parent context |
| Tree.Drawn | common/Animations/Group.cs:20-29 | Draw(parent…): a sprite draws its merged tracks; a group merges once and draws every child with that context; Animations.GroupElement.Draw issues exactly this |
| Tree.ChildrenDrawn | common/Animations/Group.cs:25-28 | the `foreach` over the first `k` children, in list order, all with the same context |
| Tree.ChildDrawn | common/Animations/Group.cs:27 | one child's Draw under its group's context |
| Tree.RootDrawn | common/Animations/Group.cs:30-36 | Draw(): a group hands its own tracks, unmerged, to every child; a sprite draws its own tracks; Animations.GroupElement.DrawRoot issues exactly this |
| Animations.CommandLog.Append | common/Animations/GroupSprite.cs:56-58 | a command goes to the end of the log |
| Animations.GroupElement.Group | common/Animations/Group.cs:10-13 | a new group has no children and empty tracks |
| Animations.GroupElement.SpriteVec | common/Animations/GroupSprite.cs:14-20 | a new sprite records its sprite, window and vector `scaleBase`, with empty tracks |
| Animations.GroupElement.Sprite | common/Animations/GroupSprite.cs:13 | the scalar constructor sets `scaleBase` to `scaleBase * (1, 1)` |
| Animations.GroupElement.MoveInstant | common/Animations/GroupElement.cs:30-34 | the move track becomes Instant of the old one; all other state is unchanged |
| Animations.GroupElement.MoveLinear | common/Animations/GroupElement.cs:36-41 | the move track becomes Linear of the old one; all other state is unchanged |
| Animations.GroupElement.MoveEased | common/Animations/GroupElement.cs:43-58 | the move track becomes the old one plus the hold, the start keyframe and the simplified eased temp track; all other state is unchanged |
| Animations.GroupElement.RotateInstant | common/Animations/GroupElement.cs:60-64 | as MoveInstant, on the rotate track |
| Animations.GroupElement.RotateLinear | common/Animations/GroupElement.cs:66-71 | as MoveLinear, on the rotate track |
| Animations.GroupElement.RotateEased | common/Animations/GroupElement.cs:73-88 | as MoveEased on the rotate track, without simplification |
| Animations.GroupElement.ScaleInstant | common/Animations/GroupElement.cs:90-94 | as MoveInstant, on the scale track |
| Animations.GroupElement.ScaleLinear | common/Animations/GroupElement.cs:96-101 | as MoveLinear, on the scale track |
| Animations.GroupElement.ScaleEased | common/Animations/GroupElement.cs:103-118 | as MoveEased on the scale track, without simplification |
| Animations.GroupElement.Add | common/Animations/Group.cs:15-18 | the child goes to the end of the list, the existing children keep their order, and the tracks are unchanged |
| Animations.GroupElement.MergeMove | common/Animations/GroupElement.cs:123-173 | returns MergedMove of the node's move track against the parent context |
| Animations.GroupElement.MergeRotate | common/Animations/GroupElement.cs:175-207 | returns MergedRotate of the node's rotate track against the parent's |
| Animations.GroupElement.MergeScale | common/Animations/GroupElement.cs:209-248 | returns MergedScale of the node's scale track against the parent's |
| Animations.GroupElement.ModelChild | common/Animations/Group.cs:8 | child `i` of the snapshot is the snapshot of child `i` |
| Animations.GroupElement.EmitPairs | common/Animations/GroupSprite.cs:52-59 | one ForEachPair loop appends exactly the commands of the clipped track to the log |
| Animations.GroupElement.EmitSprite | common/Animations/GroupSprite.cs:50-77 | the three loops append the move, then the rotate, then the scale commands (scales times `scaleBase`) |
| Animations.GroupElement.MergeContext | common/Animations/Group.cs:22-24 | the three merges of a draw are computed once, from the node's own tracks |
| Animations.GroupElement.Draw | common/Animations/Group.cs:20-29 | Draw(parent…) appends exactly what the snapshot issues: a group merges once and draws every child with that same context in list order; a sprite draws its merged tracks. Only the log changes |
| Animations.GroupElement.DrawChild | common/Animations/Group.cs:25-28 | child `i` draws with the group's merged context after the children before it |
| Animations.GroupElement.DrawChildren | common/Animations/Group.cs:25-28 | the `foreach` appends the children's commands in list order, all drawn with the same context |
| Animations.GroupElement.DrawRoot | common/Animations/Group.cs:30-36 | Draw() does no merging: a group hands its own tracks to every child in list order, a sprite draws its own tracks. Only the log changes |
| Findings.WrittenTime | common/Animations/GroupElement.cs:146-152 | as written: the earliest pending end from +infinity, capped at `previousTime + 16` unless `previousTime` is NaN |
| Findings.WrittenStep | common/Animations/GroupElement.cs:146-166 | as written: one pass over one-keyframe inputs picks the time, records it as `previousTime` and finishes the inputs whose end it reaches |
| Findings.WrittenEmptyAtInfinity | common/Animations/GroupElement.cs:189-192 | as written, a merge whose inputs are all empty picks `time = +infinity` and stops after one pass |
| Findings.WrittenStuck | common/Animations/GroupElement.cs:146-153 | as written, with a finite previous time and every pending end at +infinity, each pass moves time on by exactly 16 and finishes no input |
| Findings.HangForever | common/Animations/GroupElement.cs:144-168 | as written, MergeMove for a sprite with one Move keyframe at 0, under two groups without keyframes, is still pending after every pass |
| Findings.CorrectedHangStart | common/Animations/GroupElement.cs:123-248 | the corrected merges of that tree are empty for the groups, and the sprite's sweep ends after its one keyframe at 0 |
| Findings.WrittenEarliest | common/Animations/GroupElement.cs:146-151 | the chain of `if (check && end.Time < time)` from +infinity gives a pending end no later than any other, or +infinity when nothing is pending |

## Left out

- `KeyframedValue`, `EasingFunctions`, `InterpolatingFunctions` and `OsbSprite` are not part of this model. Tracks are sequences, `Add(time, value)` appends, `Add(time)` appends a hold repeating the last value, `TransferKeyframes` appends, and `ForEachPair` visits consecutive index pairs. The interpolators are linear. The sprites are a command log.
- KeyframedValue's sorted insertion, if it has one, is not modelled. The sortedness lemmas say when authoring keeps a track sorted, and the merge theorems take sorted inputs.
- Merge.MergedMove: `Simplify2dKeyframes` is an arbitrary function of the sweep (`Externals.simplify`). The theorems are about the sweep before simplification (SweptMoveSpec). Tree.DrawnSpriteInWindow assumes only that simplification keeps a sorted track sorted. The eased Move overload is treated the same way.
- Floating point is left out. Times and values are `real` with exact equality. The `(float)` casts in MoveFormula and GroupSprite are left out, as are `Vector2` float equality in CheckNextKeyframe and the rounding of `time += KEYFRAME_TIMESTEP`.
- `Math.Cos` and `Math.Sin` are uninterpreted. The lemmas that need facts about them (value at 0, the Pythagorean identity, angle addition) take those facts as preconditions.
- The easing function is an arbitrary `real -> real`; `ToEasingFunction` is not part of this model.
- Group, GroupSprite and the abstract GroupElement are one class with an `isGroup` tag. A group's sprite fields are unused.
- Animations.GroupElement.Add: requires that the new child does not already contain the group, so the tree stays acyclic. The source does not check this; a cycle would make Draw recurse forever. Add keeps only the receiving group valid: a group that is already a child of another group does not pass its new child up to its ancestors' footprint.
- Both `Draw` overloads are proved against `Model()`, a value snapshot of the tree. They promise nothing about a tree changed while it is being drawn (drawing changes only the log).
- Animations.GroupElement.Sprite: Dafny constructors have no default arguments, so the scalar `scaleBase` is always passed; the code's default is DEFAULT_SCALE (1).
- Sprite3d, Builder and HasOsbSprite are not part of this model: projection numerics, I/O, and an interface.
- Merge.MergedPair and Merge.MergedMove: on inputs that are all empty they return the empty track, not the single keyframe at +infinity the code emits. Sampled on its own, either track shows the channel default at every time, but the difference shows below a group without keyframes. A child that merges its own rotate or scale track against `[(+infinity, d)]` gets one more keyframe, at +infinity, so ForEachPair yields one more pair, and DrawData clips it to a constant command that ends at the window's end. For a sprite with rotate track `[(0, a), (100, b)]`, no Move keyframes and window `[0, 200]`, under a root group and a middle group without keyframes, the code issues `Rotate(0, 100, a, b)` and then `Rotate(100, 200, b, b)`. Tree.Drawn, and so Animations.GroupElement.Draw and DrawRoot, issue only the first. A child's MergeMove against such a track never ends when one of its inputs has a keyframe at a finite time (see Findings); when every input is empty or ends at +infinity, its first pass is at +infinity and the loop stops there.

## Findings

| source | as written | input that shows it | evidently intended | confidence | as-written member | corrected member |
|---|---|---|---|---|---|---|
| common/Animations/GroupElement.cs:146-153 | MergeRotate / MergeScale of two empty tracks emit their one keyframe at `time = +infinity`, and Group.Draw hands that track to its children. In a child's MergeMove a pending end at +infinity is never reached once `previousTime` is finite, because `Math.Min(previousTime + 16, time)` stays finite. The do-while loop never ends | a root group and a middle group with no keyframes, and below them a sprite with one Move keyframe at time 0: after the pass at 0, pass `n + 1` is at `16 n` with three inputs still pending, for every `n` | a merge of empty tracks yields an empty track (the default everywhere), so every sweep ends at the last input keyframe | high for the model; not executed | Findings.HangForever | Merge.MergedPairSpec |
