# Aesthetic face-simulation core, modelled in Dafny

Aesthetic is a web application for previewing cosmetic treatments on a face photo. A practitioner captures or uploads a photo and picks a facial region. Sliders then describe the intended change (lip volume, jaw definition, forehead relaxation and so on). The application shows the change in two ways:

- **Live simulation.** The MediaPipe face landmarks become a triangle mesh. Filler sliders become morph-target intensities, and Botox sliders drive a luma-only blur inside UV rectangles.
- **Generative edit.** The sliders and the region are turned into a text prompt and a region mask for an inpainting request.

Two generations of the app live side by side: the current one under `src/` and an earlier one under `lib/`, `store/` and `types/`.

This project models the logic of both generations that can be stated over numbers, sequences and maps. One Dafny module corresponds to one source file or data table:

- `ControlMapping`: weighted-mean mapping of slider values onto morph-target intensities, and the fold of a whole edit history (`controlMapping.ts`).
- `MorphTargets`: the filler and Botox catalogs and their lookups (`morphTargets.ts`).
- `MeshBuilder` and `Vectors`: the face-mesh buffers built in place in arrays: positions, texture coordinates, the filtered triangle list and accumulated vertex normals (`meshBuilder.ts`).
- `Masks` and `FaceLayout`: polygon resolution behind the inpainting mask and the region overlay, with the canvas modelled as the list of drawing commands issued (`masks.ts`).
- `Glsl`, `ZoneShading`, `FillerShaders` and `FaceShaders`: the morph blend of the vertex shaders and the blur rule of the fragment shaders of both generations, as functions and loops over exact reals (both `shaders.ts` files).
- `EditText` and `InpaintPrompt`: the current inpainting prompt (`src/lib/prompts.ts`). `ClinicalPrompt` is the earlier clinical prompt (`lib/prompts.ts`).
- `PromptStore`: the editable prompt configuration (`src/lib/store/prompts.ts`). `SessionStore.Store` and `AppStore.Store` are classes for the two session stores.
- `LandmarkIndices`: the earlier app's landmark lists (`lib/landmarks.ts`).
- `ClinicalRecipe`, `MeshSimulator` and `SimulationControls`: the pure logic inside those three components. This covers recipe derivation, the clamping hook and canvas fitting, and category grouping, label formatting and slider percentages.
- `JsRecord`, `JsMath`, `Seqs`, `Text` and `Wrappers`: the JavaScript built-ins the core relies on. These are objects whose key order matters, `Math.round`, `find`/`filter`, `join`/`trim`/template literals, and `Option`.

Code that updates variables or buffers step by step is modelled imperatively, each method proved against a specification function. This covers the mesh buffers, the accumulation loops in the shaders and the control mapping, the recipe's `Map.set` loop, the grouping `reduce`, the canvas fitting and both session stores. Code built from expressions and spreads is modelled as functions with lemmas. Where a source file and its description disagree, the model follows the code.

## Model

| member | source | states |
|---|---|---|
| AppStore.InitialRegionStateIsZero | store/session.ts:4-13 | every one of the eight regions has a slider record and every slider in it starts at 0 |
| AppStore.Store.constructor | store/session.ts:15-21 | the store starts at the simulation step with no images, no active region, all sliders at 0 and an empty history |
| AppStore.Store.SetStep | store/session.ts:23 | only the current step changes |
| AppStore.Store.SetOriginalImage | store/session.ts:24 | the new photo becomes both the original and the current design image; nothing else changes |
| AppStore.Store.SetActiveRegion | store/session.ts:25 | only the active region changes (it may be cleared) |
| AppStore.Store.UpdateRegionControl | store/session.ts:27-36 | the written slider reads back as the value; every other slider of that region and every other region read as before |
| AppStore.Store.AddToHistory | store/session.ts:38-42 | the item is appended after the existing history and its result becomes the current design image; the original image is unchanged |
| AppStore.SetControlOnlyChangesControl | store/session.ts:27-36 | the nested spread update changes exactly one slider of one region |
| AppStore.SetControlsCommute | store/session.ts:27-36 | slider updates in two different regions give the same state in either order |
| SessionStore.Store.constructor | src/lib/store/session.ts:51-64 | the store starts at the scan step with no images, no region, no sliders, empty notes and history, not processing and no landmarks |
| SessionStore.Store.SetStep | src/lib/store/session.ts:66 | only the step changes |
| SessionStore.Store.SetCapturedImage | src/lib/store/session.ts:68-69 | sets the captured image, clears the active image and moves to the simulation step; history, landmarks and sliders are untouched |
| SessionStore.Store.SetActiveImage | src/lib/store/session.ts:71 | only the active image changes |
| SessionStore.Store.SetSelectedRegion | src/lib/store/session.ts:73-74 | selecting a region, or clearing the selection, also empties the slider values and the notes |
| SessionStore.Store.SetControlValue | src/lib/store/session.ts:76-79 | the key reads back as the value and every other key reads as before |
| SessionStore.Store.ResetControls | src/lib/store/session.ts:81 | slider values and notes are cleared and the selected region is kept |
| SessionStore.Store.SetNotes | src/lib/store/session.ts:83 | only the notes change |
| SessionStore.Store.AddVersion | src/lib/store/session.ts:85-89 | the entry is appended after all earlier entries, which stay unchanged, and its output image becomes the active image |
| SessionStore.Store.SetIsProcessing | src/lib/store/session.ts:91 | only the processing flag changes |
| SessionStore.Store.SetLandmarks | src/lib/store/session.ts:93 | only the landmarks change |
| SessionStore.Store.Reset | src/lib/store/session.ts:95 | the whole state is back to the initial state |
| PromptStore.PromptsOf | src/lib/store/prompts.ts:16-21 | a control's default record defines exactly the four intensities, each with that control's wording |
| PromptStore.ControlsOf | src/lib/store/prompts.ts:35-214 | a default region's controls are exactly its described controls, each defining all four intensities |
| PromptStore.DefaultPrompts | src/lib/store/prompts.ts:23-216 | the defaults hold the default system prompt and exactly the described regions, each with its location phrase and controls that define all four intensities |
| PromptStore.SetSystemPrompt | src/lib/store/prompts.ts:235-238 | the system prompt becomes the new text and the regions are unchanged |
| PromptStore.SetRegionLocation | src/lib/store/prompts.ts:240-252 | the region's location becomes the new phrase and its controls are kept (absent for a new region); other regions and the system prompt are unchanged |
| PromptStore.SetControlPrompt | src/lib/store/prompts.ts:254-272 | only the wording at (region, control, intensity) changes, the control being created when missing; the region must exist with controls, as the code dereferences `.controls` |
| PromptStore.ResetToDefaults | src/lib/store/prompts.ts:274 | the configuration after a reset is the default configuration, whatever it was before |
| PromptStore.SetControlPromptIdempotent | src/lib/store/prompts.ts:254-272 | setting the same wording twice is the same as setting it once |
| PromptStore.OtherSettersIdempotent | src/lib/store/prompts.ts:235-252 | setting the same location or system prompt twice is the same as setting it once |
| PromptStore.SetWordingsCommute | src/lib/store/prompts.ts:262-267 | wording edits at different (control, intensity) keys of one region commute |
| PromptStore.SetControlPromptsCommute | src/lib/store/prompts.ts:254-272 | wording edits at different (region, control, intensity) keys commute |
| PromptStore.DefaultSystemPromptHasPlaceholder | src/lib/store/prompts.ts:24-33 | the default system prompt contains `{TASK_PROMPT}` right after its opening paragraph |
| PromptStore.DefaultControlsAreComplete | src/lib/store/prompts.ts:35-214 | every default region has controls and every default control defines all four intensities |
| PromptStore.DefaultRegionsFollowTable | src/lib/store/prompts.ts:35-214 | the default regions (`getDefaultPrompts().regions`) are exactly the described regions, each with its location phrase |
| EditText.Level | src/lib/prompts.ts:9-14 | a value picks the first description exactly when it is at most 25, the second exactly when in (25,50], the third exactly when in (50,75], the fourth exactly above 75 |
| EditText.LevelIsMonotone | src/lib/prompts.ts:9-14 | a higher slider value never picks a milder description |
| EditText.TableIsWellFormed | src/lib/prompts.ts:7-174 | every described region has a location phrase, and no region or control is listed twice |
| InpaintPrompt.Numbered | src/lib/prompts.ts:198 | line j is the number j+1, ". " and description j, one line per description |
| InpaintPrompt.Pushed | src/lib/prompts.ts:184-190 | at most one description per tabled control, and none at all exactly when no tabled control has a positive value |
| InpaintPrompt.Header | src/lib/prompts.ts:196-197 | the header is the fixed `TASK: Edit ` text, the location verbatim, then the photo sentence and the `CHANGES TO APPLY:` line |
| InpaintPrompt.NotesSuffix | src/lib/prompts.ts:200-202 | the notes suffix is empty exactly when the notes are missing or blank after trimming |
| InpaintPrompt.BuildInpaintPrompt | src/lib/prompts.ts:176-205 | "" for a region without descriptions or with no positive described control; otherwise the header naming the region's location, the numbered descriptions joined by newlines, then the notes suffix |
| InpaintPrompt.PromptForControls | src/lib/prompts.ts:184-204 | "" when no description was pushed; otherwise header, numbered list and notes suffix |
| InpaintPrompt.CollectDescriptions | src/lib/prompts.ts:184-190 | the loop pushes, in table order, the description of each control whose value (missing counts as 0) is positive |
| InpaintPrompt.DescribedRegionHasLocation | src/lib/prompts.ts:181-194 | a region with descriptions always has a location phrase |
| InpaintPrompt.PushedAreActiveControls | src/lib/prompts.ts:185-190 | the descriptions are exactly those of the active controls, in table order, each at the level of its value, so k positive controls give k lines |
| InpaintPrompt.UntabledKeysIgnored | src/lib/prompts.ts:185-186 | slider keys outside the region's table never change the descriptions |
| InpaintPrompt.NumberingStartsAtOne | src/lib/prompts.ts:198 | the numbered list starts with "1. " and the first description |
| ClinicalTypes.NamesAreDistinct | types/index.ts:1-9 | distinct simulation regions have distinct string values, so `region === 'LIPS'` singles out one region |
| ClinicalPrompt.LipVolumePhrase | lib/prompts.ts:21-25 | lip volume below 30 gives the subtle phrase, 30 to 59 the moderate one, 60 and up the bold one |
| ClinicalPrompt.ActiveEntries | lib/prompts.ts:13 | every entry kept by the active filter has a positive value |
| ClinicalPrompt.NoActiveEntryIffNonePositive | lib/prompts.ts:13-14 | there is no active entry exactly when no slider value is positive |
| ClinicalPrompt.GenericAll | lib/prompts.ts:65-71 | one generic description per active entry, in entry order |
| ClinicalPrompt.Descriptions | lib/prompts.ts:16-71 | the change list is empty exactly when nothing the region describes is positive: no named control of LIPS, JAWLINE, CHEEKS or NOSE, no entry at all for the other regions |
| ClinicalPrompt.HandWordedEmptyIff | lib/prompts.ts:19-62 | a hand-worded region describes nothing exactly when none of its named controls is positive, so LIPS with only `width` positive gets an empty change list |
| ClinicalPrompt.Template | lib/prompts.ts:76-89 | the prompt is the fixed head naming the region, the change list verbatim at the head's length, then the fixed constraints |
| ClinicalPrompt.TemplateDeterminesChanges | lib/prompts.ts:76-89 | two prompts for the same region are equal only when their change lists are equal |
| ClinicalPrompt.BuildClinicalPrompt | lib/prompts.ts:4-90 | null when the state has no record for the region, and, for a region with a record, null exactly when no value is positive; otherwise the template naming the region around the descriptions joined by ", " |
| ClinicalPrompt.DescriptionPasses | lib/prompts.ts:16-71 | the hand-worded blocks followed by the fallback give the region's descriptions |
| ClinicalPrompt.HandWordedPass | lib/prompts.ts:19-62 | the four region blocks describe only their named controls, in the written order, and nothing for any other region |
| ClinicalPrompt.LipVolumePass | lib/prompts.ts:21-25 | a positive lip volume gives its bucketed phrase with the percentage, otherwise nothing |
| ClinicalPrompt.GenericPass | lib/prompts.ts:65-71 | the fallback appends one generic description per active entry for the other regions and nothing for the four hand-worded ones |
| ClinicalPrompt.GenericAllSnoc | lib/prompts.ts:65-71 | the fallback's descriptions grow by one per further active entry |
| ClinicalPrompt.OnlyNamedControlsMatter | lib/prompts.ts:19-71 | for LIPS, JAWLINE, CHEEKS and NOSE only the named controls affect the descriptions; other keys such as the lips' `width` are dropped |
| Text.NatToString | lib/prompts.ts:22 | the decimal digits of a number, with no leading zero |
| Text.ParseNatToString | lib/prompts.ts:22 | reading the decimal digits back gives the number |
| Text.Join | lib/prompts.ts:73 | joining no parts gives "" and joining one part gives that part |
| Text.JoinSnoc | lib/prompts.ts:73 | joining one more part appends the separator and then that part, so the parts appear in order with one separator between neighbours |
| Text.JoinLength | lib/prompts.ts:73 | the joined string is as long as all parts together plus one separator per neighbouring pair |
| Text.TrimStart | src/lib/prompts.ts:200-201 | drops exactly the leading whitespace: the result is a suffix that is empty or starts with non-whitespace |
| Text.TrimEnd | src/lib/prompts.ts:200-201 | drops exactly the trailing whitespace: the result is a prefix that is empty or ends with non-whitespace |
| Text.Trim | src/lib/prompts.ts:200-201 | the result is the input with a whitespace-only prefix and a whitespace-only suffix cut off, and it is empty or starts and ends with non-whitespace |
| Text.ReplaceFirst | lib/prompts.ts:69 | with no occurrence of the character the key is unchanged; otherwise exactly the first occurrence, at `indexOf`, is replaced |
| Text.IndexOf | lib/prompts.ts:69 | -1 exactly when the character is absent; otherwise an index holding it with no earlier occurrence |
| Text.IndexOfString | src/components/simulation/SimulationControls.tsx:82 | -1 exactly when the pattern occurs nowhere; otherwise a position where it occurs with no earlier occurrence |
| Text.RemoveFirst | src/components/simulation/SimulationControls.tsx:82 | a name without the "category_" pattern is unchanged; otherwise exactly its first occurrence is cut out, so a name starting with the prefix loses that prefix |
| ControlMapping.Intensity | src/lib/meshSimulation/controlMapping.ts:81-86 | the stored intensity always lies in [0, 1] |
| ControlMapping.MapControls | src/lib/meshSimulation/controlMapping.ts:46-90 | the Botox values are kept, every filler key of the base state is kept, and any filler value that is new or changed lies in [0, 1] |
| ControlMapping.Cumulative | src/lib/meshSimulation/controlMapping.ts:97-109 | folding the history into the empty state never sets a Botox value, and every filler value lies in [0, 1] |
| ControlMapping.AccumulateWeights | src/lib/meshSimulation/controlMapping.ts:71-79 | the loop leaves the weighted sum and the active weight of the controls whose value (missing counts as 0) is positive, visited in row order |
| ControlMapping.MapControlsToSimulation | src/lib/meshSimulation/controlMapping.ts:46-90 | the result is the existing state (or the empty one) for a sub-region without a weight row or target, else that state with the first target's value set to the clamped weighted mean |
| ControlMapping.BuildCumulativeSimulation | src/lib/meshSimulation/controlMapping.ts:97-109 | the loop folds the history's edits in order, starting from empty filler and Botox maps |
| ControlMapping.WeightTableFollowsCatalog | src/lib/meshSimulation/controlMapping.ts:12-37 | the weight table lists exactly the morph targets' sub-regions, in catalog order |
| ControlMapping.WeightRowsAreDistributions | src/lib/meshSimulation/controlMapping.ts:12-37 | every weight is positive and every row's weights add up to 1 |
| ControlMapping.LipRowsAreDistributions | src/lib/meshSimulation/controlMapping.ts:13-18 | the five lip rows have positive weights adding up to 1 |
| ControlMapping.OtherRowsAreDistributions | src/lib/meshSimulation/controlMapping.ts:19-37 | the other ten rows have positive weights adding up to 1 |
| ControlMapping.ListedRegionLookup | src/lib/meshSimulation/controlMapping.ts:56-66 | a listed sub-region finds its weight row and exactly one morph target, its catalog entry |
| ControlMapping.WeightedIffTarget | src/lib/meshSimulation/controlMapping.ts:56-63 | a sub-region has a weight row exactly when it has a morph target, so the `targets.length === 0` return is never taken |
| ControlMapping.WeightedHasTarget | src/lib/meshSimulation/controlMapping.ts:56-63 | a sub-region with a weight row has a morph target |
| ControlMapping.TargetHasWeights | src/lib/meshSimulation/controlMapping.ts:56-63 | a sub-region with a morph target has a weight row |
| ControlMapping.ListedRegionEdit | src/lib/meshSimulation/controlMapping.ts:83-89 | an edit of a listed sub-region sets only its target's filler value; every other filler key and all Botox values are carried over |
| ControlMapping.UnlistedRegionKeepsState | src/lib/meshSimulation/controlMapping.ts:51-60 | a sub-region without a weight row returns the existing state unchanged, or the empty state when none is given |
| ControlMapping.TargetlessRegionKeepsState | src/lib/meshSimulation/controlMapping.ts:56-63 | a sub-region no morph target belongs to (e.g. `upperFace_forehead`, `nose_base`) leaves the state unchanged |
| ControlMapping.NoActiveControlNoTotals | src/lib/meshSimulation/controlMapping.ts:71-79 | with no positive slider nothing accumulates |
| ControlMapping.NoActiveControlGivesZero | src/lib/meshSimulation/controlMapping.ts:71-86 | with no positive slider the target is still written, with intensity 0 |
| ControlMapping.ActiveWeightIffActiveSlider | src/lib/meshSimulation/controlMapping.ts:71-81 | with positive weights the active weight is positive exactly when some slider in the row is positive |
| ControlMapping.WeightedSumBounds | src/lib/meshSimulation/controlMapping.ts:71-79 | when every active slider over 100 lies in [l, h], the weighted sum lies between l and h times the active weight |
| ControlMapping.WeightedSumStep | src/lib/meshSimulation/controlMapping.ts:75-78 | one loop step keeps the weighted sum between l and h times the active weight |
| ControlMapping.IntensityBetween | src/lib/meshSimulation/controlMapping.ts:68-81 | the intensity lies between the least and the greatest active slider value over 100 |
| ControlMapping.MeanWithin | src/lib/meshSimulation/controlMapping.ts:81 | the mean of totals within [l, h] times the active weight lies within [l, h] |
| ControlMapping.IdleSlidersDoNotDilute | src/lib/meshSimulation/controlMapping.ts:68-81 | when every active slider stands at x, the intensity is x/100, however many sliders are idle |
| ControlMapping.SingleSliderExample | src/lib/meshSimulation/controlMapping.ts:68-70 | an upper-lip volume slider alone at 85 sets `lips_upper_volume` to 0.85 and nothing else |
| ControlMapping.UpperLipVolumeAlone | src/lib/meshSimulation/controlMapping.ts:68-81 | the upper-lip row with only volume at 85 gives intensity 0.85 |
| ControlMapping.NoStateIsEmptyState | src/lib/meshSimulation/controlMapping.ts:51-54 | a missing existing state behaves as the empty state |
| ControlMapping.OtherEditKeeps | src/lib/meshSimulation/controlMapping.ts:83-89 | an edit of another sub-region keeps a target's entry (its presence and its value) |
| ControlMapping.CumulativeKeys | src/lib/meshSimulation/controlMapping.ts:97-109 | a target has a cumulative value exactly when some history entry edits its sub-region |
| ControlMapping.LatestEntryWins | src/lib/meshSimulation/controlMapping.ts:97-109 | the last history entry that edits a sub-region alone decides its target's value |
| ControlMapping.EditsOfDistinctRegionsCommute | src/lib/meshSimulation/controlMapping.ts:83-109 | edits of two different sub-regions give the same state in either order |
| ControlMapping.ReapplyingAnEditChangesNothing | src/lib/meshSimulation/controlMapping.ts:83-89 | applying the same edit twice gives the state of applying it once |
| JsMath.ClampUnit | src/lib/meshSimulation/controlMapping.ts:86 | `Math.max(0, Math.min(1, x))` lies in [0, 1] and is x when x already does |
| JsRecord.Get | src/lib/meshSimulation/controlMapping.ts:74 | a key's lookup finds the value stored under it, and misses exactly when the key is absent |
| JsRecord.Put | src/lib/store/session.ts:78 | a spread update `{ ...r, [k]: v }` keeps the key order when the key exists and appends the key at the end otherwise |
| JsRecord.GetPutSame | src/lib/store/session.ts:78 | the key written reads back as the value written |
| JsRecord.GetPutOther | src/lib/store/session.ts:78 | every other key reads as before |
| JsRecord.PutPut | src/lib/store/session.ts:78 | writing a key twice is the same as writing the last value once |
| JsRecord.PutKeepsKeysDistinct | src/lib/store/session.ts:78 | a spread update never duplicates a key |
| MorphTargets.GetMorphTarget | src/lib/meshSimulation/morphTargets.ts:272-274 | the first catalog target with that name, or nothing exactly when no target has that name |
| MorphTargets.GetMorphTargetsForRegion | src/lib/meshSimulation/morphTargets.ts:279-281 | exactly the catalog targets whose region is the one asked for |
| MorphTargets.GetBotoxZone | src/lib/meshSimulation/morphTargets.ts:286-288 | the first zone with that name, or nothing exactly when no zone has that name |
| MorphTargets.GetBotoxZonesForRegion | src/lib/meshSimulation/morphTargets.ts:293-295 | exactly the zones whose region is the one asked for |
| MorphTargets.MorphTargetNamesDistinct | src/lib/meshSimulation/morphTargets.ts:12-198 | the fifteen target names are pairwise distinct |
| MorphTargets.TargetNamesDistinct | src/lib/meshSimulation/morphTargets.ts:7-208 | no two catalog targets share a name |
| MorphTargets.MorphTargetRegionsDistinct | src/lib/meshSimulation/morphTargets.ts:13-199 | the fifteen target sub-regions are pairwise distinct |
| MorphTargets.TargetRegionsDistinct | src/lib/meshSimulation/morphTargets.ts:7-208 | no two catalog targets share a sub-region |
| MorphTargets.OneTargetPerRegion | src/lib/meshSimulation/morphTargets.ts:279-281 | the lookup for a target's sub-region returns exactly that target |
| MorphTargets.CustomTargetsCarryDirection | src/lib/meshSimulation/morphTargets.ts:7-208 | a target carries a custom direction exactly when its deformation type is "custom" |
| MorphTargets.DisplacementAndBlurBounds | src/lib/meshSimulation/morphTargets.ts:7-267 | every maximum displacement lies in (0, 0.06] and every maximum blur strength in (0, 1] |
| MorphTargets.ZoneRectanglesValid | src/lib/meshSimulation/morphTargets.ts:214-267 | every zone has 0 ≤ minU < maxU ≤ 1 and 0 ≤ minV < maxV ≤ 1 |
| MorphTargets.CatalogIndicesInLayout | src/lib/meshSimulation/morphTargets.ts:7-267 | every vertex and landmark index of both catalogs is below 468 |
| MorphTargets.LipIndicesInLayout | src/lib/meshSimulation/morphTargets.ts:11-73 | the five lip targets' vertex indices are below 468 |
| MorphTargets.MidfaceIndicesInLayout | src/lib/meshSimulation/morphTargets.ts:77-99 | the cheek and midface targets' vertex indices are below 468 |
| MorphTargets.FoldIndicesInLayout | src/lib/meshSimulation/morphTargets.ts:103-131 | the nasolabial and tear-trough targets' vertex indices are below 468 |
| MorphTargets.LowerFaceIndicesInLayout | src/lib/meshSimulation/morphTargets.ts:136-207 | the lower-face and nose targets' vertex indices are below 468 |
| MorphTargets.ZoneIndicesInLayout | src/lib/meshSimulation/morphTargets.ts:214-267 | the five zones' landmark indices are below 468 |
| MorphTargets.CrowsFeetHasTwoZones | src/lib/meshSimulation/morphTargets.ts:237-295 | the crow's-feet lookup returns two zones, the left one then the right one |
| MorphTargets.IndexListsMayRepeat | src/lib/meshSimulation/morphTargets.ts:103-110 | `nasolabial_fill` lists landmark 4 twice, so index lists are sequences, not sets |
| Seqs.FindFirst | src/lib/meshSimulation/morphTargets.ts:273 | `Array.find`: nothing exactly when no element matches; otherwise a matching element with no match before it |
| Seqs.Filter | src/lib/meshSimulation/morphTargets.ts:280 | `Array.filter`: every kept element matches, and every matching element is kept |
| Seqs.FilterAppend | src/lib/meshSimulation/morphTargets.ts:280 | filtering a concatenation filters each part in turn, so order is kept |
| Seqs.FilterUnique | src/lib/meshSimulation/morphTargets.ts:280 | when exactly one element matches, the filter returns just that element |
| MeshBuilder.TableShape | src/lib/meshSimulation/meshBuilder.ts:7-59 | the triangle table holds 444 entries (148 whole triangles) and every corner index is below 467, so inside the 468-point landmark layout |
| MeshBuilder.UpperSectionsBelow | src/lib/meshSimulation/meshBuilder.ts:8-35 | the forehead, eye, nose and upper-lip sections of the table only name landmarks below 467 |
| MeshBuilder.LowerSectionsBelow | src/lib/meshSimulation/meshBuilder.ts:37-58 | the lower-lip, cheek, jawline and chin sections of the table only name landmarks below 467 |
| MeshBuilder.TableHasDegenerateTriangles | src/lib/meshSimulation/meshBuilder.ts:15-41 | the forehead, both eye, upper-lip and lower-lip sections each end in a triple that repeats a corner (10,109,10 / 33,246,33 / 263,466,263 / 0,37,0 / 14,317,14) |
| MeshBuilder.Positions | src/lib/meshSimulation/meshBuilder.ts:86-88 | one vertex position per landmark |
| MeshBuilder.Uvs | src/lib/meshSimulation/meshBuilder.ts:91-92 | one texture coordinate per landmark |
| MeshBuilder.UvFollowsPosition | src/lib/meshSimulation/meshBuilder.ts:86-92 | a landmark's texture coordinate is its vertex position mapped from [-1,1] back onto [0,1] (u = (x+1)/2, v = (y+1)/2): x and y flipped consistently |
| MeshBuilder.PositionInClipSquare | src/lib/meshSimulation/meshBuilder.ts:86-92 | a landmark inside the image gets a position inside the [-1,1] square and a texture coordinate inside [0,1] |
| MeshBuilder.Unflatten3 | src/lib/meshSimulation/meshBuilder.ts:138-140 | reading a flat buffer three reals at a time gives the vectors it stores |
| MeshBuilder.StoresUnique | src/lib/meshSimulation/meshBuilder.ts:138-140 | a flat buffer stores exactly one list of vectors |
| MeshBuilder.StoresUpdate | src/lib/meshSimulation/meshBuilder.ts:152-154 | writing the three slots of vertex i stores the vector list with entry i replaced and nothing else changed |
| MeshBuilder.KeptTriangles | src/lib/meshSimulation/meshBuilder.ts:100-110 | the kept list is made of whole triangles, is no longer than the table, and every corner in it is below the landmark count |
| MeshBuilder.FirstKept | src/lib/meshSimulation/meshBuilder.ts:103-109 | one triple is either kept whole (all corners below the count) or dropped |
| MeshBuilder.KeptTrianglesAppend | src/lib/meshSimulation/meshBuilder.ts:102-110 | filtering two tables one after the other gives the concatenation of their filtered lists |
| MeshBuilder.KeptTrianglesAllInRange | src/lib/meshSimulation/meshBuilder.ts:107-108 | a table whose corners are all below the count is kept whole |
| MeshBuilder.KeptTrianglesWholeOnlyInRange | src/lib/meshSimulation/meshBuilder.ts:107-108 | conversely, a table is kept whole only if all its corners are below the count |
| MeshBuilder.KeptTrianglesDropsOutOfRange | src/lib/meshSimulation/meshBuilder.ts:107 | a triangle with a corner at or above the landmark count is dropped |
| MeshBuilder.KeptTrianglesKeepsInRange | src/lib/meshSimulation/meshBuilder.ts:107-108 | a triangle with every corner below the landmark count is pushed, in order |
| MeshBuilder.KeptTrianglesStep | src/lib/meshSimulation/meshBuilder.ts:102-110 | one more loop step extends the filtered prefix by the next triple exactly when that triple is kept |
| MeshBuilder.FullLayoutKeepsWholeTable | src/lib/meshSimulation/meshBuilder.ts:5-7 | with 467 or more landmarks (the full 468-point layout) every table triangle is used |
| MeshBuilder.NoLandmarksNoTriangles | src/lib/meshSimulation/meshBuilder.ts:100-112 | with no landmarks the index buffer is empty |
| MeshBuilder.Accumulated | src/lib/meshSimulation/meshBuilder.ts:131-155 | one normal sum per vertex |
| MeshBuilder.AddToCorners | src/lib/meshSimulation/meshBuilder.ts:152-154 | adding a face normal to three corners keeps one sum per vertex |
| MeshBuilder.AccumulatedStep | src/lib/meshSimulation/meshBuilder.ts:132-155 | one more triangle adds its edge cross product to the sums of its three corners, a then b then c |
| MeshBuilder.VertexNormals | src/lib/meshSimulation/meshBuilder.ts:123-174 | computeNormals leaves one normal per vertex |
| MeshBuilder.DegenerateFaceNormal | src/lib/meshSimulation/meshBuilder.ts:143-149 | a triangle with two equal corners has a zero face normal |
| MeshBuilder.DegenerateTriangleAddsNothing | src/lib/meshSimulation/meshBuilder.ts:152-154 | so a degenerate triangle (as in the table's repeated-corner triples) leaves every sum unchanged |
| MeshBuilder.UnusedVertexStaysZero | src/lib/meshSimulation/meshBuilder.ts:129-155 | a vertex that no kept triangle uses keeps a zero sum |
| MeshBuilder.UnusedVertexFacesCamera | src/lib/meshSimulation/meshBuilder.ts:165-172 | so it ends with the normal (0, 0, 1), facing the camera |
| MeshBuilder.VertexNormalAt | src/lib/meshSimulation/meshBuilder.ts:158-173 | each stored normal is its sum divided by the computed length, or the sum with z set to 1 when that length is not positive |
| MeshBuilder.NormalIsUnit | src/lib/meshSimulation/meshBuilder.ts:163-168 | where the computed length is the sum's true, positive length, the stored normal has length 1 |
| MeshBuilder.ZeroLengthNormal | src/lib/meshSimulation/meshBuilder.ts:169-172 | where the computed length is not positive, the normal keeps the sum's x and y and gets z = 1 |
| MeshBuilder.BuildFaceMesh | src/lib/meshSimulation/meshBuilder.ts:65-118 | the mesh stores one position and one texture coordinate per landmark, exactly the table triangles whose corners are landmarks, every index names a vertex, and the normals computeNormals derives from those positions and triangles |
| MeshBuilder.FillVertexBuffers | src/lib/meshSimulation/meshBuilder.ts:75-98 | the per-landmark loop fills the position and texture buffers with every landmark's position and texture coordinate, and writes the provisional normal (0, 0, 1) for every landmark |
| MeshBuilder.FilterTriangles | src/lib/meshSimulation/meshBuilder.ts:100-112 | the triangle loop produces exactly the table's triangles with all corners below the landmark count, in table order |
| MeshBuilder.ComputeNormals | src/lib/meshSimulation/meshBuilder.ts:123-174 | the normal buffer ends holding the normalised per-vertex sums of face normals |
| MeshBuilder.ResetNormals | src/lib/meshSimulation/meshBuilder.ts:129 | fill(0) leaves a zero sum for every vertex |
| MeshBuilder.AccumulateFaceNormals | src/lib/meshSimulation/meshBuilder.ts:131-155 | the triangle loop leaves every vertex's sum of the face normals of the triangles that use it |
| MeshBuilder.NormalizeNormals | src/lib/meshSimulation/meshBuilder.ts:157-173 | the per-vertex loop replaces each sum by its final normal |
| MeshBuilder.AddFaceNormal | src/lib/meshSimulation/meshBuilder.ts:133-154 | one triangle's face normal, read from the position buffer, is added to its three corners' sums |
| MeshBuilder.FaceNormalOf | src/lib/meshSimulation/meshBuilder.ts:138-149 | the inlined edge arithmetic is the cross product of the edges b - a and c - a |
| MeshBuilder.AddToVertex | src/lib/meshSimulation/meshBuilder.ts:152 | three `+=` writes add the vector to one vertex's sum and change nothing else |
| MeshBuilder.SetVertex | src/lib/meshSimulation/meshBuilder.ts:166-171 | three writes replace one vertex's normal and change nothing else |
| MeshBuilder.BuildFullImageMesh | src/lib/meshSimulation/meshBuilder.ts:180-208 | the quad has the four image corners, texture coordinates (0,0) (1,0) (1,1) (0,1), triangles 0,1,2 and 0,2,3, and every normal (0, 0, 1) |
| MeshBuilder.QuadIndicesInRange | src/lib/meshSimulation/meshBuilder.ts:195-198 | the quad's two triangles only name its four corners |
| MeshBuilder.QuadUvFollowsPosition | src/lib/meshSimulation/meshBuilder.ts:181-193 | each quad texture coordinate is its corner mapped from [-1,1] onto [0,1], as a face vertex's is |
| Vectors.CrossIsPerpendicular | src/lib/meshSimulation/meshBuilder.ts:146-149 | the face normal computed as the cross product of two edges is perpendicular to both edges |
| Vectors.CrossDegenerate | src/lib/meshSimulation/meshBuilder.ts:143-149 | the cross product of a vector with itself or with zero is the zero vector |
| Vectors.SquaredLengthNonNegative | src/lib/meshSimulation/meshBuilder.ts:163 | the sum of squares under the square root is never negative |
| Vectors.DividedByLengthIsUnit | src/lib/meshSimulation/meshBuilder.ts:165-168 | a vector divided by its positive length has length 1 |
| Glsl.Step | src/lib/meshSimulation/shaders.ts:82-83 | step(edge, x) is 0 or 1, and 1 exactly when edge <= x |
| Glsl.Clamp | src/lib/meshSimulation/shaders.ts:135 | clamp lands in [min, max], leaves values already there unchanged, and sends values beyond either bound to that bound |
| Glsl.Smoothstep | src/lib/meshSimulation/shaders.ts:95-96 | smoothstep lies in [0, 1], is 0 at or below the lower edge and 1 at or above the upper edge |
| Glsl.HermiteInUnit | src/lib/meshSimulation/shaders.ts:95-96 | the Hermite polynomial t·t·(3 − 2t) maps [0, 1] into [0, 1] |
| Glsl.LumaBlend | src/lib/meshSimulation/shaders.ts:143-150 | the blended colour's luma is the original luma mixed towards the blurred luma by the amount, its chroma (rgb minus luma) is the original's, and its alpha is the one given |
| Glsl.LumaShift | src/lib/meshSimulation/shaders.ts:143-150 | the luma weights 0.299, 0.587 and 0.114 add up to 1, so adding the same amount to r, g and b adds that amount to the luma |
| ZoneShading.InZone | src/lib/meshSimulation/shaders.ts:81-85 | inZone is 0 or 1, and 1 exactly when the coordinate lies in the zone's rectangle, edges included |
| ZoneShading.ZoneWeight | src/lib/meshSimulation/shaders.ts:88-99 | the zone weight lies in [0, 1]; it is 0 for a zone that is empty in either direction and 0 outside the rectangle; it is 1 at least the margin inside every edge |
| ZoneShading.NoStrengthNoBlur | src/lib/meshSimulation/shaders.ts:126-132 | with every zone strength 0 the accumulated blur is 0 |
| ZoneShading.OutsideEveryZoneNoBlur | src/lib/meshSimulation/shaders.ts:126-132 | a coordinate outside every zone accumulates no blur, whatever the strengths |
| FillerShaders.VertexMain | src/lib/meshSimulation/shaders.ts:32-52 | the filler vertex shader moves the position by the sum of the eight morph offsets, each target times its weight times the global intensity |
| FillerShaders.MorphSum | src/lib/meshSimulation/shaders.ts:40-47 | with every morph weight 0, or with the global intensity 0, the offsets add up to the zero vector, so the vertex does not move |
| FillerShaders.DisplacementIsLinear | src/lib/meshSimulation/shaders.ts:40-47 | the displacement at intensity g is g times the displacement at full intensity |
| ZoneShading.AccumulateZones | src/lib/meshSimulation/shaders.ts:126-132 | the unrolled zone statements leave the sum of each zone's weight times its strength; both fragment shaders use it, with margin 0.02 here and 0.03 in `lib/meshSimulation/shaders.ts` |
| FillerShaders.FragmentMain | src/lib/meshSimulation/shaders.ts:121-154 | the output is the original texture colour unless the clamped, intensity-scaled blur amount exceeds 0.01; then it is the luma blend towards the texture blurred at radius 3 times the amount, by 0.7 times the amount, keeping the original alpha |
| FillerShaders.BlurAmount | src/lib/meshSimulation/shaders.ts:134-135 | the blur amount is in [0, 1], and 0 when the global Botox intensity is 0 |
| FillerShaders.OutsideZonesUntouched | src/lib/meshSimulation/shaders.ts:126-153 | a fragment outside every zone gets blur amount 0, so its texture colour is written unchanged |
| FillerShaders.BlurKeepsChromaAndAlpha | src/lib/meshSimulation/shaders.ts:138-150 | in the blur branch the chroma and alpha of the original are kept and the luma moves towards the blurred luma by 0.7 times the amount |
| FaceShaders.VertexPosition | lib/meshSimulation/shaders.ts:6-13 | the earlier vertex shader passes the position through, which is the filler vertex shader's result at global intensity 0, whatever the targets and weights |
| FaceShaders.PassthroughIsZeroIntensity | lib/meshSimulation/shaders.ts:9-12 | adding the morph sum at intensity 0 leaves any position unchanged |
| FaceShaders.FragmentMain | lib/meshSimulation/shaders.ts:74-99 | the output is the original texture colour unless the clamped blur amount exceeds 0.01; then it is the luma blend towards the texture blurred at radius 5 times the amount, by 0.7 times the amount, with alpha 1 |
| FaceShaders.BlurAmountCapped | lib/meshSimulation/shaders.ts:77-84 | the blur amount is in [0, 1], zones adding up to 1 or more give exactly 1, and all strengths 0 give 0 |
| FaceShaders.OutsideZonesUntouched | lib/meshSimulation/shaders.ts:77-97 | a fragment outside every zone gets blur amount 0, so the original texture colour is written untouched |
| FaceShaders.BlurKeepsChromaForcesOpaque | lib/meshSimulation/shaders.ts:86-95 | in the blur branch the chroma is kept, the output is opaque whatever the original alpha, and the luma moves towards the blurred luma by 0.7 times the amount |
| Masks.ResolvePoints | src/lib/masks.ts:85-90 | the region's points are never more than its indices |
| Masks.ResolvePointsIsFilterThenMap | src/lib/masks.ts:85-90 | the points are exactly the indices below the landmark count, kept in list order, each mapped to its landmark scaled to pixels |
| Masks.AllInRangeResolveAll | src/lib/masks.ts:85-90 | when every index names an existing landmark, every index yields a point |
| Masks.RegionPolygon | src/lib/masks.ts:81-92 | a polygon exists exactly when the region has a non-empty list in the table and at least three of its points exist, and it is then the resolved point list |
| Masks.RegionMask | src/lib/masks.ts:65-112 | the mask is always first filled black over the whole canvas; without a polygon nothing else is drawn; with one it is filled white and blurred by the feather radius exactly when that radius is positive |
| Masks.RegionOverlay | src/lib/masks.ts:117-156 | the overlay draws nothing without a polygon, and otherwise fills the polygon translucent blue and strokes its dashed outline, never painting a background |
| Masks.OutlinesAreClosed | src/lib/masks.ts:6-59 | every region list has at least three entries and ends at the landmark it starts from |
| Masks.OutlinesInLayout | src/lib/masks.ts:6-59 | every index in the region table names a landmark of the 468-point layout |
| Masks.FullLayoutDrawsEveryRegion | src/lib/masks.ts:81-92 | with the full 468-point layout every tabled region resolves all its points and gets a polygon |
| Masks.UntabledRegionDrawsNothing | src/lib/masks.ts:81-82 | a region name missing from the table leaves the mask all black and the overlay empty |
| LandmarkIndices.IndicesForRegion | lib/landmarks.ts:61-72 | lips, jawline and nose get their own list; cheeks, nasolabial folds and tear troughs get the left list followed by the right one; chin and upper face get the empty list |
| LandmarkIndices.AllIndicesInLayout | lib/landmarks.ts:4-72 | every region's list names only landmarks of the 468-point layout |
| LandmarkIndices.LipAndJawListsInLayout | lib/landmarks.ts:5-22 | the lip, upper-lip, lower-lip and jawline lists name only landmarks of the layout |
| LandmarkIndices.SideListsInLayout | lib/landmarks.ts:30-55 | the left and right cheek, nasolabial and tear-trough lists name only landmarks of the layout |
| LandmarkIndices.ListsHaveRepeats | lib/landmarks.ts:26-36 | the lists are not sets: the right cheek list ends with 338 twice, the nose list visits 2 twice, and the cheek region's list has 34 entries |
| ClinicalRecipe.LatestPerRegion | src/components/results/ClinicalRecipe.tsx:57-60 | the loop leaves the map after one Map.set per history entry, in history order |
| ClinicalRecipe.Latest | src/components/results/ClinicalRecipe.tsx:57-62 | the map's keys are the edited regions, each once, in the order of its first edit (Map.set on an existing key keeps its place) |
| ClinicalRecipe.LatestHoldsLastEntry | src/components/results/ClinicalRecipe.tsx:57-60 | each region maps to its last entry in the history, and a region never edited is absent |
| ClinicalRecipe.LatestHasDistinctKeys | src/components/results/ClinicalRecipe.tsx:57-60 | no region appears twice in the map |
| ClinicalRecipe.LatestEntryIsLast | src/components/results/ClinicalRecipe.tsx:57-62 | the entry stored at any position of the map is the last history entry of its region |
| ClinicalRecipe.Regions | src/components/results/ClinicalRecipe.tsx:58-59 | the regions of the history entries, one per entry, in order |
| ClinicalRecipe.PositiveLabels | src/components/results/ClinicalRecipe.tsx:79-82 | the site labels are at most as many as the region's sliders |
| ClinicalRecipe.PositiveLabelsFilterConfig | src/components/results/ClinicalRecipe.tsx:79-82 | the sites are the labels of the configured sliders whose value (missing counting as 0) is positive, in configuration order |
| ClinicalRecipe.Names | src/components/results/ClinicalRecipe.tsx:82 | label i of the result is the label of slider i, one per slider |
| ClinicalRecipe.Mean | src/components/results/ClinicalRecipe.tsx:72-76 | no values give 0, and values all within 0..100 give an average within 0..100 |
| ClinicalRecipe.Sites | src/components/results/ClinicalRecipe.tsx:79-84 | a configured region's sites are the labels of its sliders whose value (missing as 0) is positive, in configuration order, joined by ", "; any other region gets "As directed" |
| ClinicalRecipe.ItemOf | src/components/results/ClinicalRecipe.tsx:63-93 | the item carries the region's product (or "Custom Treatment", "As directed", "fa-syringe" for a region without one), the entry's region label and notes, the sites, and the mean slider value rounded to the nearest integer, halves upward |
| ClinicalRecipe.RecipeItems | src/components/results/ClinicalRecipe.tsx:56-94 | one item per distinct edited region, in the order of its first edit, each built from that region's latest entry |
| ClinicalRecipe.SumWithinSliderRange | src/components/results/ClinicalRecipe.tsx:75 | values within 0..100 add up to at most 100 per value |
| ClinicalRecipe.IntensityWithinSliderRange | src/components/results/ClinicalRecipe.tsx:72-89 | when every slider value is within 0..100 the dosage intensity is within 0..100 |
| JsMath.Round | src/components/results/ClinicalRecipe.tsx:89 | Math.round gives the integer nearest its argument, halves rounded upward |
| JsRecord.Values | src/components/results/ClinicalRecipe.tsx:72 | Object.values lists one value per entry, in entry order |
| JsRecord.Keys | src/components/results/ClinicalRecipe.tsx:62 | the keys of a record, one per entry, in entry order |
| Seqs.FirstOccurrences | src/components/results/ClinicalRecipe.tsx:57-62 | the distinct elements in order of first appearance: each is in the input, every input element is listed, none twice, and an element listed earlier occurs in the input before every occurrence of one listed later |
| MeshSimulator.InitialState | src/components/simulation/MeshSimulator.tsx:182-185 | the hook starts with no filler and no Botox intensities, all (vacuously) in 0..1 |
| MeshSimulator.SetFillerValue | src/components/simulation/MeshSimulator.tsx:187-195 | the filler map gains the key; its value is clamped into 0..1 (kept when already there, 0 below, 1 above); other filler keys and the Botox map are unchanged |
| MeshSimulator.SetBotoxValue | src/components/simulation/MeshSimulator.tsx:197-205 | the Botox map gains the key; its value is clamped into 0..1 (kept when already there, 0 below, 1 above); other Botox keys and the filler map are unchanged |
| MeshSimulator.Reset | src/components/simulation/MeshSimulator.tsx:207-209 | reset empties both maps, giving back the initial state whatever the state was |
| MeshSimulator.SettersKeepUnitRange | src/components/simulation/MeshSimulator.tsx:187-205 | both setters keep every stored intensity in 0..1 |
| MeshSimulator.LastSetWins | src/components/simulation/MeshSimulator.tsx:187-205 | setting the same slider twice keeps only the second value |
| MeshSimulator.FillerAndBotoxCommute | src/components/simulation/MeshSimulator.tsx:187-205 | a filler setter and a Botox setter touch separate maps, so their order does not matter |
| MeshSimulator.FitToCanvas | src/components/simulation/MeshSimulator.tsx:73-86 | the fitted size lies within 600×600, keeps the photo's aspect ratio, never grows the photo, leaves a photo that already fits unchanged, and otherwise reaches 600 on one side |
| MeshSimulator.FitWidthStep | src/components/simulation/MeshSimulator.tsx:79-82 | bringing the width down to 600 and scaling the height alike keeps the aspect ratio and does not grow the height |
| MeshSimulator.FitHeightStep | src/components/simulation/MeshSimulator.tsx:83-86 | bringing the height down to 600 and scaling the width alike keeps the photo's aspect ratio and does not grow the width |
| MeshSimulator.RoundedCanvasStaysWithin | src/components/simulation/MeshSimulator.tsx:88 | rounding a fitted side gives a pixel size within 0..600 |
| SimulationControls.GroupByCategory | src/components/simulation/SimulationControls.tsx:20-29 | the reduce leaves the groups after each item, in catalog order, is pushed onto its category's array, created empty when missing |
| SimulationControls.GroupsInFirstAppearanceOrder | src/components/simulation/SimulationControls.tsx:20-29 | the groups are created in the order in which their categories first appear in the catalog, each once |
| SimulationControls.GroupIsCategoryFilter | src/components/simulation/SimulationControls.tsx:20-29 | a category's group holds exactly the items of that category in catalog order, and a category no item has has no group |
| SimulationControls.EachItemInItsOwnGroup | src/components/simulation/SimulationControls.tsx:20-29 | every item lies in the group of its own category and in no other group |
| SimulationControls.Categories | src/components/simulation/SimulationControls.tsx:22 | one category per catalog item, in order |
| SimulationControls.FillersByCategory | src/components/simulation/SimulationControls.tsx:20-29 | the filler groups are the filler targets grouped by their category |
| SimulationControls.BotoxByCategory | src/components/simulation/SimulationControls.tsx:32-41 | the Botox groups are the Botox zones grouped by their category |
| SimulationControls.ToUpper | src/components/simulation/SimulationControls.tsx:49 | a lower-case letter becomes upper case; any other character is unchanged |
| SimulationControls.UnderscoresToSpaces | src/components/simulation/SimulationControls.tsx:45 | every underscore becomes a space and every other character is kept, position by position |
| SimulationControls.CapitalsFollowASpace | src/components/simulation/SimulationControls.tsx:46 | after the capital-letter replacement every capital is preceded by a space |
| SimulationControls.SplitOnSpaces | src/components/simulation/SimulationControls.tsx:48 | splitting yields at least one piece and no piece holds a space |
| SimulationControls.JoinSplitOnSpaces | src/components/simulation/SimulationControls.tsx:48-50 | joining the pieces of a split with spaces gives the string back |
| SimulationControls.CapitalizeFirst | src/components/simulation/SimulationControls.tsx:49 | capitalising a word keeps its length |
| SimulationControls.CapitalizeAll | src/components/simulation/SimulationControls.tsx:49 | every word is capitalised, in order |
| SimulationControls.CapitalizeWordsJoined | src/components/simulation/SimulationControls.tsx:48-50 | capitalising each space-free word and joining with spaces equals capitalising every character after a space in the joined string |
| SimulationControls.FormatLabel | src/components/simulation/SimulationControls.tsx:43-51 | formatLabel turns underscores into spaces, puts a space before each capital, drops leading whitespace, then upper-cases the first character and every character after a space, keeping all others |
| SimulationControls.FormatLabelHasNoUnderscore | src/components/simulation/SimulationControls.tsx:43-51 | no underscore survives formatLabel |
| SimulationControls.FillerLabel | src/components/simulation/SimulationControls.tsx:82 | a filler label is formatLabel of the name with the first occurrence of `category_` cut out; a name without that occurrence is formatted whole, one starting with it loses the prefix, and no underscore is left |
| SimulationControls.BotoxLabel | src/components/simulation/SimulationControls.tsx:120 | a Botox label is the whole zone name formatted, with no underscore left |
| SimulationControls.UpperLipVolumeLabel | src/components/simulation/SimulationControls.tsx:82 | `lips_upper_volume` under category "lips" is shown as "Upper Volume" |
| SimulationControls.CheeksVolumeLabel | src/components/simulation/SimulationControls.tsx:82 | `cheeks_volume` under category "cheeksMidface" has no `cheeksMidface_` in it and is shown whole, as "Cheeks Volume" |
| SimulationControls.PlainWordsLabel | src/components/simulation/SimulationControls.tsx:43-51 | for a lower-case name, formatLabel turns the underscores into spaces and upper-cases the first letter of each word |
| SimulationControls.DisplayedPercent | src/components/simulation/SimulationControls.tsx:84-86 | the percentage shown is the stored intensity times 100 rounded to the nearest integer, halves upward, and 0 for a slider without a value |
| SimulationControls.SliderPositionShownBack | src/components/simulation/SimulationControls.tsx:85-94 | moving a slider to a whole position stores an intensity that is shown back as that same percentage |
| SimulationControls.SliderRangeIsUnitRange | src/components/simulation/SimulationControls.tsx:89-94 | slider positions 0..100 hand over intensities in 0..1 |

## Left out

- React rendering, the pages, the panels and the other UI components are not part of this model. They hold no logic beyond wiring the pieces above to the screen.
- The inpainting and depth API routes, the Gemini client and MediaPipe landmark detection are not part of this model. They are network and foreign-library calls, so landmarks enter the model as an input sequence.
- `MeshRenderer` (Three.js and WebGL resource management) is not part of this model. Its `updateSimulation` only re-renders, so there is no CPU vertex displacement to model.
- zustand's `create`/`persist` and the localStorage persistence are left out. The stores are modelled as state values and classes with one function or method per action.
- The async initialisation, guard flag, image loading and renderer lifecycle of `MeshSimulator.tsx` (lines 48-135) are left out as browser lifecycle code. Only the size fitting at lines 73-88 and the `useMeshSimulator` hook are modelled.
- The canvas primitives of `masks.ts` (paths, the `blur()` filter, the dashed stroke, `toDataURL`, `maskToDataURL`) are modelled as a list of drawing commands. No pixels are modelled.
- The `blurSample` texture lookups of both fragment shaders, with their 9-tap and 25-tap kernels, are left out. The blurred colour enters as a function of the blur radius, since texture sampling happens on the GPU.
- The shaders' GPU plumbing is not part of this model. This covers `simpleVertexShader` and `simpleFragmentShader` (src/lib/meshSimulation/shaders.ts:160-187), which only pass the texture through. It also covers the projection `projectionMatrix * modelViewMatrix * vec4(…, 1.0)` that sets `gl_Position` in every vertex shader, and the `vUv` and `vNormal` varyings, which copy their attributes unchanged. `FillerShaders.VertexMain` and `FaceShaders.VertexPosition` return the model-space position, which is `vPosition`, not `gl_Position`.
- The five zone statements and eight morph statements of the shaders are written out one by one in the source. They are modelled as loops over the zone and slot indices, with the same order of additions.
- Float32 and Uint16 storage and rounding are not modelled: all geometry and shading is over exact reals. `Math.sqrt` in `computeNormals` is a parameter `sqrt` of `BuildFaceMesh`, `ComputeNormals` and `NormalizeNormals`, since exact reals have no computable square root.
- JavaScript's double-precision arithmetic outside the shaders is also modelled over exact reals, so its rounding is not modelled. This covers the weighted mean of `mapControlsToSimulation` (`ControlMapping.AccumulateWeights`, `ControlMapping.Intensity`), the dosage average and its `Math.round` (`ClinicalRecipe.Mean`, `ClinicalRecipe.ItemOf`), the divisions of the canvas fitting (`MeshSimulator.FitToCanvas`) and the slider percentage (`SimulationControls.DisplayedPercent`).
- MeshBuilder.NormalIsUnit: holds only where `sqrt` returns the accumulator's true, positive length. The square root itself is a parameter.
- MeshBuilder.ZeroLengthNormal: states the code's else branch as written: x and y are kept and z is set to 1. It does not state that a zero-length sum has x = y = 0 and so ends as (0, 0, 1). That follows only for a true square root, which is not modelled. MeshBuilder.UnusedVertexFacesCamera states (0, 0, 1) for vertices no triangle uses.
- The `_imageWidth` and `_imageHeight` parameters of `buildFaceMesh` are unused by the source and are not parameters of `BuildFaceMesh`.
- JavaScript's `NaN` and `undefined` slider values are not modelled. Slider values are integers, a missing key reads as absent, and `|| 0` and `?? 0` are both modelled as "missing reads as 0".
- JavaScript objects list integer-like keys before other keys. This reordering is not modelled: record keys keep insertion order, and every key in the source is a non-numeric name.
- SimulationControls.ToUpper: upper-cases the ASCII letters a to z only. `toUpperCase` also maps non-ASCII letters, which no catalog name contains.
- PromptStore.SetControlPrompt requires the region and its control table to exist. The source dereferences both and would throw a TypeError otherwise.
- `src/components/panels/SimulationWorkbench.tsx` imports a `buildFullPrompt` that `src/lib/prompts.ts` does not define, and calls `buildInpaintPrompt` with four arguments. `InpaintPrompt.BuildInpaintPrompt` models `src/lib/prompts.ts` as written, and the workbench is not part of this model.
- The control configuration (`controlsConfig.ts`), the type files and the mesh data types are used only as the source of constants and datatypes.
