# godot_openxr in Dafny

A Dafny model of the logic of the Godot OpenXR plugin (GodotVR/godot_openxr) and of the Oculus Mobile SDK samples it vendors, with proofs of what that logic promises. Every call into OpenXR, OpenGL, EGL, JNI, Godot or OpenHMD is replaced by a parameter carrying the call's answer (an `XrResult`, a handle, a flag), so each operation is a deterministic function of its inputs and the runtime's answers.

The model follows the repository file by file, one module per source file:

- **Plugin C/C++ (`src/`).** The newer OpenXR object (`OpenXRApiCpp`, with `OpenXRCommon` for what it shares with the older code) and the older one (`LegacyOpenXRApi`, `OXRCalls`), the actions and action sets (`OpenXRActions`), the Godot resources for action sets, actions and interaction profiles (`GdActionResources`), the configuration accessors of `XRInterfaceOpenXR` and `OpenXRConfig` (`GdConfig`), the hand, skeleton and pose nodes in both generations (`HandJoints`, `PoseLookup`, `GdHandNodes`, `LegacyHandNodes`), the extension wrappers (`HandTrackingWrapper`, `PerfSettingsWrapper`, `ColorSpaceWrapper`, `PalmPoseWrapper`), the ARVR interfaces (`ArvrInterfaceOpenXR`, `OpenHMDInterface`), the OpenHMD data singleton (`OpenHMDData`) and the GDNative entry points (`GodotCalls`).
- **Android Kotlin layer.** The code-to-enum lookups (`FoveationLevelKt`, `PerformanceSettingsLevelKt`, `XrColorSpaceKt`, `SystemTypeKt`), the colour-space calls of `OpenXRConfig.kt` (`OpenXRConfigKt`) and the plugin's listener registry (`OpenXRPluginKt`).
- **Oculus Mobile SDK samples.** The billboard pool (`BillBoardRendererCpp`), `StripPath` (`LogStripPath`), the frame input edges (`FrameParams`), the surface bit counts (`GlSurfaceBits`), the KTX loader, error tables and refresh-rate cycling of the compositor sample (`XrCompositorNativeActivity`), the shared session lifecycle (`NativeAppLifecycle`) and the sample framework (`XrAppFramework`), the keyboard helper (`XrKeyboardHelperH`), the passthrough mode cycle (`XrPassthroughSample`), the scene-model sample (`SceneModelXr`, `SceneModelGl`, `SceneModelSimpleXrInput`) and the spatial-anchor sample (`SpatialAnchorXr`, `SpatialAnchorSimpleXrInput`).
- **Shared helpers.** `Wrappers` (Option), `Bytes` (bytes and 32-bit casts), `SeqOps` (first-match search, remove-first, filter and swap-remove with their multiset facts), `CodeTables` (code-to-name tables) and `XrPerfSettingsLevel` (the samples' CPU/GPU level switch).

Objects whose fields the source updates in place are classes with `modifies` frames. Pure mappings and parsers are functions with lemmas stating their round trips, bounds and if-and-only-if conditions. Fixed-width integers are unbounded `int`s with the wrap-around written out where it matters (the 16-bit index buffers, the `uint32_t` colour space and refresh-rate counter, the 32-bit `int` product and 64-bit `size_t` conversion of a KTX level size, C's truncating division). Counters that reach 2^31 only after months of frames are left unbounded, as listed under "## Left out".

## Model

| member | source | states |
|---|---|---|
| `FrameParams.ConstantsAreDistinctBits` | thirdparty/oculus_mobile_sdk/SampleCommon/Src/FrameParams.h:92-103 | the eleven button and touch constants are the bits 1<<0 .. 1<<10, pairwise disjoint |
| `FrameParams.ClickedIsReleaseEdge` | thirdparty/oculus_mobile_sdk/SampleCommon/Src/FrameParams.h:105-109 | Clicked on a button constant holds exactly when its bit was set last frame and is clear now |
| `FrameParams.TouchedIsReleaseEdge` | thirdparty/oculus_mobile_sdk/SampleCommon/Src/FrameParams.h:110-114 | Touched on a constant holds exactly when its touch bit was set last frame and is clear now |
| `FrameParams.NoEdgeWithoutChange` | thirdparty/oculus_mobile_sdk/SampleCommon/Src/FrameParams.h:105-114 | with the button (touch) state unchanged since the last frame, Clicked (Touched) is false for every mask |
| `FrameParams.MountEdgesExclusive` | thirdparty/oculus_mobile_sdk/SampleCommon/Src/FrameParams.h:115-120 | HeadsetMounted and HeadsetUnMounted are never both true, and one of them holds exactly when the mount state changed |
| `GlSurfaceBits.ChannelBits` | thirdparty/oculus_mobile_sdk/SampleCommon/Src/Render/GlWrapperWin32.c:427-470 | the two 16-bit colour formats have 5/6/5 bits and no alpha (16 in all); every other format has 8 bits per channel (32 in all) |
| `GlSurfaceBits.BitsForSurfaceFormat` | thirdparty/oculus_mobile_sdk/SampleCommon/Src/Render/GlWrapperWin32.c:427-470 | the colour bits are the sum of the four channels and come to 16 or 32; the depth bits are 0, 16 or 24, and 0 exactly for a format other than D16 and D24 |
| `GlSurfaceBits.DepthBits` | thirdparty/oculus_mobile_sdk/SampleCommon/Src/Render/GlWrapperWin32.c:463-468 | D16 gives 16 depth bits, D24 gives 24, any other depth format none, whatever the colour format |
| `GlSurfaceBits.BitsFitUnsignedChar` | thirdparty/oculus_mobile_sdk/SampleCommon/Src/Render/GlWrapperWin32.c:427-470 | every count fits the unsigned char fields: at most 32 colour and 24 depth bits |
| `LogStripPath.NameStart` | thirdparty/oculus_mobile_sdk/SampleCommon/Src/Misc/Log.c:28-34 | the copy starts just after the last '/' or '\\', or at 0 when the path has none, and no separator follows the start |
| `LogStripPath.BeforeDot` | thirdparty/oculus_mobile_sdk/SampleCommon/Src/Misc/Log.c:38-42 | the copied stem is the longest prefix without '.', ending at a '.' or the end of the name |
| `LogStripPath.TagFits` | thirdparty/oculus_mobile_sdk/SampleCommon/Src/Misc/Log.c:37-44 | the tag holds at most strippedTagSize-1 characters, leaving room for the NUL |
| `LogStripPath.TagHasNoSeparatorOrDot` | thirdparty/oculus_mobile_sdk/SampleCommon/Src/Misc/Log.c:29-43 | the tag contains neither '/' nor '\\' nor '.' |
| `LogStripPath.TagStartsAfterLastSeparator` | thirdparty/oculus_mobile_sdk/SampleCommon/Src/Misc/Log.c:29-44 | with no separator the tag starts at index 0; the tag is a prefix of the name after the last separator, and all of the stem when it fits |
| `LogStripPath.ScanBackForSeparator` | thirdparty/oculus_mobile_sdk/SampleCommon/Src/Misc/Log.c:29-34 | the backward scan stops just after the last separator, or at 0 when there is none |
| `LogStripPath.CopyStem` | thirdparty/oculus_mobile_sdk/SampleCommon/Src/Misc/Log.c:37-43 | the forward copy writes the name up to its first '.' or its end, stopping one place short of the buffer's end, and leaves the rest of the buffer as it was |
| `LogStripPath.StripPath` | thirdparty/oculus_mobile_sdk/SampleCommon/Src/Misc/Log.c:26-45 | for a non-empty path the buffer receives the tag followed by a NUL terminator |
| `GodotCalls.GodotApis.constructor` | src/GodotCalls.cpp:7-9 | all three API pointers start null |
| `OXRCalls.OpenXRDataSingleton.constructor` | src/OXRCalls.c:7 | there is no shared data before the first get |
| `OXRCalls.OpenXRData.constructor` | src/OXRCalls.c:44-55 | a new shared object starts with one user (the source leaves the count unset; see Findings) |
| `OpenXRApiCpp.ApiSingleton.constructor` | src/openxr/OpenXRApi.cpp:444 | there is no OpenXR object before the first get |
| `OpenHMDData.OpenHMD.constructor` | src/openhmd_data.c:9 | there is no OpenHMD data before the first get |
| OpenXRCommon.XrResult | src/openxr/OpenXRApi.h:292-306 | `xr_result` is true exactly for success codes (non-negative `XrResult`, `XR_SUCCEEDED`); same in src/OpenXRApi.cpp:45-66 and src/OXRCalls.c:131-149 |
| OpenXRCommon.AfterGet | src/OXRCalls.c:32-59 | get on an existing singleton raises its count by one; on none it creates one with count 1 only if allocation and init succeed, else stays null; keeps counts ≥ 1; this is the intended get, and src/OXRCalls.c and src/OpenXRApi.cpp never set the new count (see Findings); src/openxr/OpenXRApi.cpp:469-490 follows it with creation always succeeding |
| OpenXRCommon.AfterRelease | src/OXRCalls.c:10-30 | release is a no-op on null, decrements above 1, deletes and nulls at 1; keeps counts ≥ 1 (also src/openxr/OpenXRApi.cpp:446-467, src/OpenXRApi.cpp:8-22) |
| OpenXRCommon.GetsCount | src/OXRCalls.c:32-59 | k gets on a live object add k; k ≥ 1 gets on none yield count k |
| OpenXRCommon.ReleasesCount | src/OXRCalls.c:10-30 | an object with use count n survives exactly n − 1 releases, and is gone after n |
| OpenXRCommon.ReleasedStays | src/OXRCalls.c:12-15 | releasing with no object any number of times leaves none |
| OpenXRCommon.BalancedUse | src/OXRCalls.c:10-59 | k gets followed by k releases restore the singleton exactly |
| OpenXRCommon.Contains | src/openxr/OpenXRApi.cpp:495-502 | `isExtensionSupported`: true iff some entry equals the name (also src/OpenXRApi.cpp:70-77, src/OXRCalls.c:151-165) |
| OpenXRCommon.IsEnumeratedSupported | src/openxr/OpenXRApi.cpp:504-535 | `isViewConfigSupported`: true iff both enumeration calls succeed and the type is listed |
| OpenXRCommon.MaxSwapchainLength | src/OXRCalls.c:678-683 | result is ≥ every per-view length and is one of them (0 with no views); the intended reading of src/OpenXRApi.cpp:452-457 |
| OpenXRCommon.SuggestedBindings | src/OXRCalls.c:344-366 | bindings has num_actions·2 entries and entry a·2+h is (actions[a], paths[a][h]); every index k is action k/2, hand k%2 (also src/OpenXRApi.cpp:760-783) |
| OpenXRCommon.SuggestActionsAnswerAsWritten | src/OpenXRApi.cpp:793-797 | as written the answer depends only on the profile-path look-up: the suggestion's own result is discarded (same in src/OXRCalls.c:373-376) |
| OpenXRCommon.SuggestFailureReportedAsSuccess | src/OpenXRApi.cpp:793-797 | a successful path look-up with a failing suggestion is reported as success, while the intended answer is failure |
| OpenXRCommon.SuggestActionsAnswer | src/OpenXRApi.cpp:753-801 | intended: true iff the path look-up and the suggestion both succeed; implies the as-written answer |
| OpenXRCommon.SuggestActions | src/OpenXRApi.cpp:752-801 | no bindings when the profile path fails; otherwise the two-hand layout; answer as SuggestActionsAnswer |
| OpenXRApiCpp.ReferenceSpaceSupportedAsWritten | src/openxr/OpenXRApi.cpp:537-567 | a failing count query answers true; otherwise true iff enumeration succeeds and the type is listed |
| OpenXRApiCpp.ReferenceSpaceCountFailureAnswersYes | src/openxr/OpenXRApi.cpp:542-545 | with the count query failing and no spaces listed, the answer is still true |
| OpenXRApiCpp.IsReferenceSpaceSupported | src/openxr/OpenXRApi.cpp:537-567 | corrected: true iff both calls succeed and the type is listed; implies the as-written answer |
| OpenXRApiCpp.ApplicationName | src/openxr/OpenXRApi.cpp:718-728 | empty project name keeps the default; otherwise a prefix of the UTF-8 name shorter than XR_MAX_APPLICATION_NAME_SIZE, equal to the name iff it has ≤ 127 bytes, else exactly 127 bytes |
| OpenXRApiCpp.ApplicationNameIdempotent | src/openxr/OpenXRApi.cpp:718-728 | a name already cut is not cut again |
| OpenXRApiCpp.FirstPreferred | src/openxr/OpenXRApi.cpp:1030-1065 | none iff no format is SRGB8_ALPHA8 or RGBA8; otherwise a listed preferred format |
| OpenXRApiCpp.FirstPreferredAt | src/openxr/OpenXRApi.cpp:1030-1065 | the preferred format with no preferred one before it is the one chosen |
| OpenXRApiCpp.FirstPreferredAppend | src/openxr/OpenXRApi.cpp:1030-1065 | the runtime's order decides: a preferred format in a prefix wins over anything after it |
| OpenXRApiCpp.ChooseSwapchainFormat | src/openxr/OpenXRApi.cpp:1023-1073 | the first preferred format in order, else formats[0]; keep_3d_linear false iff the choice is sRGB |
| OpenXRApiCpp.ActionType | src/openxr/OpenXRApi.cpp:1704-1718 | the five type strings map to their XrActionType, any other string skips the action; ActionTypeName inverts it |
| OpenXRApiCpp.ActionTypeRoundTrip | src/openxr/OpenXRApi.cpp:1704-1718 | ActionType(s) == Some(t) iff ActionTypeName(t) == Some(s) |
| `OpenXRApiCpp.ActionTypeName` | src/openxr/OpenXRApi.cpp:1704-1718 | exactly the five action types the plugin creates (boolean, float, vector2, pose, vibration) have a JSON spelling |
| OpenXRApiCpp.DefaultActionEntry | src/openxr/OpenXRApi.h:87-128 | each enumerator indexes an entry below ACTION_MAX whose type the action-set JSON can name |
| OpenXRApiCpp.DefaultActionsTable | src/openxr/OpenXRApi.h:87-128 | one entry per enumerator before ACTION_MAX, enumerator values injective, names pairwise distinct |
| OpenXRApiCpp.ForwardedTo | src/openxr/OpenXRApi.cpp:2163-2196 | buttons are forwarded from boolean actions, axes from float actions, the axis pair from the vector action |
| OpenXRApiCpp.ForwardedToDistinct | src/openxr/OpenXRApi.cpp:2163-2196 | no two default actions drive the same button or axis |
| OpenXRApiCpp.ActiveHandlesExactly | src/openxr/OpenXRApi.cpp:2081-2093 | a handle is synced iff it is non-null and belongs to an active set |
| OpenXRApiCpp.CollectActiveSets | src/openxr/OpenXRApi.cpp:2081-2093 | the loop gathers exactly ActiveHandles(action_sets), in order |
| OpenXRApiCpp.NextControllerSlot | src/openxr/OpenXRApi.cpp:2127-2210 | no path: unchanged; active: kept, or the added controller when the slot was -1; inactive: -1 |
| OpenXRApiCpp.ControllerKeptWhileActive | src/openxr/OpenXRApi.cpp:2138-2144 | across frames in which a hand stays active the controller is added once and then kept |
| OpenXRApiCpp.RemovedControllers | src/openxr/OpenXRApi.cpp:2203-2207 | only attached controllers (≠ -1) are removed, and each was in a slot |
| OpenXRApiCpp.ReconcileControllers | src/openxr/OpenXRApi.cpp:2127-2210 | every slot becomes NextControllerSlot of its inputs and the removals are RemovedControllers |
| OpenXRApiCpp.OpenXRApi.constructor | src/openxr/OpenXRApi.h:138-140 | not initialised, not running, use_count 1, head-mounted form factor, default JSON strings, keep_3d_linear, empty registries, both controller slots -1 (with src/openxr/OpenXRApi.cpp:1386-1393) |
| OpenXRApiCpp.OpenXRApi.Initialize | src/openxr/OpenXRApi.cpp:1395-1438 | already initialised: true; else initialised iff every step came up; a failure runs `uninitialize`, which unbinds every controller slot |
| OpenXRApiCpp.OpenXRApi.Uninitialize | src/openxr/OpenXRApi.cpp:1444-1481 | clears initialised (running untouched) and, through `cleanupActionSets`, unbinds every slot: a controller id (≥ 0) is removed and its slot set to -1, so a valid object ends with both slots -1; the removed ids are returned |
| OpenXRApiCpp.OpenXRApi.UnbindActionSets | src/openxr/OpenXRApi.cpp:1357-1366 | each slot holding an id ≥ 0 becomes -1 and any other slot is kept, so a valid object ends with both slots -1; the removed controllers are the ids of the old slots, in input-map order |
| OpenXRApiCpp.UnbindControllers | src/openxr/OpenXRApi.cpp:1359-1366 | the slot loop sets each slot holding an id ≥ 0 to -1, keeps the others, and collects AttachedControllers of the old slots |
| OpenXRApiCpp.AttachedControllers | src/openxr/OpenXRApi.cpp:1362-1365 | a value is removed exactly when it is in a slot and passes the `godot_controller >= 0` test |
| OpenXRApiCpp.UnbindIsAllHandsInactive | src/openxr/OpenXRApi.cpp:1357-1366 | on slots holding -1 or an id, unbinding removes exactly what an `update_actions` pass removes when every hand has gone inactive, and that pass also leaves every slot -1 |
| OpenXRApiCpp.UnbindTwiceRemovesNothing | src/openxr/OpenXRApi.cpp:1362-1365 | once no slot holds an id ≥ 0, as after an unbinding, unbinding again removes no controller |
| OpenXRApiCpp.OpenXRApi.IsRunning | src/openxr/OpenXRApi.cpp:1483-1489 | running counts only while initialised |
| OpenXRApiCpp.OpenXRApi.OnStateReady | src/openxr/OpenXRApi.cpp:1495-1517 | running after a successful xrBeginSession; a failure changes nothing |
| OpenXRApiCpp.OpenXRApi.OnStateStopping | src/openxr/OpenXRApi.cpp:1531-1545 | the object stops running and answers true; the slots are unbound as in `unbindActionSets`, so a valid object ends with both slots -1, and the removed ids are returned |
| OpenXRApiCpp.OpenXRApi.GetHandTracker | src/openxr/OpenXRApi.cpp:1560-1566 | tracker hand for hand < 2, null otherwise |
| OpenXRApiCpp.OpenXRApi.GetMotionRange | src/openxr/OpenXRApi.cpp:1568-1575 | the stored range for hand < 2, UNOBSTRUCTED otherwise |
| OpenXRApiCpp.OpenXRApi.SetMotionRange | src/openxr/OpenXRApi.cpp:1577-1581 | stores for hand < 2 (read back by GetMotionRange), no-op otherwise |
| OpenXRApiCpp.OpenXRApi.SetFormFactor | src/openxr/OpenXRApi.cpp:1589-1600 | ignored once initialised; accepts only 1..2 |
| OpenXRApiCpp.OpenXRApi.SetActionSetsJson | src/openxr/OpenXRApi.cpp:1606-1613 | ignored once initialised |
| OpenXRApiCpp.OpenXRApi.SetInteractionProfilesJson | src/openxr/OpenXRApi.cpp:1619-1626 | ignored once initialised |
| OpenXRApiCpp.OpenXRApi.RegisterExtensionWrapper | src/openxr/OpenXRApi.h:254-260 | refused once initialised; otherwise a set insert, so registering twice is the same as once |
| OpenXRApiCpp.OpenXRApi.RegisterCompositionLayerProvider | src/openxr/OpenXRApi.h:262-264 | set insert |
| OpenXRApiCpp.OpenXRApi.UnregisterCompositionLayerProvider | src/openxr/OpenXRApi.h:266-268 | set erase; an absent provider changes nothing |
| OpenXRApiCpp.OpenXRApi.UpdateActions | src/openxr/OpenXRApi.cpp:2060-2210 | syncs iff initialised, running, predictedDisplayTime ≠ 0, FOCUSED and some active set; without a sync nothing changes; after it, slots and removals as ReconcileControllers; the ids `godot_arvr_add_controller` returns are taken as non-negative, so every slot stays -1 or an id |
| OpenXRApiCpp.ApiSingleton.OpenXRGetApi | src/openxr/OpenXRApi.cpp:469-490 | state becomes AfterGet(old, true); returns the old object, or a fresh uninitialised one |
| OpenXRApiCpp.ApiSingleton.OpenXRReleaseApi | src/openxr/OpenXRApi.cpp:446-467 | state becomes AfterRelease(old) |
| LegacyOpenXRApi.ChooseSwapchainFormat | src/OpenXRApi.cpp:385-413 | SRGB8_ALPHA8 if listed, else the first format |
| LegacyOpenXRApi.RenderOpenXR | src/OpenXRApi.cpp:858-953 | nothing unless running and before STOPPING; the frame is ended only by eye 1, with 0 layers when not rendering and 1 otherwise, and is ended when acquisition and release succeed |
| OXRCalls.OpenXRDataSingleton.OpenXRGetData | src/OXRCalls.c:32-59 | state becomes AfterGet(old, alloc ∧ init); returns null iff creation failed |
| OXRCalls.OpenXRDataSingleton.OpenXRReleaseData | src/OXRCalls.c:10-30 | state becomes AfterRelease(old) |
| OXRCalls.TransformFromRotPos | src/OXRCalls.c:1019-1046 | false exactly for the all-zero quaternion |
| OXRCalls.AfterEvents | src/OXRCalls.c:1231-1340 | stopped iff some event stops the session, and then not running |
| OXRCalls.EventsAfterStopIgnored | src/OXRCalls.c:1248-1268 | events after a stopping event have no effect |
| OXRCalls.FirstStopDecides | src/OXRCalls.c:1256-1268 | the first stopping event stops running and, for a state change, records that state |
| OXRCalls.XrApi.ProcessEvents | src/OXRCalls.c:1223-1340 | state and running as AfterEvents; the frame continues iff nothing stopped and the queue was drained |
| OXRCalls.ExternalTextureForEye | src/OXRCalls.c:1199-1219 | has_support set iff state > UNKNOWN and buffers exist; texture 0 otherwise |
| OpenXRActions.ClearedSpaces | src/openxr/actions/action.cpp:51-58 | every entry's space is null, its path and validity flag kept, same length |
| OpenXRActions.ClearedSpacesIdempotent | src/openxr/actions/action.cpp:51-58 | resetting spaces twice is resetting once |
| OpenXRActions.FirstPathIndex | src/openxr/actions/action.cpp:211-217 | none iff no entry has the path, else the first entry with it |
| OpenXRActions.FirstPathIndexIs | src/openxr/actions/action.cpp:213-217 | the entry the search loop stops at is the first one for the path |
| OpenXRActions.HapticPulseAsWritten | src/openxr/actions/action.cpp:282-308 | as written: a pulse only when running, with handle and path, for a vibration action; its amplitude is whatever storage held, not p_amplitude |
| OpenXRActions.HapticPulse | src/openxr/actions/action.cpp:282-308 | corrected: same guard; duration, frequency and amplitude as requested; equal to the as-written pulse when the stale amplitude happens to match |
| OpenXRActions.HapticAmplitudeIgnored | src/openxr/actions/action.cpp:293-306 | a half-strength request goes out with the stale amplitude as written, with 0.5 as intended |
| OpenXRActions.Action.constructor | src/openxr/actions/action.cpp:8-19 | one entry per top-level path, in order, with no space and validity false; type, name and handle stored |
| OpenXRActions.Action.ResetSpaces | src/openxr/actions/action.cpp:51-58 | the paths become ClearedSpaces of the old paths |
| OpenXRActions.Action.GetAsBool | src/openxr/actions/action.cpp:72-102 | false unless running, with non-null handle and path, and a boolean action; then the runtime's state |
| OpenXRActions.Action.GetAsFloat | src/openxr/actions/action.cpp:104-134 | 0.0 unless running, with handle and path, and a float action; then the runtime's value |
| OpenXRActions.Action.GetAsVector | src/openxr/actions/action.cpp:136-166 | the zero vector unless running, with handle and path, and a vector action; then the runtime's vector |
| OpenXRActions.Action.IsPoseActive | src/openxr/actions/action.cpp:168-198 | true iff the pose action can be queried, the query succeeded and the pose is active |
| OpenXRActions.Action.GetAsPose | src/openxr/actions/action.cpp:200-280 | identity unless a pose action can be queried and the path is registered; a space is created on first use; a failed create or locate gives identity; the validity flag becomes the orientation validity (changed only when it differs); the pose iff the orientation is valid |
| OpenXRActions.Action.DoHapticPulse | src/openxr/actions/action.cpp:282-308 | the corrected pulse: sent under the common guard with the requested amplitude |
| OpenXRActions.ActionIndex | src/openxr/actions/actionset.cpp:58-63 | none iff no action has the name, else the first one with it |
| OpenXRActions.ActionIndexIs | src/openxr/actions/actionset.cpp:59-63 | the action the look-up loop stops at is the first one with the name |
| OpenXRActions.FindAction | src/openxr/actions/actionset.cpp:71-80 | the first action with the name, or null when none has it |
| OpenXRActions.ActionSet.constructor | src/openxr/actions/actionset.cpp:8-25 | active, not attached, no actions (also src/openxr/actions/actionset.h:14-23) |
| OpenXRActions.ActionSet.SetActive | src/openxr/actions/actionset.cpp:40-46 | is_active reports the flag last set |
| `OpenXRActions.ActionSet.IsActive` | src/openxr/actions/actionset.cpp:40-42 | answers the stored flag, which the constructor sets and SetActive changes |
| OpenXRActions.ActionSet.AddAction | src/openxr/actions/actionset.cpp:52-69 | null and no change once attached; an existing name returns that action and appends nothing; else exactly one new action appended and returned; names stay unique |
| OpenXRActions.ActionSet.GetAction | src/openxr/actions/actionset.cpp:71-80 | null iff no action has the name, else an action of the set with that name |
| OpenXRActions.ActionSet.Attach | src/openxr/actions/actionset.cpp:86-116 | true at once when attached; else true iff handle, session and the attach call all succeed, and only then attached |
| OpenXRActions.ActionSet.ResetSpaces | src/openxr/actions/actionset.cpp:118-122 | every action's paths become ClearedSpaces of their old paths, even when an action appears twice |
| `GdActionResources.PopAll` | src/gdclasses/actions/OpenXRActionSet.cpp:47-50 | popping until empty leaves no element |
| `GdActionResources.EraseFirst` | src/gdclasses/actions/OpenXRActionSet.cpp:70-81 | an element is erased exactly when the value occurs, and the result is the list without its first occurrence |
| `GdActionResources.CopyInOrder` | src/gdclasses/actions/OpenXRActionSet.cpp:83-92 | the copy holds the same elements in the same order |
| `GdActionResources.OpenXRActionSet.constructor` | src/gdclasses/actions/OpenXRActionSet.cpp:115-117 | an empty name, no actions, no signal; the priority is whatever value the memory held (also src/gdclasses/actions/OpenXRActionSet.h:19-21) |
| `GdActionResources.OpenXRActionSet.SetName` | src/gdclasses/actions/OpenXRActionSet.cpp:28-34 | get_name answers the name set; nothing else changes |
| `GdActionResources.OpenXRActionSet.GetName` | src/gdclasses/actions/OpenXRActionSet.cpp:32-34 | answers the stored name, the one SetName last set |
| `GdActionResources.OpenXRActionSet.SetPriority` | src/gdclasses/actions/OpenXRActionSet.cpp:36-42 | get_priority answers the priority set; nothing else changes |
| `GdActionResources.OpenXRActionSet.GetPriority` | src/gdclasses/actions/OpenXRActionSet.cpp:40-42 | answers the stored priority, the one SetPriority last set |
| `GdActionResources.OpenXRActionSet.ClearActions` | src/gdclasses/actions/OpenXRActionSet.cpp:44-54 | no action is left and one actions_changed signal is emitted |
| `GdActionResources.OpenXRActionSet.AddAction` | src/gdclasses/actions/OpenXRActionSet.cpp:56-68 | the action is appended at the back with one signal |
| `GdActionResources.OpenXRActionSet.RemoveAction` | src/gdclasses/actions/OpenXRActionSet.cpp:70-81 | the first equal reference is removed with one signal; an absent action changes nothing and emits nothing |
| `GdActionResources.OpenXRActionSet.GetActions` | src/gdclasses/actions/OpenXRActionSet.cpp:83-92 | the actions in stored order |
| `GdActionResources.OpenXRActionSet.SetActions` | src/gdclasses/actions/OpenXRActionSet.cpp:94-112 | the stored actions become exactly the given ones, in order, with one signal |
| `GdActionResources.OpenXRInteractionProfile.constructor` | src/gdclasses/actions/OpenXRInteractionProfile.cpp:157-159 | an empty path and no bindings |
| `GdActionResources.OpenXRInteractionProfile.SetPath` | src/gdclasses/actions/OpenXRInteractionProfile.cpp:23-29 | get_path answers the path set; the bindings are kept |
| `GdActionResources.OpenXRInteractionProfile.GetPath` | src/gdclasses/actions/OpenXRInteractionProfile.cpp:27-29 | answers the stored path, the one SetPath last set |
| `GdActionResources.OpenXRInteractionProfile.NumberOfBindings` | src/gdclasses/actions/OpenXRInteractionProfile.cpp:61-63 | the number of stored bindings |
| `GdActionResources.OpenXRInteractionProfile.GetBinding` | src/gdclasses/actions/OpenXRInteractionProfile.cpp:65-71 | the binding at an index in range; an empty reference for a negative or too large index |
| `GdActionResources.OpenXRInteractionProfile.ClearBindings` | src/gdclasses/actions/OpenXRInteractionProfile.cpp:31-38 | no binding is left and the path is kept |
| `GdActionResources.OpenXRInteractionProfile.AddBinding` | src/gdclasses/actions/OpenXRInteractionProfile.cpp:40-49 | one more binding, found at the last index, with the earlier ones in place |
| `GdActionResources.OpenXRInteractionProfile.RemoveBinding` | src/gdclasses/actions/OpenXRInteractionProfile.cpp:51-59 | the first equal reference is removed, so the count drops by one exactly when the binding was held |
| `GdActionResources.OpenXRActionSets.constructor` | src/gdclasses/actions/OpenXRActionSets.cpp:167-169 | no action sets, no profiles, no signals |
| `GdActionResources.OpenXRActionSets.ClearActionSets` | src/gdclasses/actions/OpenXRActionSets.cpp:27-37 | no action set is left, with one signal; the profiles are untouched |
| `GdActionResources.OpenXRActionSets.AddActionSet` | src/gdclasses/actions/OpenXRActionSets.cpp:39-51 | the set is appended at the back with one signal |
| `GdActionResources.OpenXRActionSets.RemoveActionSet` | src/gdclasses/actions/OpenXRActionSets.cpp:53-64 | the first equal reference is removed with one signal; an absent set changes nothing and emits nothing |
| `GdActionResources.OpenXRActionSets.GetActionSets` | src/gdclasses/actions/OpenXRActionSets.cpp:66-75 | the action sets in stored order |
| `GdActionResources.OpenXRActionSets.SetActionSets` | src/gdclasses/actions/OpenXRActionSets.cpp:77-95 | the stored sets become exactly the given ones, in order, with one signal |
| `GdActionResources.OpenXRActionSets.ClearInteractionProfiles` | src/gdclasses/actions/OpenXRActionSets.cpp:97-107 | no profile is left, with one signal; the action sets are untouched |
| `GdActionResources.OpenXRActionSets.AddInteractionProfile` | src/gdclasses/actions/OpenXRActionSets.cpp:109-121 | the profile is appended at the back with one signal |
| `GdActionResources.OpenXRActionSets.RemoveInteractionProfile` | src/gdclasses/actions/OpenXRActionSets.cpp:123-134 | the first equal reference is removed with one signal; an absent profile changes nothing and emits nothing |
| `GdActionResources.OpenXRActionSets.GetInteractionProfiles` | src/gdclasses/actions/OpenXRActionSets.cpp:136-145 | the profiles in stored order |
| `GdActionResources.OpenXRActionSets.SetInteractionProfiles` | src/gdclasses/actions/OpenXRActionSets.cpp:147-165 | the stored profiles become exactly the given ones, in order, with one signal |
| `GdConfig.ViewConfigIndex` | src/gdclasses/XRInterfaceOpenXR.cpp:121-148 | the index is 0 or 1, and 0 exactly when the object reports the mono configuration (also src/gdclasses/OpenXRConfig.cpp:70-97) |
| `GdConfig.ViewConfigTypeFor` | src/gdclasses/XRInterfaceOpenXR.cpp:150-168 | only 0 and 1 are passed on, as the mono and the stereo configuration (also src/gdclasses/OpenXRConfig.cpp:99-117) |
| `GdConfig.ViewConfigRoundTrip` | src/gdclasses/XRInterfaceOpenXR.cpp:121-168 | index and configuration type correspond one to one for mono and stereo |
| `GdConfig.SetViewConfigType` | src/gdclasses/XRInterfaceOpenXR.cpp:150-168 | a type reaches the object exactly when the object exists and the index is 0 or 1, and it reads back as that index (also src/gdclasses/OpenXRConfig.cpp:99-117) |
| `GdConfig.ViewCount` | src/gdclasses/XRInterfaceOpenXR.cpp:429-459 | the view count is the view-config index plus one: one view for mono, two otherwise |
| `GdConfig.Capabilities` | src/gdclasses/XRInterfaceOpenXR.cpp:348-362 | mono, stereo and AR always, external rendering exactly when not on Android, never quad or VR |
| `GdConfig.SetFoveationLevel` | src/gdclasses/XRInterfaceOpenXR.cpp:323-328 | the wrapper is called exactly when present, with the level and the dynamic flag as enabled or disabled |
| `GdConfig.Keep3dLinear` | src/gdclasses/XRInterfaceOpenXR.cpp:113-119 | the object's setting, and false without the object (also src/gdclasses/OpenXRConfig.cpp:62-68) |
| `GdConfig.FormFactor` | src/gdclasses/XRInterfaceOpenXR.cpp:170-176 | the object's form factor, and 0 without the object (also src/gdclasses/OpenXRConfig.cpp:119-125) |
| `GdConfig.SetFormFactor` | src/gdclasses/XRInterfaceOpenXR.cpp:178-184 | the form factor changes only on an uninitialised object and only to the head-mounted or handheld value (also src/gdclasses/OpenXRConfig.cpp:127-133) |
| `GdConfig.ActionSets` | src/gdclasses/XRInterfaceOpenXR.cpp:240-246 | the object's action-set JSON, and empty without the object (also src/gdclasses/OpenXRConfig.cpp:189-195) |
| `GdConfig.SetActionSets` | src/gdclasses/XRInterfaceOpenXR.cpp:248-254 | the JSON is kept only by an uninitialised object; otherwise nothing changes (also src/gdclasses/OpenXRConfig.cpp:197-203) |
| `GdConfig.InteractionProfiles` | src/gdclasses/XRInterfaceOpenXR.cpp:256-262 | the object's interaction-profile JSON, and empty without the object (also src/gdclasses/OpenXRConfig.cpp:205-211) |
| `GdConfig.SetInteractionProfiles` | src/gdclasses/XRInterfaceOpenXR.cpp:264-270 | the JSON is kept only by an uninitialised object; otherwise nothing changes (also src/gdclasses/OpenXRConfig.cpp:213-219) |
| `GdConfig.IsInitialized` | src/gdclasses/XRInterfaceOpenXR.cpp:364-370 | true exactly when the object exists and is initialised |
| `GdConfig.Initialize` | src/gdclasses/XRInterfaceOpenXR.cpp:372-399 | false without the object; an uninitialised object gets the seven wrappers registered and then is initialised exactly when its steps succeed; an initialised one is left as it is; the answer is whether it is initialised |
| `GdConfig.Uninitialize` | src/gdclasses/XRInterfaceOpenXR.cpp:401-406 | afterwards the interface does not report itself initialised |
| `GdConfig.ColorSpace` | src/gdclasses/XRInterfaceOpenXR.cpp:186-192 | 0 without the wrapper, otherwise the wrapper's 32-bit colour space read as a signed int (also src/gdclasses/OpenXRConfig.cpp:135-141) |
| `GdConfig.SetColorSpace` | src/gdclasses/XRInterfaceOpenXR.cpp:194-198 | an enabled wrapper whose runtime accepts keeps the value cast to uint32, which reads back unchanged for a 32-bit int; otherwise the colour space stays (also src/gdclasses/OpenXRConfig.cpp:143-147) |
| `GdConfig.AvailableColorSpaces` | src/gdclasses/XRInterfaceOpenXR.cpp:200-206 | empty without the wrapper or on any failed or empty enumeration, otherwise the wrapper's dictionary of the enumerated spaces (also src/gdclasses/OpenXRConfig.cpp:149-155) |
| `GdConfig.CpuLevel` | src/gdclasses/XRInterfaceOpenXR.cpp:281-287 | the wrapper's CPU level, and sustained high without it |
| `GdConfig.GpuLevel` | src/gdclasses/XRInterfaceOpenXR.cpp:295-301 | the wrapper's GPU level, and sustained high without it |
| `GdConfig.SetCpuLevel` | src/gdclasses/XRInterfaceOpenXR.cpp:289-293 | the CPU level changes to the value exactly when the wrapper is enabled and the runtime accepts it; the GPU level stays |
| `GdConfig.SetGpuLevel` | src/gdclasses/XRInterfaceOpenXR.cpp:303-307 | the GPU level changes to the value exactly when the wrapper is enabled and the runtime accepts it; the CPU level stays |
| `GdConfig.Defaulted` | src/gdclasses/XRInterfaceOpenXR.cpp:208-238 | each getter of an object outside the model answers that object's value when present, and 0, an empty array, 1 or false when absent (also lines 309-321 and 330-332, src/gdclasses/OpenXRConfig.cpp:157-187) |
| `GdConfig.NullDefaults` | src/gdclasses/XRInterfaceOpenXR.cpp:113-307 | with every pointer null each accessor answers its fixed default (also src/gdclasses/OpenXRConfig.cpp:62-219) |
| `HandJoints.ParentsFormTree` | src/gdclasses/OpenXRHand.cpp:96-123 | the parent table has 26 entries, the palm is the root and every other joint hangs off an earlier one |
| `HandJoints.OnlyWristOnPalm` | src/gdclasses/OpenXRHand.cpp:96-123 | the wrist is the only joint whose parent is the palm |
| `HandJoints.PathOf` | src/gdclasses/OpenXRHand.cpp:49-78 | a joint's path built from the tree is at least as long as its own name (also lines 96-123) |
| `HandJoints.JoinPath` | src/gdclasses/OpenXRHand.cpp:49-78 | a single segment is its own path |
| `HandJoints.NodePathsExtendParents` | src/gdclasses/OpenXRHand.cpp:49-78 | the node table has 26 rows; the palm is ".", the wrist a plain name, and every deeper row is its parent's row plus its own name (also lines 96-123) |
| `HandJoints.JoinPathSnoc` | src/gdclasses/OpenXRHand.cpp:49-78 | joining one more segment appends a slash and that segment |
| `HandJoints.NodeNameStep` | src/gdclasses/OpenXRHand.cpp:49-78 | each joint past the wrist is looked up at its parent's path, a slash and its own name (also lines 96-123) |
| `HandJoints.NodeNamesFollowParents` | src/gdclasses/OpenXRHand.cpp:49-78 | every node path in the lookup table is the path of that joint in the parent tree (also lines 96-123) |
| `HandJoints.ClampHand` | src/gdclasses/OpenXRHand.cpp:179-181 | the hand is 0 or 1, and 1 exactly when 1 was asked for (also src/gdclasses/OpenXRSkeleton.cpp:158-160) |
| `HandJoints.XrMotionRange` | src/gdclasses/OpenXRHand.cpp:192-211 | 0 maps to unobstructed; 1 and every other value conform to the controller |
| `HandJoints.SuffixedBoneName` | src/gdclasses/OpenXRSkeleton.cpp:47-86 | the bone name is the base name followed by "_L" for hand 0 and "_R" otherwise |
| `HandJoints.FindBone` | src/gdclasses/OpenXRSkeleton.cpp:85 | the first bone with the name, or -1 exactly when no bone has it (also src/openxr/OpenXRSkeleton.cpp:70) |
| `HandJoints.BoneParent` | src/gdclasses/OpenXRSkeleton.cpp:119 | the recorded parent of a bone, and -1 for an index that is not a bone |
| `PoseLookup.Split` | src/gdclasses/OpenXRPose.cpp:88 | at least one part, and no part holds a separator |
| `PoseLookup.SplitCount` | src/gdclasses/OpenXRPose.cpp:88 | the split has one more part than the string has separators |
| `PoseLookup.JoinSplit` | src/gdclasses/OpenXRPose.cpp:88 | joining the parts back with the separator gives the original string |
| `PoseLookup.SplitTwo` | src/gdclasses/OpenXRPose.cpp:88-89 | two separator-free names around one separator split into exactly those names |
| `PoseLookup.SplitNone` | src/gdclasses/OpenXRPose.cpp:88-89 | a string with no separator is a single part |
| `PoseLookup.SplitsInTwo` | src/gdclasses/OpenXRPose.cpp:88-89 | the split gives two given parts exactly when the string is those separator-free parts around one separator |
| `PoseLookup.ResolveAction` | src/gdclasses/OpenXRPose.cpp:87-108 | a resolved action names a known action set and one of that set's actions |
| `PoseLookup.ResolveActionIff` | src/gdclasses/OpenXRPose.cpp:87-108 | an action string resolves to a set and an action exactly when it is "set/action" with neither name holding a slash and both known |
| `PoseLookup.CheckActionAndPath` | src/gdclasses/OpenXRPose.cpp:76-119 | false with the cache kept while there are no action sets or after a failure; otherwise true exactly when an action is cached or resolves and a path is cached or xrStringToPath succeeds; every false answer then sets the failure flag (also src/openxr/OpenXRPose.cpp:72-115) |
| `PoseLookup.CheckActionAndPathIdempotent` | src/gdclasses/OpenXRPose.cpp:76-119 | checking twice with the same runtime answers gives the same answer and cache as checking once |
| `PoseLookup.FailedLookupIsSticky` | src/gdclasses/OpenXRPose.cpp:82-85 | after a failed lookup every later check answers false and keeps the cache, whatever the action sets and runtime answers |
| `PoseLookup.StaysFailed` | src/gdclasses/OpenXRPose.cpp:82-85 | a cache with its failure flag set stays as it is through any run of checks |
| `GdHandNodes.HandReference` | src/gdclasses/OpenXRHand.cpp:133-155 | the palm is posed relative to the reference frame and every other joint relative to the inverse of its parent joint, an earlier joint |
| `GdHandNodes.HandPoses` | src/gdclasses/OpenXRHand.cpp:133-155 | a pose for exactly the joints that have a node, each relative to its `HandReference`, in joint order |
| `GdHandNodes.OpenXRHand.constructor` | src/gdclasses/OpenXRHand.cpp:25-34 | the left hand, unobstructed motion, no joint nodes, with the objects it was given |
| `GdHandNodes.OpenXRHand.SetHand` | src/gdclasses/OpenXRHand.cpp:179-181 | the hand becomes 1 for 1 and 0 for everything else |
| `GdHandNodes.OpenXRHand.ApplyMotionRange` | src/gdclasses/OpenXRHand.cpp:192-211 | the wrapper's tracker for this hand gets the mapped motion range and no other tracker changes; nothing happens without a wrapper |
| `GdHandNodes.OpenXRHand.SetMotionRange` | src/gdclasses/OpenXRHand.cpp:187-190 | the range is stored and handed to this hand's tracker |
| `GdHandNodes.OpenXRHand.Ready` | src/gdclasses/OpenXRHand.cpp:48-87 | joint i has a node exactly when the scene has a node at that joint's path, and the motion range is applied |
| `GdHandNodes.OpenXRHand.PhysicsProcess` | src/gdclasses/OpenXRHand.cpp:89-161 | nothing without both objects or before initialisation; otherwise visible exactly while the hand is tracked, posing then every joint that has a node as `HandPoses` says (also lines 163-173) |
| `GdHandNodes.JointOfBone` | src/gdclasses/OpenXRSkeleton.cpp:127-134 | the first joint following the bone, and none exactly when no joint follows it |
| `GdHandNodes.FindParentJoint` | src/gdclasses/OpenXRSkeleton.cpp:127-134 | the search finds a joint exactly when some joint follows the parent bone, and then the first such joint |
| `GdHandNodes.JointOfBoneIs` | src/gdclasses/OpenXRSkeleton.cpp:127-134 | the outcome of the search, first index or absent, is the answer of `JointOfBone` |
| `GdHandNodes.BoneReference` | src/gdclasses/OpenXRSkeleton.cpp:117-135 | a root bone is posed relative to the palm, another bone relative to the first joint following its parent bone, and left in tracking space when none does |
| `GdHandNodes.SkeletonPoses` | src/gdclasses/OpenXRSkeleton.cpp:115-144 | a pose for exactly the joints that found a bone, posing that bone relative to its `BoneReference` |
| `GdHandNodes.OpenXRSkeleton.constructor` | src/gdclasses/OpenXRSkeleton.cpp:23-32 | the left hand, unobstructed motion, every bone id -1 |
| `GdHandNodes.OpenXRSkeleton.SetHand` | src/gdclasses/OpenXRSkeleton.cpp:158-160 | the hand becomes 1 for 1 and 0 for everything else |
| `GdHandNodes.OpenXRSkeleton.ApplyMotionRange` | src/gdclasses/OpenXRSkeleton.cpp:171-190 | the wrapper's tracker for this hand gets the mapped motion range and no other tracker changes |
| `GdHandNodes.OpenXRSkeleton.SetMotionRange` | src/gdclasses/OpenXRSkeleton.cpp:166-169 | the range is stored and handed to this hand's tracker |
| `GdHandNodes.OpenXRSkeleton.Ready` | src/gdclasses/OpenXRSkeleton.cpp:46-92 | joint i follows the first bone named after it with the hand's "_L" or "_R" suffix, or -1 |
| `GdHandNodes.OpenXRSkeleton.PhysicsProcess` | src/gdclasses/OpenXRSkeleton.cpp:94-152 | nothing without both objects or before initialisation; otherwise visible exactly while the hand is tracked, posing then the bones as `SkeletonPoses` says |
| `GdHandNodes.OpenXRPose.constructor` | src/gdclasses/OpenXRPose.cpp:54-62 | hidden while inactive, following "SkeletonBase" on "/user/hand/left", nothing cached |
| `GdHandNodes.OpenXRPose.SetInvisibleIfInactive` | src/gdclasses/OpenXRPose.cpp:183-185 | the flag takes the value given |
| `GdHandNodes.OpenXRPose.SetAction` | src/gdclasses/OpenXRPose.cpp:191-195 | the action is stored, its cached lookup dropped and the failure flag cleared; the cached path stays |
| `GdHandNodes.OpenXRPose.SetPath` | src/gdclasses/OpenXRPose.cpp:201-205 | the path is stored, its cached XrPath reset to the null path and the failure flag cleared; the cached action stays |
| `GdHandNodes.OpenXRPose.CheckActionAndPath` | src/gdclasses/OpenXRPose.cpp:76-119 | the answer and the new cache are those of `PoseLookup.CheckActionAndPath` |
| `GdHandNodes.OpenXRPose.IsActive` | src/gdclasses/OpenXRPose.cpp:155-177 | false and no lookup while not processing; with the default action whether that palm's hand is tracked; otherwise the lookup's answer combined with whether the pose is active |
| `GdHandNodes.OpenXRPose.PhysicsProcess` | src/gdclasses/OpenXRPose.cpp:121-153 | nothing while not processing; visibility follows `is_active` when hidden while inactive; the node takes the default hand's palm or, once the lookup succeeds, the cached action's pose at the cached path |
| `LegacyHandNodes.LegacyHandReference` | src/openxr/OpenXRHand.cpp:115-130 | a joint is posed relative to its parent's node exactly when it has a parent and that parent has a node; the palm and joints under a missing node stay in tracking space |
| `LegacyHandNodes.LegacyHandPoses` | src/openxr/OpenXRHand.cpp:114-131 | a pose for exactly the joints that have a node, each relative to its `LegacyHandReference` |
| `LegacyHandNodes.OpenXRHand.constructor` | src/openxr/OpenXRHand.cpp:19-26 | the left hand and no joint nodes |
| `LegacyHandNodes.OpenXRHand.GetHand` | src/openxr/OpenXRHand.cpp:141-149 | 1 exactly for the right hand, 0 for the left and for any other value |
| `LegacyHandNodes.OpenXRHand.SetHand` | src/openxr/OpenXRHand.cpp:151-157 | 1 selects the right hand and every other value the left, so `get_hand` then answers `ClampHand` of the argument |
| `LegacyHandNodes.OpenXRHand.Ready` | src/openxr/OpenXRHand.cpp:38-75 | joint i has a node exactly when the scene has a node at that joint's path |
| `LegacyHandNodes.OpenXRHand.PhysicsProcess` | src/openxr/OpenXRHand.cpp:77-139 | nothing without the OpenXR object; otherwise visible exactly while the hand is tracked, posing then the joints as `LegacyHandPoses` says |
| `LegacyHandNodes.LegacyBoneReference` | src/openxr/OpenXRSkeleton.cpp:121-144 | a bone is left in tracking space exactly when its parent is past the palm and has no bone, whose kept inverse is then the identity; otherwise it is posed relative to its parent joint's inverse |
| `LegacyHandNodes.LegacySkeletonPoses` | src/openxr/OpenXRSkeleton.cpp:119-149 | a pose for exactly the joints past the palm that found a bone, each relative to its `LegacyBoneReference` |
| `LegacyHandNodes.OpenXRSkeleton.constructor` | src/openxr/OpenXRSkeleton.cpp:19-26 | the left hand and every bone id -1 |
| `LegacyHandNodes.OpenXRSkeleton.SetHand` | src/openxr/OpenXRSkeleton.cpp:164-166 | the hand becomes 1 for 1 and 0 for everything else |
| `LegacyHandNodes.OpenXRSkeleton.Ready` | src/openxr/OpenXRSkeleton.cpp:38-75 | joint i follows the first bone named after the joint, without a hand suffix, or -1 |
| `LegacyHandNodes.OpenXRSkeleton.PoseBones` | src/openxr/OpenXRSkeleton.cpp:119-149 | the joint loop, carrying whether each joint's inverse is tracked, poses exactly the bones `LegacySkeletonPoses` lists |
| `LegacyHandNodes.OpenXRSkeleton.PhysicsProcess` | src/openxr/OpenXRSkeleton.cpp:77-158 | nothing without the OpenXR object or before initialisation; otherwise visible exactly while the hand is tracked, posing then the bones as `LegacySkeletonPoses` says |
| `LegacyHandNodes.OpenXRPose.constructor` | src/openxr/OpenXRPose.cpp:53-60 | hidden while inactive, following "SkeletonBase" on "/user/hand/left", nothing cached |
| `LegacyHandNodes.OpenXRPose.SetInvisibleIfInactive` | src/openxr/OpenXRPose.cpp:175-177 | the flag takes the value given |
| `LegacyHandNodes.OpenXRPose.SetAction` | src/openxr/OpenXRPose.cpp:183-187 | the action is stored, its cached lookup dropped and the failure flag cleared |
| `LegacyHandNodes.OpenXRPose.SetPath` | src/openxr/OpenXRPose.cpp:193-197 | the path is stored, its cached XrPath reset and the failure flag cleared |
| `LegacyHandNodes.OpenXRPose.CheckActionAndPath` | src/openxr/OpenXRPose.cpp:72-115 | the answer and the new cache are those of `PoseLookup.CheckActionAndPath` |
| `LegacyHandNodes.OpenXRPose.IsActive` | src/openxr/OpenXRPose.cpp:147-169 | false without the object or before initialisation; with the default action whether that palm's hand is tracked; otherwise the lookup's answer combined with whether the pose is active |
| `LegacyHandNodes.OpenXRPose.PhysicsProcess` | src/openxr/OpenXRPose.cpp:117-145 | nothing without the object or before initialisation; visibility follows `is_active` when hidden while inactive; the node takes the default hand's palm or the cached action's pose once the lookup succeeds |
| `HandTrackingWrapper.CleanedUp` | src/openxr/extensions/xr_ext_hand_tracking_extension_wrapper.cpp:165-174 | a tracker with a handle loses it and is marked uncreated; one without is untouched; the motion range survives |
| `HandTrackingWrapper.Updated` | src/openxr/extensions/xr_ext_hand_tracking_extension_wrapper.cpp:207-268 | a tracker without a handle is created, and counts as created exactly when creation succeeded; a located tracker is active exactly when the runtime says so and the palm is a number within a million metres; the motion range never changes |
| `HandTrackingWrapper.HandTrackingExtensionWrapper.constructor` | src/openxr/extensions/xr_ext_hand_tracking_extension_wrapper.cpp:3-7 | nothing requested or supported, two uncreated trackers with the unobstructed range, nothing destroyed (also src/openxr/extensions/xr_ext_hand_tracking_extension_wrapper.h:12-23, src/openxr/extensions/xr_ext_hand_tracking_extension_wrapper.h:77-81) |
| `HandTrackingWrapper.HandTrackingExtensionWrapper.OnExtensionsRequested` | src/openxr/extensions/xr_ext_hand_tracking_extension_wrapper.cpp:5-6 | the two extension flags become whether the runtime offers each extension |
| `HandTrackingWrapper.HandTrackingExtensionWrapper.OnInstanceInitialized` | src/openxr/extensions/xr_ext_hand_tracking_extension_wrapper.cpp:36-43 | hand tracking stays enabled exactly when it was enabled and its entry points loaded |
| `HandTrackingWrapper.HandTrackingExtensionWrapper.GetHandTracker` | src/openxr/extensions/xr_ext_hand_tracking_extension_wrapper.cpp:176-182 | the tracker of hand 0 or 1, and null for any other index |
| `HandTrackingWrapper.HandTrackingExtensionWrapper.GetMotionRange` | src/openxr/extensions/xr_ext_hand_tracking_extension_wrapper.cpp:184-191 | the hand's motion range, and unobstructed for any other index |
| `HandTrackingWrapper.HandTrackingExtensionWrapper.SetMotionRange` | src/openxr/extensions/xr_ext_hand_tracking_extension_wrapper.cpp:193-197 | the range is stored for hand 0 or 1 only and read back by get_motion_range; no other tracker changes |
| `HandTrackingWrapper.HandTrackingExtensionWrapper.InitializeHandTracking` | src/openxr/extensions/xr_ext_hand_tracking_extension_wrapper.cpp:45-47 | succeeds exactly when the extension is enabled, the system properties are read and the system tracks hands; then both trackers are reset to uncreated and hand tracking is marked supported; on failure nothing changes (also lines 122-163) |
| `HandTrackingWrapper.HandTrackingExtensionWrapper.CleanupHandTracking` | src/openxr/extensions/xr_ext_hand_tracking_extension_wrapper.cpp:56-58 | every tracker becomes its clean-up, and exactly the handles held are destroyed, in hand order (also lines 165-174) |
| `HandTrackingWrapper.HandTrackingExtensionWrapper.Cleanup` | src/openxr/extensions/xr_ext_hand_tracking_extension_wrapper.cpp:14-20 | the trackers are cleaned up and all three flags cleared (also lines 60-62) |
| `HandTrackingWrapper.HandTrackingExtensionWrapper.UpdateHandTracking` | src/openxr/extensions/xr_ext_hand_tracking_extension_wrapper.cpp:49-54 | nothing changes while hand tracking is unsupported; otherwise each hand's tracker becomes its update for this frame (also lines 199-270) |
| `HandTrackingWrapper.DestroyedHandles` | src/openxr/extensions/xr_ext_hand_tracking_extension_wrapper.cpp:165-174 | the destroyed handles are never null, at most one per tracker, and include every handle held |
| `HandTrackingWrapper.CleanupTwiceDestroysNothing` | src/openxr/extensions/xr_ext_hand_tracking_extension_wrapper.cpp:165-174 | cleaning up the cleaned-up trackers destroys no handle |
| `HandTrackingWrapper.NoHandleNoneDestroyed` | src/openxr/extensions/xr_ext_hand_tracking_extension_wrapper.cpp:166-167 | trackers without handles have nothing destroyed |
| `PalmPoseWrapper.PathIsSupported` | src/openxr/extensions/xr_ext_palm_pose_extension_wrapper.cpp:26-37 | the two palm-pose paths are supported exactly when the extension is enabled; every other path is always supported |
| `PalmPoseWrapper.PalmPathsOnlyNeedTheExtension` | src/openxr/extensions/xr_ext_palm_pose_extension_wrapper.cpp:26-37 | with the extension every path is supported, and without it exactly the two palm paths are refused |
| `PerfSettingsWrapper.OnEventPolled` | src/openxr/extensions/xr_ext_performance_settings_extension_wrapper.cpp:54-73 | an event is consumed exactly when it is a performance-settings event |
| `PerfSettingsWrapper.PerformanceSettingsWrapper.constructor` | src/openxr/extensions/xr_ext_performance_settings_extension_wrapper.cpp:13-16 | the extension disabled, both levels at sustained high, no call sent (also src/openxr/extensions/xr_ext_performance_settings_extension_wrapper.h:51-56) |
| `PerfSettingsWrapper.PerformanceSettingsWrapper.OnExtensionRequested` | src/openxr/extensions/xr_ext_performance_settings_extension_wrapper.cpp:15 | the extension flag becomes whether the runtime offers the extension |
| `PerfSettingsWrapper.PerformanceSettingsWrapper.OnInstanceInitialized` | src/openxr/extensions/xr_ext_performance_settings_extension_wrapper.cpp:37-44 | the extension stays enabled exactly when it was enabled and its entry point loaded |
| `PerfSettingsWrapper.PerformanceSettingsWrapper.UpdatePerfSettingsLevel` | src/openxr/extensions/xr_ext_performance_settings_extension_wrapper.cpp:79-90 | no call and false while disabled; otherwise one call is sent and the answer is whether the runtime accepted it |
| `PerfSettingsWrapper.PerformanceSettingsWrapper.SetCpuLevel` | src/openxr/extensions/xr_ext_performance_settings_extension_wrapper.cpp:92-98 | the CPU level changes exactly when the runtime accepted the new level, and the call is recorded on the CPU domain |
| `PerfSettingsWrapper.PerformanceSettingsWrapper.SetGpuLevel` | src/openxr/extensions/xr_ext_performance_settings_extension_wrapper.cpp:100-106 | the GPU level changes exactly when the runtime accepted the new level, and the call is recorded on the GPU domain |
| `PerfSettingsWrapper.PerformanceSettingsWrapper.OnStateReady` | src/openxr/extensions/xr_ext_performance_settings_extension_wrapper.cpp:46-52 | while enabled, the stored CPU level and then the stored GPU level are sent again; the stored levels never change |
| `PerfSettingsWrapper.PerformanceSettingsWrapper.Cleanup` | src/openxr/extensions/xr_ext_performance_settings_extension_wrapper.cpp:23-27 | the extension disabled and both levels back to sustained high (also lines 75-77) |
| `ColorSpaceWrapper.ColorSpaceEnumDescTotal` | src/openxr/extensions/xr_fb_color_space_extension_wrapper.cpp:102-135 | each of the eight colour spaces and MAX_ENUM gets its own name, and every other value gets "Unknown" |
| `ColorSpaceWrapper.SpacesDictionary` | src/openxr/extensions/xr_fb_color_space_extension_wrapper.cpp:91-94 | the dictionary's keys are exactly the listed spaces and each maps to its name |
| `ColorSpaceWrapper.ColorSpaceExtensionWrapper.constructor` | src/openxr/extensions/xr_fb_color_space_extension_wrapper.cpp:17-21 | the extension disabled, the colour space unmanaged |
| `ColorSpaceWrapper.ColorSpaceExtensionWrapper.OnExtensionRequested` | src/openxr/extensions/xr_fb_color_space_extension_wrapper.cpp:19 | the extension flag becomes whether the runtime offers the extension; the colour space is kept |
| `ColorSpaceWrapper.ColorSpaceExtensionWrapper.OnInstanceInitialized` | src/openxr/extensions/xr_fb_color_space_extension_wrapper.cpp:45-52 | the extension stays enabled exactly when it was enabled and both entry points loaded (also lines 163-176) |
| `ColorSpaceWrapper.ColorSpaceExtensionWrapper.Cleanup` | src/openxr/extensions/xr_fb_color_space_extension_wrapper.cpp:41-43 | the extension disabled |
| `ColorSpaceWrapper.ColorSpaceExtensionWrapper.SetColorSpace` | src/openxr/extensions/xr_fb_color_space_extension_wrapper.cpp:54-68 | get_color_space answers the new space exactly when the extension is enabled and the runtime accepted it, and the old space otherwise (also lines 151-161) |
| `ColorSpaceWrapper.ColorSpaceExtensionWrapper.GetColorSpace` | src/openxr/extensions/xr_fb_color_space_extension_wrapper.cpp:54-56 | answers the stored colour space, which SetColorSpace and the system-properties chaining update |
| `ColorSpaceWrapper.ColorSpaceExtensionWrapper.SetSystemPropertiesAndGetNextPointer` | src/openxr/extensions/xr_fb_color_space_extension_wrapper.cpp:28-39 | the properties are chained in exactly when the extension is enabled, and then the colour space is reset to unmanaged until the runtime fills it |
| `ColorSpaceWrapper.ColorSpaceExtensionWrapper.GetAvailableColorSpaces` | src/openxr/extensions/xr_fb_color_space_extension_wrapper.cpp:70-100 | empty when disabled, when an enumeration fails, or when there is no colour space; otherwise every returned space with its name (also lines 137-149) |
| OpenHMDData.HalfTruncated | src/openhmd_data.c:147-148 | `width /= 2` truncates toward zero: the remainder is 0 or 1 for non-negative and 0 or −1 for negative resolutions |
| OpenHMDData.FirstEmptySlot | src/openhmd_data.c:234-238 | the index of the first slot without a device (every slot before it holds one), or the table size when all are taken |
| OpenHMDData.FirstEmptySlotIs | src/openhmd_data.c:234-241 | the slot the search loop stops at is exactly the first empty one, or the end when all are taken |
| OpenHMDData.ClosedSlotReused | src/openhmd_data.c:210-241 | closing slot k when every slot before it is taken makes k the next slot handed out |
| OpenHMDData.FilledSlotSkipped | src/openhmd_data.c:234-249 | once the first empty slot holds a device the next search goes past it |
| OpenHMDData.OpenHMDDataStruct.constructor | src/openhmd_data.c:13-28 | use count 1, auto-init of device 0, no devices, size 0×0, oversample 2.0, no context, settings or devices, all 16 slots empty |
| OpenHMDData.OpenHMD.GetOpenHMDData | src/openhmd_data.c:11-34 | the first get allocates the initial object, later gets raise the use count by one and change nothing else; the singleton follows AfterGet |
| OpenHMDData.OpenHMD.ReleaseOpenHMDData | src/openhmd_data.c:36-45 | decrements above 1, frees and nulls at exactly 1, no-op on null; the singleton follows AfterRelease |
| OpenHMDData.OpenHMD.ScanForDevices | src/openhmd_data.c:47-62 | with data and context the probed count replaces num_devices (and is what DeviceCount then reports); otherwise nothing changes |
| OpenHMDData.OpenHMD.DeviceCount | src/openhmd_data.c:64-74 | 0 without data or context, otherwise num_devices |
| OpenHMDData.OpenHMD.DeviceString | src/openhmd_data.c:76-106 | vendor and product: the listed string when there is a context and p_device < num_devices, "" otherwise (negative indices are not rejected) |
| OpenHMDData.OpenHMD.CloseHmdDevice | src/openhmd_data.c:108-119 | with a context the HMD device is cleared; nothing else changes |
| OpenHMDData.OpenHMD.InitHmdDevice | src/openhmd_data.c:121-163 | false without context; closes the HMD device first, then false for p_device ≥ num_devices; otherwise the opened device is stored, true iff it opened, and then width is half the horizontal and height the vertical resolution |
| OpenHMDData.OpenHMD.CloseTrackingDevice | src/openhmd_data.c:165-176 | with a context the tracking device is cleared; nothing else changes |
| OpenHMDData.OpenHMD.InitTrackingDevice | src/openhmd_data.c:178-208 | false without context; closes first, false for p_device ≥ num_devices; otherwise stores the opened device and answers whether it opened |
| OpenHMDData.OpenHMD.CloseControllerDevice | src/openhmd_data.c:210-224 | with a context a slot holding a device becomes empty (device and tracker 0); every other slot and every other case is unchanged |
| OpenHMDData.OpenHMD.InitControllerDevice | src/openhmd_data.c:226-256 | false without context or when all 16 slots hold devices; otherwise true, and the first empty slot gets the opened device and its tracker, or stays empty when opening failed |
| OpenHMDData.OpenHMD.GetOversample | src/openhmd_data.c:258-265 | 1.0 without data, otherwise the stored oversample |
| OpenHMDData.OpenHMD.SetOversample | src/openhmd_data.c:267-273 | with data the oversample becomes the value (and GetOversample returns it); ignored without data |
| OpenHMDInterface.Capabilities | src/ARVRInterface.c:28-35 | stereo is the only capability flag set |
| OpenHMDInterface.IsStereo | src/ARVRInterface.c:49-55 | always true, in agreement with the stereo capability |
| OpenHMDInterface.Constructor | src/ARVRInterface.c:6-8 | takes a reference to the shared data (AfterGet) and owns it |
| OpenHMDInterface.Destructor | src/ARVRInterface.c:10-16 | releases the data only when p_data is the shared object; otherwise nothing changes |
| OpenHMDInterface.IsInitialized | src/ARVRInterface.c:57-67 | true iff p_data is the shared object and it has a context |
| OpenHMDInterface.Initialize | src/ARVRInterface.c:69-103 | only the owner without a context creates one; true iff a context was created (an already initialised interface answers false); then the probed count is the device count and, with auto-init, device 0 becomes the HMD when it exists; the whole field record is stated for each case: context and settings as created, the probed count, and with auto-init the HMD device closed, or opened with width half the horizontal and height the vertical resolution, use count, oversample and tracking device kept; the controller table is untouched |
| OpenHMDInterface.ClosedAll | src/ARVRInterface.c:109-112 | every slot holding a device becomes empty, the others are unchanged; afterwards no slot holds a device |
| OpenHMDInterface.CloseAllControllers | src/ARVRInterface.c:109-112 | with a context, every slot holding a device is emptied and every empty slot is left as it is |
| OpenHMDInterface.Uninitialize | src/ARVRInterface.c:105-127 | with the owner and a context: all 16 slots closed, tracking and HMD devices, settings and context cleared, nothing else changed; otherwise a no-op; never initialised afterwards |
| OpenHMDInterface.ButtonFor | src/ARVRInterface.c:342-348 | TRIGGER_CLICK → button 15, MENU → button 1, any other control j → button j |
| OpenHMDInterface.ControllerButtons | src/ARVRInterface.c:340-353 | one report per control, in order: control j on ButtonFor(j, hint), pressed iff its state > 0 |
| OpenHMDInterface.TrackedControllers | src/ARVRInterface.c:322-327 | exactly the trackers of the slots holding a device, at most one per slot |
| OpenHMDInterface.ProcessControllers | src/ARVRInterface.c:315-357 | for the owner, the controllers updated are TrackedControllers of the table in slot order; any other p_data updates none |
| GodotCalls.Accepted | src/GodotCalls.cpp:20-53 | ARVR accepted iff (major, minor) ≥ (1, 1), NativeScript iff ≥ (1, 0), any other type never |
| GodotCalls.LastTaken | src/GodotCalls.cpp:18-55 | the last accepted extension of the type wins; with none the earlier pointer is kept |
| GodotCalls.GodotApis.GdnativeInit | src/GodotCalls.cpp:13-56 | stores the core API and sets each extension pointer to LastTaken over the extension list |
| GodotCalls.GodotApis.GdnativeTerminate | src/GodotCalls.cpp:58-62 | all three API pointers cleared |
| ArvrInterfaceOpenXR.Capabilities | src/ARVRInterface.cpp:22-26 | stereo and external are set, mono and AR are not |
| ArvrInterfaceOpenXR.ArvrData.constructor | src/ARVRInterface.cpp:251-258 | no API object held |
| ArvrInterfaceOpenXR.ArvrData.IsInitialized | src/ARVRInterface.cpp:50-63 | false without an API object, otherwise the object's initialised flag |
| ArvrInterfaceOpenXR.ArvrData.Initialize | src/ARVRInterface.cpp:65-85 | takes the shared object once (AfterGet), keeps it afterwards; the answer is true iff initialisation succeeded or the shared object was already initialised |
| ArvrInterfaceOpenXR.ArvrData.Uninitialize | src/ARVRInterface.cpp:87-98 | a held object is uninitialised and released (AfterRelease) and the pointer cleared; a surviving shared object is left uninitialised; nothing happens without one (also src/ARVRInterface.cpp:260-271) |
| ArvrInterfaceOpenXR.TransformForEye | src/ARVRInterface.cpp:133-163 | head centre iff eye 0 and the look-up succeeds; view eye−1 iff eye 1 or 2 and the look-up succeeds; the default position otherwise |
| ArvrInterfaceOpenXR.ProjectionView | src/ARVRInterface.cpp:174-190 | with an API object view 0 iff eye 1, view 1 for every other eye; nothing without one |
| ArvrInterfaceOpenXR.ApiEye | src/ARVRInterface.cpp:235-238 | render and external texture pass eye−1 when an API object exists (also src/ARVRInterface.cpp:279-283) |
| ArvrInterfaceOpenXR.EyeViewsAgree | src/ARVRInterface.cpp:140-183 | for eyes 1 and 2 the view transform, the projection and the rendered view agree |
| LegacyOpenXRApi.AfterGetAsWritten | src/OpenXRApi.cpp:24-42 | as written: a fresh singleton's count is the uninitialised use_count (src/OpenXRApi.h:64), an existing one is incremented; `openxr_get_data` in src/OXRCalls.c:44-55 leaves its count unset after `godot_alloc` the same way |
| LegacyOpenXRApi.StaleCountOutlivesRelease | src/OpenXRApi.cpp:24-42 | with a stale count of 2 one get and one release leave the object alive, while the intended get and release delete it |
| `FoveationLevelKt.KnownCodes` | android/src/main/java/org/godotengine/plugin/vr/openxr/api/FoveationLevel.kt:10-33 | codes 0, 1, 2 and 3 give NONE, LOW, MEDIUM and HIGH |
| `FoveationLevelKt.ToFoveationLevel` | android/src/main/java/org/godotengine/plugin/vr/openxr/api/FoveationLevel.kt:28-35 | the level found carries the requested code, or is NONE |
| `FoveationLevelKt.UnknownCodeIsNone` | android/src/main/java/org/godotengine/plugin/vr/openxr/api/FoveationLevel.kt:27-34 | any code outside 0..3 gives NONE, and inside 0..3 the level found carries that code |
| `FoveationLevelKt.RoundTrip` | android/src/main/java/org/godotengine/plugin/vr/openxr/api/FoveationLevel.kt:6-35 | looking up a level's own code gives back that level |
| `FoveationLevelKt.CodesDistinct` | android/src/main/java/org/godotengine/plugin/vr/openxr/api/FoveationLevel.kt:10-25 | the codes of the four levels are pairwise distinct and the list covers every level |
| `PerformanceSettingsLevelKt.CodesIncreasing` | android/src/main/java/org/godotengine/plugin/vr/openxr/api/PerformanceSettingsLevel.kt:11-34 | the codes strictly increase in declaration order, and the list covers every level |
| `PerformanceSettingsLevelKt.Lookup` | android/src/main/java/org/godotengine/plugin/vr/openxr/api/PerformanceSettingsLevel.kt:36-44 | codes 0, 25, 50 and 75 give POWER_SAVINGS, SUSTAINED_LOW, SUSTAINED_HIGH and BOOST; every other code, 1..3 included, gives SUSTAINED_HIGH |
| `PerformanceSettingsLevelKt.ToPerformanceSettingsLevel` | android/src/main/java/org/godotengine/plugin/vr/openxr/api/PerformanceSettingsLevel.kt:37-45 | the level found carries the requested code, or is SUSTAINED_HIGH |
| `PerformanceSettingsLevelKt.RoundTrip` | android/src/main/java/org/godotengine/plugin/vr/openxr/api/PerformanceSettingsLevel.kt:6-45 | every level is recovered from its own code |
| `SystemTypeKt.NamesDistinct` | android/src/main/java/org/godotengine/plugin/vr/openxr/api/SystemType.kt:6-9 | the three system names are pairwise distinct and the list covers every system type |
| `SystemTypeKt.Lookup` | android/src/main/java/org/godotengine/plugin/vr/openxr/api/SystemType.kt:12-23 | null and every unlisted name give UNKNOWN; the two headset names match exactly |
| `SystemTypeKt.ToSystemType` | android/src/main/java/org/godotengine/plugin/vr/openxr/api/SystemType.kt:12-23 | the type found is UNKNOWN or one whose name is exactly the given, non-null string |
| `SystemTypeKt.RoundTrip` | android/src/main/java/org/godotengine/plugin/vr/openxr/api/SystemType.kt:6-24 | every system type is recovered from its own name |
| `XrColorSpaceKt.CodesAreIndices` | android/src/main/java/org/godotengine/plugin/vr/openxr/api/XrColorSpace.kt:10-79 | the variant in position i carries code i, so the codes are distinct and cover every variant |
| `XrColorSpaceKt.Lookup` | android/src/main/java/org/godotengine/plugin/vr/openxr/api/XrColorSpace.kt:72-80 | for v in 0..7 the lookup gives the variant with code v; any other code gives UNMANAGED |
| `XrColorSpaceKt.ToXrColorSpace` | android/src/main/java/org/godotengine/plugin/vr/openxr/api/XrColorSpace.kt:74-81 | the colour space found carries the requested code, or is UNMANAGED |
| `XrColorSpaceKt.RoundTrip` | android/src/main/java/org/godotengine/plugin/vr/openxr/api/XrColorSpace.kt:6-81 | every colour space is recovered from its own code |
| `OpenXRConfigKt.CodesAreIndices` | android/src/main/java/org/godotengine/plugin/vr/openxr/api/OpenXRConfig.kt:10-75 | the duplicate enum also carries code i in position i and covers every variant |
| `OpenXRConfigKt.Lookup` | android/src/main/java/org/godotengine/plugin/vr/openxr/api/OpenXRConfig.kt:77-86 | codes 0..7 give the eight variants, every other code XR_COLOR_SPACE_UNMANAGED |
| `OpenXRConfigKt.ToXrColorSpace` | android/src/main/java/org/godotengine/plugin/vr/openxr/api/OpenXRConfig.kt:78-85 | the colour space found carries the requested code, or is XR_COLOR_SPACE_UNMANAGED |
| `OpenXRConfigKt.AgreesWithXrColorSpaceKt` | android/src/main/java/org/godotengine/plugin/vr/openxr/api/OpenXRConfig.kt:10-87 | the duplicate declaration decodes every native code to the same code as the one in XrColorSpace.kt |
| `OpenXRConfigKt.GetColorSpace` | android/src/main/java/org/godotengine/plugin/vr/openxr/api/OpenXRConfig.kt:92 | the native answer is decoded: codes 0..7 keep their value, any other gives UNMANAGED |
| `OpenXRConfigKt.SetColorSpace` | android/src/main/java/org/godotengine/plugin/vr/openxr/api/OpenXRConfig.kt:99 | the value handed to the native side is in 0..7 and decodes back to the colour space set |
| `OpenXRConfigKt.GetAfterSet` | android/src/main/java/org/godotengine/plugin/vr/openxr/api/OpenXRConfig.kt:92-99 | with a native side that echoes what was set, getting after setting returns the value set |
| `OpenXRConfigKt.GetAvailableColorSpaces` | android/src/main/java/org/godotengine/plugin/vr/openxr/api/OpenXRConfig.kt:106-109 | one decoded entry per native entry, in order |
| `OpenXRPluginKt.LoadSharedLibs` | android/src/main/java/org/godotengine/plugin/vr/openxr/OpenXRPlugin.kt:19-30 | the libraries count as loaded exactly when both openxr_loader and godot_openxr load |
| `OpenXRPluginKt.OpenXRPlugin.constructor` | android/src/main/java/org/godotengine/plugin/vr/openxr/OpenXRPlugin.kt:16-31 | the load flag is fixed from the two loads and no listener is registered (also lines 68) |
| `OpenXRPluginKt.OpenXRPlugin.GetPluginName` | android/src/main/java/org/godotengine/plugin/vr/openxr/OpenXRPlugin.kt:70 | the plugin is named "OpenXR" |
| `OpenXRPluginKt.OpenXRPlugin.GetPluginGDNativeLibrariesPaths` | android/src/main/java/org/godotengine/plugin/vr/openxr/OpenXRPlugin.kt:72 | exactly one GDNative library path, addons/godot-openxr/config/godot_openxr.gdnlib |
| `OpenXRPluginKt.OpenXRPlugin.InvokeNativeWithDefault` | android/src/main/java/org/godotengine/plugin/vr/openxr/OpenXRPlugin.kt:111-117 | the body's value when the libraries loaded, the default otherwise |
| `OpenXRPluginKt.OpenXRPlugin.Guarded` | android/src/main/java/org/godotengine/plugin/vr/openxr/OpenXRPlugin.kt:105-109 | a guarded body runs once when the libraries loaded and not at all otherwise |
| `OpenXRPluginKt.OpenXRPlugin.OnGLSurfaceCreated` | android/src/main/java/org/godotengine/plugin/vr/openxr/OpenXRPlugin.kt:74-79 | initializeWrapper is called directly, once, exactly when the libraries loaded |
| `OpenXRPluginKt.OpenXRPlugin.OnMainDestroy` | android/src/main/java/org/godotengine/plugin/vr/openxr/OpenXRPlugin.kt:81-88 | uninitializeWrapper is posted to the render thread, once, exactly when the libraries loaded |
| `OpenXRPluginKt.OpenXRPlugin.RegisterEventListener` | android/src/main/java/org/godotengine/plugin/vr/openxr/OpenXRPlugin.kt:90-92 | the listener is appended to the queue |
| `OpenXRPluginKt.OpenXRPlugin.UnregisterEventListener` | android/src/main/java/org/godotengine/plugin/vr/openxr/OpenXRPlugin.kt:94-96 | the first occurrence of the listener is removed, so its multiplicity drops by one |
| `OpenXRPluginKt.OpenXRPlugin.Notify` | android/src/main/java/org/godotengine/plugin/vr/openxr/OpenXRPlugin.kt:98-103 | every registered listener is called once per registration, in queue order, with the event |
| `OpenXRPluginKt.RegisterThenUnregister` | android/src/main/java/org/godotengine/plugin/vr/openxr/OpenXRPlugin.kt:90-96 | registering and then unregistering a listener restores the multiset of listeners, and the queue itself when the listener was new |
| `OpenXRPluginKt.NotifiedOncePerRegistration` | android/src/main/java/org/godotengine/plugin/vr/openxr/OpenXRPlugin.kt:98-103 | each listener receives an event as many times as it is registered |
| `BillBoardRendererCpp.ToTriangleIndex` | thirdparty/oculus_mobile_sdk/SampleCommon/Src/Render/BillBoardRenderer.cpp:124-133 | the `static_cast<TriangleIndex>` of an index keeps it below 2^16 and leaves smaller values unchanged |
| `BillBoardRendererCpp.IndexBufferAt` | thirdparty/oculus_mobile_sdk/SampleCommon/Src/Render/BillBoardRenderer.cpp:123-133 | entry 6q+k of the index buffer is corner k of quad q, 4q + {0,1,3,0,3,2}[k], truncated to 16 bits |
| `BillBoardRendererCpp.IndicesAddressVertices` | thirdparty/oculus_mobile_sdk/SampleCommon/Src/Render/BillBoardRenderer.cpp:113-133 | up to 16384 quads, every index of the buffer addresses one of the 4·MaxBillBoards vertices |
| `BillBoardRendererCpp.QuadCoversItsVertices` | thirdparty/oculus_mobile_sdk/SampleCommon/Src/Render/BillBoardRenderer.cpp:124-133 | the two triangles of quad q use exactly its four vertices 4q..4q+3 |
| `BillBoardRendererCpp.IndexWrapsPast16384Quads` | thirdparty/oculus_mobile_sdk/SampleCommon/Src/Render/BillBoardRenderer.cpp:124-133 | with more than 16384 quads the 16-bit cast wraps, so quad 16384 reuses vertex 0 |
| `BillBoardRendererCpp.ListsAreDisjoint` | thirdparty/oculus_mobile_sdk/SampleCommon/Src/Render/BillBoardRenderer.cpp:163-196 | under the pool invariant every allocated handle is in exactly one of the active and free lists, once (also lines 343-358) |
| `BillBoardRendererCpp.RemovedIsCulled` | thirdparty/oculus_mobile_sdk/SampleCommon/Src/Render/BillBoardRenderer.cpp:259-265 | the marking of RemoveBillBoard (start time -1, lifetime -1) is culled by the next frame whenever the display time exceeds -2 s (also lines 350) |
| `BillBoardRendererCpp.BillBoardRenderer.constructor` | thirdparty/oculus_mobile_sdk/SampleCommon/Src/Render/BillBoardRenderer.cpp:84 | a fresh renderer has no capacity and empty lists |
| `BillBoardRendererCpp.BillBoardRenderer.Shutdown` | thirdparty/oculus_mobile_sdk/SampleCommon/Src/Render/BillBoardRenderer.cpp:150-159 | the geometry is released and the free, active and info lists are emptied, MaxBillBoards 0 |
| `BillBoardRendererCpp.BillBoardRenderer.Init` | thirdparty/oculus_mobile_sdk/SampleCommon/Src/Render/BillBoardRenderer.cpp:94-146 | after a shutdown, an empty pool of maxBillBoards with the fixed index buffer and nothing drawn |
| `BillBoardRendererCpp.BillBoardRenderer.BuildIndexBuffer` | thirdparty/oculus_mobile_sdk/SampleCommon/Src/Render/BillBoardRenderer.cpp:122-133 | the loop of Init produces exactly the index buffer IndexBuffer(n) |
| `BillBoardRendererCpp.BillBoardRenderer.WriteQuad` | thirdparty/oculus_mobile_sdk/SampleCommon/Src/Render/BillBoardRenderer.cpp:124-132 | one iteration writes the six indices of quad i and leaves the earlier quads alone |
| `BillBoardRendererCpp.BillBoardRenderer.Allocate` | thirdparty/oculus_mobile_sdk/SampleCommon/Src/Render/BillBoardRenderer.cpp:172-191 | the most recently freed handle is reused first, else the info count while under MaxBillBoards and 65535, else nothing changes; a new handle is appended to the active list and its info restarted; the pool invariant is kept |
| `BillBoardRendererCpp.BillBoardRenderer.UpdateInternal` | thirdparty/oculus_mobile_sdk/SampleCommon/Src/Render/BillBoardRenderer.cpp:269-302 | a valid handle's entry records the handle, a start time of now and the lifetime; nothing else changes |
| `BillBoardRendererCpp.BillBoardRenderer.AddBillBoard` | thirdparty/oculus_mobile_sdk/SampleCommon/Src/Render/BillBoardRenderer.cpp:163-196 | the atlas overload allocates as above and returns the handle only for an infinite lifetime, the invalid handle otherwise |
| `BillBoardRendererCpp.BillBoardRenderer.AddBillBoardInfinite` | thirdparty/oculus_mobile_sdk/SampleCommon/Src/Render/BillBoardRenderer.cpp:200-229 | the plain overload allocates with an infinite lifetime and returns the handle |
| `BillBoardRendererCpp.BillBoardRenderer.UpdateBillBoard` | thirdparty/oculus_mobile_sdk/SampleCommon/Src/Render/BillBoardRenderer.cpp:233-257 | both overloads restart the billboard now with an infinite lifetime |
| `BillBoardRendererCpp.BillBoardRenderer.RemoveBillBoard` | thirdparty/oculus_mobile_sdk/SampleCommon/Src/Render/BillBoardRenderer.cpp:259-265 | an invalid or out-of-range handle changes nothing; otherwise only its start time and lifetime become -1 |
| `BillBoardRendererCpp.BillBoardRenderer.Frame` | thirdparty/oculus_mobile_sdk/SampleCommon/Src/Render/BillBoardRenderer.cpp:320-391 | the sweep moves exactly the expired active entries to the free list with their info handle invalidated, and the index count becomes 6 × the surviving active entries |
| `BillBoardRendererCpp.BillBoardRenderer.Sweep` | thirdparty/oculus_mobile_sdk/SampleCommon/Src/Render/BillBoardRenderer.cpp:342-386 | the swap-remove loop performs the sweep described by Swept and counts one quad per survivor |
| `BillBoardRendererCpp.SweptKeepsExactlySurvivors` | thirdparty/oculus_mobile_sdk/SampleCommon/Src/Render/BillBoardRenderer.cpp:342-358 | after a sweep the active list holds, up to order, exactly the old active entries that survive, and the newly freed entries are exactly the rest |
| `BillBoardRendererCpp.SweepCull` | thirdparty/oculus_mobile_sdk/SampleCommon/Src/Render/BillBoardRenderer.cpp:350-356 | culling one entry moves it to the free list, invalidates its handle and keeps the loop invariant at the same position |
| `BillBoardRendererCpp.SweepDone` | thirdparty/oculus_mobile_sdk/SampleCommon/Src/Render/BillBoardRenderer.cpp:342-358 | the finished loop leaves a partition of the handles and a state described by Swept |
| `BillBoardRendererCpp.RefusedOnlyWhenFull` | thirdparty/oculus_mobile_sdk/SampleCommon/Src/Render/BillBoardRenderer.cpp:175-184 | on a valid pool the invalid handle is returned exactly when every allocated handle is active and one of the two caps is reached |
| `BillBoardRendererCpp.ReuseKeepsPool` | thirdparty/oculus_mobile_sdk/SampleCommon/Src/Render/BillBoardRenderer.cpp:175-177 | reusing the last free handle keeps the pool invariant (also lines 190) |
| `BillBoardRendererCpp.GrowKeepsPool` | thirdparty/oculus_mobile_sdk/SampleCommon/Src/Render/BillBoardRenderer.cpp:178-184 | allocating the next handle under both caps keeps the pool invariant (also lines 190) |
| `XrCompositorNativeActivity.EglErrorNames` | thirdparty/oculus_mobile_sdk/XrSamples/XrCompositor_NativeActivity/Src/XrCompositor_NativeActivity.c:155-190 | every one of the fifteen EGL error codes is named by its own name, and any value outside 0x3000..0x300E is "unknown" |
| `XrCompositorNativeActivity.EglErrorString` | thirdparty/oculus_mobile_sdk/XrSamples/XrCompositor_NativeActivity/Src/XrCompositor_NativeActivity.c:155-190 | the answer is the name the table gives the code, or "unknown" |
| `XrCompositorNativeActivity.GlFrameBufferStatusNames` | thirdparty/oculus_mobile_sdk/XrSamples/XrCompositor_NativeActivity/Src/XrCompositor_NativeActivity.c:192-207 | each of the five incomplete-framebuffer statuses gets its own name; every other value is "unknown" |
| `XrCompositorNativeActivity.GlFrameBufferStatusString` | thirdparty/oculus_mobile_sdk/XrSamples/XrCompositor_NativeActivity/Src/XrCompositor_NativeActivity.c:192-207 | the answer is the name the table gives the status, or "unknown" |
| `Bytes.ToInt32` | thirdparty/oculus_mobile_sdk/XrSamples/XrCompositor_NativeActivity/Src/XrCompositor_NativeActivity.c:1300-1307 | an `unsigned int` header field stored in an `int` keeps its value modulo 2^32 and lies in the 32-bit signed range |
| `XrCompositorNativeActivity.TargetFor` | thirdparty/oculus_mobile_sdk/XrSamples/XrCompositor_NativeActivity/Src/XrCompositor_NativeActivity.c:1313-1320 | 3D exactly when depth > 1; a cube map (array) exactly when depth <= 1 and faces > 1; an array target exactly when depth <= 1 and layers > 1 |
| `XrCompositorNativeActivity.LoadImageDataFromKtxFile` | thirdparty/oculus_mobile_sdk/XrSamples/XrCompositor_NativeActivity/Src/XrCompositor_NativeActivity.c:1227-1323 | accepted iff the asset opens, holds a 64-byte header with the KTX identifier, little-endian order, `GL_UNSIGNED_BYTE` and key/value data ending inside the buffer; then data starts after the key/value data, faces and layers are at least 1, sizes are stored, the target follows the shape, and the data range lies in the buffer |
| `XrCompositorNativeActivity.ShortOrForeignFileRejected` | thirdparty/oculus_mobile_sdk/XrSamples/XrCompositor_NativeActivity/Src/XrCompositor_NativeActivity.c:1259-1282 | a buffer shorter than the header, or with any other identifier, is refused |
| `XrCompositorNativeActivity.MipDim` | thirdparty/oculus_mobile_sdk/XrSamples/XrCompositor_NativeActivity/Src/XrCompositor_NativeActivity.c:1334-1336 | a mip dimension is at least 1, and level 0 of a positive dimension is the dimension itself |
| `XrCompositorNativeActivity.MipChainHalves` | thirdparty/oculus_mobile_sdk/XrSamples/XrCompositor_NativeActivity/Src/XrCompositor_NativeActivity.c:1334-1336 | each level's dimension is half the previous one's, clamped to 1 |
| `XrCompositorNativeActivity.BytesPerTexel` | thirdparty/oculus_mobile_sdk/XrSamples/XrCompositor_NativeActivity/Src/XrCompositor_NativeActivity.c:1340-1369 | R8, RG8, RGB8 and RGBA8 give 1..4 bytes per texel and every other format gives 0, which the walk refuses |
| `XrCompositorNativeActivity.Pad` | thirdparty/oculus_mobile_sdk/XrSamples/XrCompositor_NativeActivity/Src/XrCompositor_NativeActivity.c:1430 | the padding is at most 3 bytes and rounds the image size up to a multiple of 4 |
| `XrCompositorNativeActivity.UploadImages` | thirdparty/oculus_mobile_sdk/XrSamples/XrCompositor_NativeActivity/Src/XrCompositor_NativeActivity.c:1384-1436 | every image read is non-empty and lies between the level start and the end of the buffer; with stored sizes each starts 4-aligned; on success one image per face was uploaded, each with the level's dimensions |
| `XrCompositorNativeActivity.TexelBytesOfLevel` | thirdparty/oculus_mobile_sdk/XrSamples/XrCompositor_NativeActivity/Src/XrCompositor_NativeActivity.c:1342-1371 | one image of a level is a `size_t` value, and zero for any format other than R8, RG8, RGB8 and RGBA8 |
| `XrCompositorNativeActivity.LevelProduct` | thirdparty/oculus_mobile_sdk/XrSamples/XrCompositor_NativeActivity/Src/XrCompositor_NativeActivity.c:1366 | the `int` product `w * h * d * k` converted to `size_t` is zero exactly when the true product is a multiple of 2^32, and equals the true product when that is below 2^31 |
| `XrCompositorNativeActivity.TexelBytesOfLevelWraps` | thirdparty/oculus_mobile_sdk/XrSamples/XrCompositor_NativeActivity/Src/XrCompositor_NativeActivity.c:1342-1376 | a level's image size is zero exactly when the true size is a multiple of 2^32 (or the format is unsupported), and is the true size whenever that fits in an `int` |
| `XrCompositorNativeActivity.WrappedRgba8LevelIsEmpty` | thirdparty/oculus_mobile_sdk/XrSamples/XrCompositor_NativeActivity/Src/XrCompositor_NativeActivity.c:1364-1376 | a 32768 x 32768 RGBA8 level wraps to size 0, so the loader refuses it as an unsupported format |
| `XrCompositorNativeActivity.Int32Mul` | thirdparty/oculus_mobile_sdk/XrSamples/XrCompositor_NativeActivity/Src/XrCompositor_NativeActivity.c:1348 | a C `int` product is a 32-bit signed value congruent to the true product modulo 2^32 |
| `XrCompositorNativeActivity.SizeT` | thirdparty/oculus_mobile_sdk/XrSamples/XrCompositor_NativeActivity/Src/XrCompositor_NativeActivity.c:1342 | a conversion to `size_t` is a value below 2^64 congruent to its argument |
| `XrCompositorNativeActivity.ArrayLevelSize` | thirdparty/oculus_mobile_sdk/XrSamples/XrCompositor_NativeActivity/Src/XrCompositor_NativeActivity.c:1378-1380 | a level that is not an array texture keeps the single image size; an array level is the `size_t` product of image size, elements and faces, modulo 2^64 |
| `XrCompositorNativeActivity.LoadLevel` | thirdparty/oculus_mobile_sdk/XrSamples/XrCompositor_NativeActivity/Src/XrCompositor_NativeActivity.c:1334-1486 | an unsupported format, or a level size that wrapped to 0, fails before any read; the stored size is read only when four bytes remain; the level's images lie in the buffer, 4-aligned relative to the data start, and carry the level's mip dimensions |
| `XrCompositorNativeActivity.LoadTextureFromKtxImageMemory` | thirdparty/oculus_mobile_sdk/XrSamples/XrCompositor_NativeActivity/Src/XrCompositor_NativeActivity.c:1325-1500 | no info fails and no data succeeds with nothing uploaded; otherwise every read lies between the data start and the buffer end, stored-size images are 4-aligned, an unsupported format or a first level whose size wrapped to 0 fails with no upload, any level whose size wrapped to 0 makes the load fail, success uploads UploadsPerLevel images for each level, each with its level's dimensions |
| `XrCompositorNativeActivity.WalkLevels` | thirdparty/oculus_mobile_sdk/XrSamples/XrCompositor_NativeActivity/Src/XrCompositor_NativeActivity.c:1336-1497 | the mip-level loop reads only between the data start and the buffer end, keeps stored-size images 4-aligned, fails when any level's size is 0 (with no upload when it is the first), and on success uploads UploadsPerLevel images for every level |
| `XrCompositorNativeActivity.AppendLevel` | thirdparty/oculus_mobile_sdk/XrSamples/XrCompositor_NativeActivity/Src/XrCompositor_NativeActivity.c:1336-1490 | one level's images are appended after the earlier ones, inside the buffer and aligned; a level of size 0 fails and appends nothing |
| `XrCompositorNativeActivity.InRangeAppend` | thirdparty/oculus_mobile_sdk/XrSamples/XrCompositor_NativeActivity/Src/XrCompositor_NativeActivity.c:1333-1491 | the levels' read ranges chain: reads in [lo, mid) followed by reads in [mid, hi) all lie in [lo, hi) |
| `XrCompositorNativeActivity.DisplayRefreshRates.RequestNext` | thirdparty/oculus_mobile_sdk/XrSamples/XrCompositor_NativeActivity/Src/XrCompositor_NativeActivity.c:3700-3705 | the requested rate is the supported rate at the counter modulo the rate count, and the counter advances by one with `uint32_t` wrap-around |
| `XrCompositorNativeActivity.DisplayRefreshRates.SetSupported` | thirdparty/oculus_mobile_sdk/XrSamples/XrCompositor_NativeActivity/Src/XrCompositor_NativeActivity.c:3103-3112 | the enumerated rates replace the list; the counter is untouched |
| `XrCompositorNativeActivity.DisplayRefreshRates.constructor` | thirdparty/oculus_mobile_sdk/XrSamples/XrCompositor_NativeActivity/Src/XrCompositor_NativeActivity.c:2281-2283 | no rates and a zero counter |
| `XrCompositorNativeActivity.RequestsCycle` | thirdparty/oculus_mobile_sdk/XrSamples/XrCompositor_NativeActivity/Src/XrCompositor_NativeActivity.c:3700-3701 | until the counter wraps, successive requests step through the rates in order and restart after the last |
| `NativeAppLifecycle.AppLifecycle.constructor` | thirdparty/oculus_mobile_sdk/SampleXrFramework/Src/XrApp.h:196-207 | no window, not resumed, not focused, no session; the CPU and GPU levels as given |
| `NativeAppLifecycle.AppLifecycle.PollTimeout` | thirdparty/oculus_mobile_sdk/SampleXrFramework/Src/XrApp.cpp:1304-1305 | the poll blocks (-1) exactly when the activity is paused, no session runs and no destroy was requested, else returns at once (0) |
| `NativeAppLifecycle.AppLifecycle.HandleAndroidCmd` | thirdparty/oculus_mobile_sdk/SampleXrFramework/Src/XrApp.cpp:95-141 | RESUME sets and PAUSE clears Resumed; INIT_WINDOW takes the window; TERM_WINDOW and DESTROY drop it; nothing else changes (the compositor's copy is XrCompositor_NativeActivity.c:2493-2541, the passthrough sample's XrPassthrough.cpp:481-530) |
| `NativeAppLifecycle.AppLifecycle.HandleSessionStateChanges` | thirdparty/oculus_mobile_sdk/SampleXrFramework/Src/XrApp.cpp:143-228 | at READY the session is active iff begin answered `XR_SUCCESS`, and only then are the levels requested, mapped by FromSampleLevel; at STOPPING it is inactive; the source's asserts are the preconditions (copies: XrCompositor_NativeActivity.c:2308-2394, XrPassthrough.cpp:314-399) |
| `NativeAppLifecycle.AppLifecycle.HandleSessionStateChangedEvent` | thirdparty/oculus_mobile_sdk/SampleXrFramework/Src/XrApp.cpp:270-289 | FOCUSED sets and VISIBLE clears Focused, READY and STOPPING go to the session handler, other states change nothing (copy: XrCompositor_NativeActivity.c:2451-2473) |
| `XrPerfSettingsLevel.FromSampleLevel` | thirdparty/oculus_mobile_sdk/XrSamples/XrCompositor_NativeActivity/Src/XrCompositor_NativeActivity.c:2327-2363 | sample levels 0..3 select the level of that rank, any other value keeps SUSTAINED_HIGH |
| `XrPerfSettingsLevel.SampleLevelRoundTrip` | thirdparty/oculus_mobile_sdk/XrSamples/XrPassthrough/Src/XrPassthrough.cpp:332-368 | every performance level is selected by its own sample level, and the enumerant values increase with the sample level |
| `XrAppFramework.ButtonMask` | thirdparty/oculus_mobile_sdk/SampleXrFramework/Src/XrApp.cpp:1105-1140 | each button bit is set exactly when its button is pressed, trigger and grip bits when either hand's trigger passes 0.1, and no other bit |
| `XrAppFramework.TouchMask` | thirdparty/oculus_mobile_sdk/SampleXrFramework/Src/XrApp.cpp:1144-1160 | each touch bit is set exactly when its control is touched, and no other bit |
| `XrAppFramework.XrApp.SyncButtons` | thirdparty/oculus_mobile_sdk/SampleXrFramework/Src/XrApp.cpp:1112-1162 | the frame gets the previous frame's masks as its last-frame masks and this frame's masks; the class keeps this frame's masks for the next |
| `XrAppFramework.XrApp.constructor` | thirdparty/oculus_mobile_sdk/SampleXrFramework/Src/XrApp.h:447-448 | both remembered masks start at 0 |
| `XrAppFramework.ClickedIsRelease` | thirdparty/oculus_mobile_sdk/SampleXrFramework/Src/XrApp.cpp:1106-1162 | across two synced frames, Clicked on a button is exactly its release, Touched exactly the end of a touch, and the joystick bit never clicks |
| `XrPassthroughSample.CDiv` | thirdparty/oculus_mobile_sdk/XrSamples/XrPassthrough/Src/XrPassthrough.cpp:1205 | C division truncates toward zero |
| `XrPassthroughSample.CRem` | thirdparty/oculus_mobile_sdk/XrSamples/XrPassthrough/Src/XrPassthrough.cpp:1205 | C remainder: dividend = quotient * divisor + remainder, with the remainder's sign following the dividend |
| `XrPassthroughSample.ModesInRange` | thirdparty/oculus_mobile_sdk/XrSamples/XrPassthrough/Src/XrPassthrough.cpp:1052-1062 | from effective frame -1 on, both formulas give one of the six modes |
| `XrPassthroughSample.ModeOf` | thirdparty/oculus_mobile_sdk/XrSamples/XrPassthrough/Src/XrPassthrough.cpp:1205 | from frame 0 on, the mode is the frame divided by 400, modulo 6, and from frame -1 on it is one of the six modes |
| `XrPassthroughSample.PrevModeOf` | thirdparty/oculus_mobile_sdk/XrSamples/XrPassthrough/Src/XrPassthrough.cpp:1201-1204 | from frame -1 on, the previous mode is the frame shifted by a whole cycle less one, divided by 400, modulo 6, and one of the six modes |
| `XrPassthroughSample.PrevModeIsPreviousFrame` | thirdparty/oculus_mobile_sdk/XrSamples/XrPassthrough/Src/XrPassthrough.cpp:1201-1204 | prevMode is the mode of the previous effective frame, and Stopped (5) at frame 0 |
| `XrPassthroughSample.ModeChangesEvery400` | thirdparty/oculus_mobile_sdk/XrSamples/XrPassthrough/Src/XrPassthrough.cpp:1201-1207 | on frames from 0 on, the mode differs from prevMode exactly on multiples of 400 |
| `XrPassthroughSample.FrameMinusOne` | thirdparty/oculus_mobile_sdk/XrSamples/XrPassthrough/Src/XrPassthrough.cpp:1201-1205 | at effective frame -1 truncating division reports a change from Stopped to Basic |
| `XrPassthroughSample.ModeCycle.Frame` | thirdparty/oculus_mobile_sdk/XrSamples/XrPassthrough/Src/XrPassthrough.cpp:1066-1108 | without a session both counters reset; otherwise the frame counts, a press flips the pause, a paused frame keeps the effective frame and an unpaused one advances it, and the modes are those of the effective frame |
| `XrPassthroughSample.ModeCycle.constructor` | thirdparty/oculus_mobile_sdk/XrSamples/XrPassthrough/Src/XrPassthrough.cpp:1048-1050 | frame -1, nothing paused |
| XrKeyboardHelperH.Oxr | thirdparty/oculus_mobile_sdk/XrSamples/XrKeyboard/Src/xr_helper.h:47-56 | true exactly when the wrapped `XrResult` is a success (non-negative) |
| XrKeyboardHelperH.CreateAcceptedAsWritten | thirdparty/oculus_mobile_sdk/XrSamples/XrKeyboard/Src/xr_keyboard_helper.h:170-171 | as written, `XR_SUCCEEDED(oxr(...))` accepts every creation result |
| XrKeyboardHelperH.FailedCreateAcceptedAsWritten | thirdparty/oculus_mobile_sdk/XrSamples/XrKeyboard/Src/xr_keyboard_helper.h:170-171 | a failing result (-1) is still treated as a successful creation |
| XrKeyboardHelperH.CreateAccepted | thirdparty/oculus_mobile_sdk/XrSamples/XrKeyboard/Src/xr_keyboard_helper.h:170-171 | corrected test: accepted iff the creation call succeeded |
| XrKeyboardHelperH.XrKeyboardHelper.constructor | thirdparty/oculus_mobile_sdk/XrSamples/XrKeyboard/Src/xr_keyboard_helper.h:15-30 | initial flags: track the system keyboard, require a connection, local keyboard, tracking not required, nothing known, no space; establishes `Valid` (also lines 290-308) |
| XrKeyboardHelperH.XrKeyboardHelper.IsLocationActive | thirdparty/oculus_mobile_sdk/XrSamples/XrKeyboard/Src/xr_keyboard_helper.h:141-151 | true whenever tracking is not required; otherwise iff a space exists and any tracked/valid location bit is set |
| XrKeyboardHelperH.XrKeyboardHelper.SessionInit | thirdparty/oculus_mobile_sdk/XrSamples/XrKeyboard/Src/xr_keyboard_helper.h:38-41 | stores the session and succeeds |
| XrKeyboardHelperH.XrKeyboardHelper.SessionEnd | thirdparty/oculus_mobile_sdk/XrSamples/XrKeyboard/Src/xr_keyboard_helper.h:43-46 | clears the session and returns the result of stopping tracking |
| XrKeyboardHelperH.XrKeyboardHelper.StopTracking | thirdparty/oculus_mobile_sdk/XrSamples/XrKeyboard/Src/xr_keyboard_helper.h:181-192 | with no space: false and nothing changes; otherwise true iff the destroy succeeded, and only then the space is nulled |
| XrKeyboardHelperH.XrKeyboardHelper.StartTrackingSystemKeyboard | thirdparty/oculus_mobile_sdk/XrSamples/XrKeyboard/Src/xr_keyboard_helper.h:165-179 | stops first; true iff the create function exists, a keyboard exists and creation succeeded (corrected), then the new space and size are stored |
| XrKeyboardHelperH.XrKeyboardHelper.ResetSystemKeyboardTracking | thirdparty/oculus_mobile_sdk/XrSamples/XrKeyboard/Src/xr_keyboard_helper.h:153-163 | always sets the changed flag; tracking afterwards iff asked to track, a keyboard exists, connected or not required, and creation succeeded; keeps `Valid` |
| XrKeyboardHelperH.XrKeyboardHelper.SetTracksSystemKeyboard | thirdparty/oculus_mobile_sdk/XrSamples/XrKeyboard/Src/xr_keyboard_helper.h:202-209 | returns true iff the value differs, then stores it and resets tracking; an equal value changes nothing |
| XrKeyboardHelperH.XrKeyboardHelper.SetRequireKeyboardConnectedToTrack | thirdparty/oculus_mobile_sdk/XrSamples/XrKeyboard/Src/xr_keyboard_helper.h:215-222 | same change-only rule, followed by a tracking reset |
| XrKeyboardHelperH.XrKeyboardHelper.SetUseRemoteKeyboard | thirdparty/oculus_mobile_sdk/XrSamples/XrKeyboard/Src/xr_keyboard_helper.h:228-244 | change-only; a change forgets an existing keyboard (stops its tracking when tracking is on) and reports the change; no reset |
| XrKeyboardHelperH.XrKeyboardHelper.SetTrackingRequired | thirdparty/oculus_mobile_sdk/XrSamples/XrKeyboard/Src/xr_keyboard_helper.h:250-257 | same change-only rule, followed by a tracking reset |
| XrKeyboardHelperH.XrKeyboardHelper.GetAndClearSystemKeyboardStateChanged | thirdparty/oculus_mobile_sdk/XrSamples/XrKeyboard/Src/xr_keyboard_helper.h:275-281 | returns the previous flag and leaves it false |
| XrKeyboardHelperH.XrKeyboardHelper.OnKeyboardFound | thirdparty/oculus_mobile_sdk/XrSamples/XrKeyboard/Src/xr_keyboard_helper.h:61-105 | an unchanged description changes nothing; a new one is stored with its connected bit and reported; for the queried keyboard type, tracking iff asked, connected or not required, and creation succeeded |
| XrKeyboardHelperH.XrKeyboardHelper.OnKeyboardMissing | thirdparty/oculus_mobile_sdk/XrSamples/XrKeyboard/Src/xr_keyboard_helper.h:106-115 | a keyboard known so far is forgotten, its tracking dropped and the change reported; otherwise nothing changes |
| XrKeyboardHelperH.XrKeyboardHelper.Update | thirdparty/oculus_mobile_sdk/XrSamples/XrKeyboard/Src/xr_keyboard_helper.h:48-125 | without the query function or with a failed query the keyboard state is unchanged; otherwise existence follows the exists bit; false only when locating an existing space fails |
| `SceneModelXr.DigitValue` | thirdparty/oculus_mobile_sdk/XrSamples/XrSceneModel/Src/SceneModelXr.cpp:111-115 | an accepted digit's value is below 16 and is its position in 0123456789ABCDEF |
| `SceneModelXr.DigitOfHexDigit` | thirdparty/oculus_mobile_sdk/XrSamples/XrSceneModel/Src/SceneModelXr.cpp:96 | the character written for a nibble is accepted and decodes back to that nibble (also lines 111-115) |
| `SceneModelXr.HexPair` | thirdparty/oculus_mobile_sdk/XrSamples/XrSceneModel/Src/SceneModelXr.cpp:98-100 | each byte becomes two accepted digits |
| `SceneModelXr.HexOf` | thirdparty/oculus_mobile_sdk/XrSamples/XrSceneModel/Src/SceneModelXr.cpp:93-103 | the hex string is twice as long as the bytes |
| `SceneModelXr.PairValue` | thirdparty/oculus_mobile_sdk/XrSamples/XrSceneModel/Src/SceneModelXr.cpp:109-120 | the byte assembled from two digits has the first as its high nibble and the second as its low nibble |
| `SceneModelXr.DecodePairs` | thirdparty/oculus_mobile_sdk/XrSamples/XrSceneModel/Src/SceneModelXr.cpp:107-121 | one byte per pair of digits |
| `SceneModelXr.DecodeHex` | thirdparty/oculus_mobile_sdk/XrSamples/XrSceneModel/Src/SceneModelXr.cpp:105-122 | decoding succeeds exactly when the string is twice the size long and holds only 0-9 and A-F; it then yields size bytes |
| `SceneModelXr.HexOfAppend` | thirdparty/oculus_mobile_sdk/XrSamples/XrSceneModel/Src/SceneModelXr.cpp:97-101 | appending a byte appends its two digits |
| `SceneModelXr.DecodePairsAppend` | thirdparty/oculus_mobile_sdk/XrSamples/XrSceneModel/Src/SceneModelXr.cpp:107-121 | appending two digits appends the byte they encode |
| `SceneModelXr.Bin2Hex` | thirdparty/oculus_mobile_sdk/XrSamples/XrSceneModel/Src/SceneModelXr.cpp:93-103 | the loop's output is the hex string of all the bytes |
| `SceneModelXr.Hex2Bin` | thirdparty/oculus_mobile_sdk/XrSamples/XrSceneModel/Src/SceneModelXr.cpp:105-122 | the loop fills the bytes of the decoding, and hits an assertion exactly where the decoding fails |
| `SceneModelXr.UuidToHexString` | thirdparty/oculus_mobile_sdk/XrSamples/XrSceneModel/Src/SceneModelXr.cpp:124-126 | a UUID becomes 32 hex characters, its bytes' pairs in order |
| `SceneModelXr.HexStringToUuid` | thirdparty/oculus_mobile_sdk/XrSamples/XrSceneModel/Src/SceneModelXr.cpp:128-130 | a UUID comes back exactly when the 32-character decoding succeeds, and it is that decoding |
| `SceneModelXr.HexOfAt` | thirdparty/oculus_mobile_sdk/XrSamples/XrSceneModel/Src/SceneModelXr.cpp:97-101 | characters 2i and 2i+1 are the high and low nibble digits of byte i |
| `SceneModelXr.HexOfCharset` | thirdparty/oculus_mobile_sdk/XrSamples/XrSceneModel/Src/SceneModelXr.cpp:96-101 | only 0-9 and A-F are written |
| `SceneModelXr.HexRoundTrip` | thirdparty/oculus_mobile_sdk/XrSamples/XrSceneModel/Src/SceneModelXr.cpp:93-122 | decoding the hex string of some bytes gives those bytes back |
| `SceneModelXr.DecodeOfHexOf` | thirdparty/oculus_mobile_sdk/XrSamples/XrSceneModel/Src/SceneModelXr.cpp:93-122 | the pairwise decoding inverts the encoding |
| `SceneModelXr.HexRoundTripBack` | thirdparty/oculus_mobile_sdk/XrSamples/XrSceneModel/Src/SceneModelXr.cpp:93-122 | encoding an accepted string's bytes gives back the same string |
| `SceneModelXr.HexOfDecode` | thirdparty/oculus_mobile_sdk/XrSamples/XrSceneModel/Src/SceneModelXr.cpp:93-122 | the encoding inverts the pairwise decoding |
| `SceneModelXr.LowerCaseRejected` | thirdparty/oculus_mobile_sdk/XrSamples/XrSceneModel/Src/SceneModelXr.cpp:111-118 | lower-case digits are not accepted |
| `SceneModelXr.IsValid` | thirdparty/oculus_mobile_sdk/XrSamples/XrSceneModel/Src/SceneModelXr.cpp:132-139 | a UUID is valid exactly when one of its 16 bytes is nonzero |
| `SceneModelXr.FirstLabel` | thirdparty/oculus_mobile_sdk/XrSamples/XrSceneModel/Src/SceneModelXr.cpp:158-159 | the first label is a comma-free prefix of the list, followed by a comma or by the end |
| `SceneModelXr.GetColorForSemanticLabels` | thirdparty/oculus_mobile_sdk/XrSamples/XrSceneModel/Src/SceneModelXr.cpp:141-165 | an empty list gives the default colour; every answer is the default or a colour from the table |
| `SceneModelXr.ColorOfFirstLabel` | thirdparty/oculus_mobile_sdk/XrSamples/XrSceneModel/Src/SceneModelXr.cpp:151-165 | the first label alone decides the colour: a known one gets its table entry, an unknown one the default |
| `SceneModelXr.FirstLabelOf` | thirdparty/oculus_mobile_sdk/XrSamples/XrSceneModel/Src/SceneModelXr.cpp:159 | a comma-free name followed by nothing or by a comma is the first label |
| `SceneModelXr.ModeToInt` | thirdparty/oculus_mobile_sdk/XrSamples/XrSceneModel/Src/SceneModelXr.cpp:466-470 | each mode's number is below Count |
| `SceneModelXr.ModeFromInt` | thirdparty/oculus_mobile_sdk/XrSamples/XrSceneModel/Src/SceneModelXr.cpp:466-470 | each number below Count names the mode that carries it |
| `SceneModelXr.CycleToggles` | thirdparty/oculus_mobile_sdk/XrSamples/XrSceneModel/Src/SceneModelXr.cpp:1121-1124 | cycling switches BoundingBox and Boundary, so cycling twice restores the mode |
| `SceneModelXr.CycleScenePlaneRenderingMode` | thirdparty/oculus_mobile_sdk/XrSamples/XrSceneModel/Src/SceneModelXr.cpp:1121-1124 | the cycled mode always differs from the current one |
| `SceneModelXr.FollowUp` | thirdparty/oculus_mobile_sdk/XrSamples/XrSceneModel/Src/SceneModelXr.cpp:1703-1720 | only the room-layout query leaves another query pending after it starts |
| `SceneModelXr.Schedule` | thirdparty/oculus_mobile_sdk/XrSamples/XrSceneModel/Src/SceneModelXr.cpp:1703-1722 | with nothing pending or a query outstanding the state is kept; otherwise the follow-up is pending and the app waits exactly when the query was issued (also lines 1013-1088) |
| `SceneModelXr.QueryCompleted` | thirdparty/oculus_mobile_sdk/XrSamples/XrSceneModel/Src/SceneModelXr.cpp:925-928 | the completion event marks the query complete and changes nothing else |
| `SceneModelXr.RoomLayoutChainsToByUuids` | thirdparty/oculus_mobile_sdk/XrSamples/XrSceneModel/Src/SceneModelXr.cpp:1703-1722 | the room-layout query chains to a by-UUID query, which finds nothing to wait for exactly when no UUID was collected (also lines 1053-1057) |
| `SceneModelXr.ScheduleDrains` | thirdparty/oculus_mobile_sdk/XrSamples/XrSceneModel/Src/SceneModelXr.cpp:1703-1722 | two passes, each after a completion, leave nothing pending (also lines 925-928) |
| `SceneModelXr.NoQueryWhileOutstanding` | thirdparty/oculus_mobile_sdk/XrSamples/XrSceneModel/Src/SceneModelXr.cpp:1703 | no query starts while one is outstanding |
| `SceneModelXr.SceneApp.constructor` | thirdparty/oculus_mobile_sdk/XrSamples/XrSceneModel/Src/SceneModelXr.cpp:462-473 | nothing pending, query complete, no clear requested, the room query enabled, the Boundary mode, no planes, volumes or UUIDs, levels 2 (also lines 488-519) |
| `SceneModelXr.SceneApp.Clear` | thirdparty/oculus_mobile_sdk/XrSamples/XrSceneModel/Src/SceneModelXr.cpp:488-519 | levels 2, nothing pending, the query complete, no clear requested; the scene, UUIDs and mode kept |
| `SceneModelXr.SceneApp.OnSpaceQueryComplete` | thirdparty/oculus_mobile_sdk/XrSamples/XrSceneModel/Src/SceneModelXr.cpp:925-928 | the scheduler state becomes the completion of the old one; nothing else changes |
| `SceneModelXr.SceneApp.CyclePlaneRenderingMode` | thirdparty/oculus_mobile_sdk/XrSamples/XrSceneModel/Src/SceneModelXr.cpp:1121-1129 | the mode becomes the cycled mode; nothing else changes |
| `SceneModelXr.SceneApp.ClearSceneIfRequested` | thirdparty/oculus_mobile_sdk/XrSamples/XrSceneModel/Src/SceneModelXr.cpp:1682-1701 | a requested clear empties the planes, volumes and UUIDs and marks the query complete; otherwise nothing changes |
| `SceneModelXr.SceneApp.StartNextQuery` | thirdparty/oculus_mobile_sdk/XrSamples/XrSceneModel/Src/SceneModelXr.cpp:1703-1722 | a query starts exactly when one is pending and none outstanding, and the scheduler state becomes the schedule of the old one |
| `SceneModelXr.SceneApp.HandleButtons` | thirdparty/oculus_mobile_sdk/XrSamples/XrSceneModel/Src/SceneModelXr.cpp:1774-1803 | any button requests a clear; the last button pressed in A, B, X, Y order decides the next query; A enables and Y disables the room query |
| `SceneModelXr.ButtonPressStartsQuery` | thirdparty/oculus_mobile_sdk/XrSamples/XrSceneModel/Src/SceneModelXr.cpp:1682-1722 | after a button press and the clear that follows it the named query starts, whatever was outstanding (also lines 1774-1803) |
| `SceneModelGl.ToUShort` | thirdparty/oculus_mobile_sdk/XrSamples/XrSceneModel/Src/SceneModelGl.cpp:364-371 | a pushed index lands in 0..65535 and is kept unchanged when it already fits |
| `SceneModelGl.VolumeIndicesShape` | thirdparty/oculus_mobile_sdk/XrSamples/XrSceneModel/Src/SceneModelGl.cpp:413-420 | the box list holds 36 indices, all below 8, and uses every corner |
| `SceneModelGl.StageIndicesShape` | thirdparty/oculus_mobile_sdk/XrSamples/XrSceneModel/Src/SceneModelGl.cpp:317 | the stage list holds 6 indices, all below 4 |
| `SceneModelGl.Fan` | thirdparty/oculus_mobile_sdk/XrSamples/XrSceneModel/Src/SceneModelGl.cpp:367-371 | t triangles give 3t indices |
| `SceneModelGl.TriangleFan` | thirdparty/oculus_mobile_sdk/XrSamples/XrSceneModel/Src/SceneModelGl.cpp:365-371 | n vertices give 3(n-2) indices |
| `SceneModelGl.FanAt` | thirdparty/oculus_mobile_sdk/XrSamples/XrSceneModel/Src/SceneModelGl.cpp:367-371 | triangle i is (0, i+1, i+2), each reduced to an unsigned short |
| `SceneModelGl.TriangleFanShape` | thirdparty/oculus_mobile_sdk/XrSamples/XrSceneModel/Src/SceneModelGl.cpp:364-371 | up to 65536 vertices, triangle i is (0, i+1, i+2), every index names one of the vertices and every vertex is used |
| `SceneModelGl.TriangleFanWraps` | thirdparty/oculus_mobile_sdk/XrSamples/XrSceneModel/Src/SceneModelGl.cpp:364-371 | with 65538 vertices the unsigned short index of vertex 65536 wraps to vertex 0 |
| `SceneModelGl.BuildFanIndices` | thirdparty/oculus_mobile_sdk/XrSamples/XrSceneModel/Src/SceneModelGl.cpp:364-372 | the loop builds exactly the fan over the vertices |
| `SceneModelGl.Geometry.constructor` | thirdparty/oculus_mobile_sdk/XrSamples/XrSceneModel/Src/SceneModelGl.h:57-65 | no buffer, vertex array or renderable flag, every attribute index -1, no indices |
| `SceneModelGl.Geometry.Clear` | thirdparty/oculus_mobile_sdk/XrSamples/XrSceneModel/Src/SceneModelGl.cpp:221-231 | names zeroed, every attribute index -1, not renderable; the index list kept |
| `SceneModelGl.Geometry.CreateIndexBuffer` | thirdparty/oculus_mobile_sdk/XrSamples/XrSceneModel/Src/SceneModelGl.cpp:237-249 | an index buffer is generated only when none is held; the list is uploaded and its length recorded |
| `SceneModelGl.Geometry.CreateVAO` | thirdparty/oculus_mobile_sdk/XrSamples/XrSceneModel/Src/SceneModelGl.cpp:437-461 | a vertex array is generated only when none is held; nothing else changes |
| `SceneModelGl.Geometry.DestroyVAO` | thirdparty/oculus_mobile_sdk/XrSamples/XrSceneModel/Src/SceneModelGl.cpp:463-465 | the deleted vertex array's name stays in the field |
| `SceneModelGl.Geometry.CreateStage` | thirdparty/oculus_mobile_sdk/XrSamples/XrSceneModel/Src/SceneModelGl.cpp:301-321 | a newly generated vertex buffer, the stage list, renderable, the position attribute set and the vertex array kept |
| `SceneModelGl.Geometry.CreatePlane` | thirdparty/oculus_mobile_sdk/XrSamples/XrSceneModel/Src/SceneModelGl.cpp:323-377 | fewer than three vertices: not renderable and nothing else touched; otherwise the fan uploaded, missing names generated, position and colour attributes set, renderable |
| `SceneModelGl.Geometry.CreateVolume` | thirdparty/oculus_mobile_sdk/XrSamples/XrSceneModel/Src/SceneModelGl.cpp:379-425 | a newly generated vertex buffer, the box list, the vertex array created, position and colour attributes set, renderable |
| `SceneModelGl.Geometry.Destroy` | thirdparty/oculus_mobile_sdk/XrSamples/XrSceneModel/Src/SceneModelGl.cpp:427-435 | after deleting the buffers the geometry is cleared |
| `SceneModelGl.Plane.constructor` | thirdparty/oculus_mobile_sdk/XrSamples/XrSceneModel/Src/SceneModelGl.cpp:751 | a new plane has no pose (also thirdparty/oculus_mobile_sdk/XrSamples/XrSceneModel/Src/SceneModelGl.h:110 and 130) |
| `SceneModelGl.Plane.SetPose` | thirdparty/oculus_mobile_sdk/XrSamples/XrSceneModel/Src/SceneModelGl.cpp:777-780 | the pose is set, so the plane is renderable exactly when its geometry is (also thirdparty/oculus_mobile_sdk/XrSamples/XrSceneModel/Src/SceneModelGl.h:120-122) |
| `SceneModelGl.Scene.constructor` | thirdparty/oculus_mobile_sdk/XrSamples/XrSceneModel/Src/SceneModelGl.cpp:826-829 | a cleared scene has no vertex arrays created |
| `SceneModelGl.Scene.CreateVAOs` | thirdparty/oculus_mobile_sdk/XrSamples/XrSceneModel/Src/SceneModelGl.cpp:852-861 | the stage and axes arrays are created exactly when the flag was clear; the flag is then set |
| `SceneModelGl.Scene.DestroyVAOs` | thirdparty/oculus_mobile_sdk/XrSamples/XrSceneModel/Src/SceneModelGl.cpp:863-870 | the arrays are destroyed exactly when the flag was set; the flag is then clear |
| `SceneModelSimpleXrInput.SyncCountAfter` | thirdparty/oculus_mobile_sdk/XrSamples/XrSceneModel/Src/SimpleXrInput.cpp:154-171 | BeginSession sets a reset count to 1 and keeps any other, SyncActions adds one modulo 2^32, EndSession resets the count (also lines 185-201) |
| `SceneModelSimpleXrInput.Run` | thirdparty/oculus_mobile_sdk/XrSamples/XrSceneModel/Src/SimpleXrInput.cpp:154-201 | a run of calls creates the action spaces at most once per call |
| `SceneModelSimpleXrInput.Syncs` | thirdparty/oculus_mobile_sdk/XrSamples/XrSceneModel/Src/SimpleXrInput.cpp:185-201 | k syncs are k SyncActions calls |
| `SceneModelSimpleXrInput.SyncsAfterFirst` | thirdparty/oculus_mobile_sdk/XrSamples/XrSceneModel/Src/SimpleXrInput.cpp:185-201 | syncing k times from a count of at least 2 creates no spaces and adds k to the count |
| `SceneModelSimpleXrInput.SpacesCreatedOncePerSession` | thirdparty/oculus_mobile_sdk/XrSamples/XrSceneModel/Src/SimpleXrInput.cpp:154-201 | a session begun on a reset count and synced k times creates the four action spaces exactly once and leaves the count at k+1 |
| `SceneModelSimpleXrInput.BeginOnlyAfterReset` | thirdparty/oculus_mobile_sdk/XrSamples/XrSceneModel/Src/SimpleXrInput.cpp:154-171 | BeginSession is refused on a nonzero count, and after EndSession it succeeds |
| `SceneModelSimpleXrInput.IsJoyStickMoved` | thirdparty/oculus_mobile_sdk/XrSamples/XrSceneModel/Src/SimpleXrInput.cpp:173-183 | a move is reported exactly on the rising edge, and the stored state becomes the input |
| `SceneModelSimpleXrInput.Track` | thirdparty/oculus_mobile_sdk/XrSamples/XrSceneModel/Src/SimpleXrInput.cpp:204-211 | a direction reports a move exactly when it was released and is now pushed past the threshold |
| `SceneModelSimpleXrInput.HeldDirectionReportsOnce` | thirdparty/oculus_mobile_sdk/XrSamples/XrSceneModel/Src/SimpleXrInput.cpp:173-183 | holding a direction for a second sync reports no second move (also lines 204-211) |
| `SceneModelSimpleXrInput.IsActionPressed` | thirdparty/oculus_mobile_sdk/XrSamples/XrSceneModel/Src/SimpleXrInput.cpp:226-235 | a button is pressed exactly when it changed since the last sync and is now down |
| `SceneModelSimpleXrInput.Observations` | thirdparty/oculus_mobile_sdk/XrSamples/XrSceneModel/Src/SimpleXrInput.cpp:226-229 | over successive syncs, each reported state is the button's state at that sync, marked changed exactly when it differs from the state at the sync before |
| `SceneModelSimpleXrInput.PressReportedOnRisingEdge` | thirdparty/oculus_mobile_sdk/XrSamples/XrSceneModel/Src/SimpleXrInput.cpp:226-229 | over successive syncs, a press is reported at a sync exactly when the button is down there and was up at the sync before |
| `SceneModelSimpleXrInput.HeldPressReportedOnce` | thirdparty/oculus_mobile_sdk/XrSamples/XrSceneModel/Src/SimpleXrInput.cpp:226-229 | a button pushed and then held is reported pressed once, at the sync where it went down, and at no later sync while it stays down |
| `SceneModelSimpleXrInput.SimpleXrInput.constructor` | thirdparty/oculus_mobile_sdk/XrSamples/XrSceneModel/Src/SimpleXrInput.cpp:65-72 | every stick flag false and the count reset (also lines 87-152) |
| `SceneModelSimpleXrInput.SimpleXrInput.BeginSession` | thirdparty/oculus_mobile_sdk/XrSamples/XrSceneModel/Src/SimpleXrInput.cpp:154-166 | the session is stored and the action set attached exactly on a reset count; the count becomes the modelled successor |
| `SceneModelSimpleXrInput.SimpleXrInput.EndSession` | thirdparty/oculus_mobile_sdk/XrSamples/XrSceneModel/Src/SimpleXrInput.cpp:168-171 | the count is reset and nothing else changes |
| `SceneModelSimpleXrInput.SimpleXrInput.SyncActions` | thirdparty/oculus_mobile_sdk/XrSamples/XrSceneModel/Src/SimpleXrInput.cpp:185-212 | the spaces are created exactly when the count is 1, the count advances modulo 2^32, and each stick direction goes through the edge detector |
| `SpatialAnchorSimpleXrInput.ButtonValue` | thirdparty/oculus_mobile_sdk/XrSamples/XrSpatialAnchor/Src/SimpleXrInput.cpp:188-202 | a button reads as down exactly when its current state is down |
| `SpatialAnchorSimpleXrInput.HeldButtonStaysDown` | thirdparty/oculus_mobile_sdk/XrSamples/XrSpatialAnchor/Src/SimpleXrInput.cpp:188-202 | a held button keeps reading down, where the scene-model sample's edge test reads it as not pressed |
| `SpatialAnchorSimpleXrInput.HeldButtonReadsDownEverySync` | thirdparty/oculus_mobile_sdk/XrSamples/XrSpatialAnchor/Src/SimpleXrInput.cpp:188-202 | a button held over successive syncs reads down at every one of them, whatever `changedSinceLastSync` says, where the scene-model sample's edge test reports it only at the first |
| `SpatialAnchorSimpleXrInput.SimpleXrInput.constructor` | thirdparty/oculus_mobile_sdk/XrSamples/XrSpatialAnchor/Src/SimpleXrInput.cpp:88-136 | the count reset, no session, no spaces created |
| `SpatialAnchorSimpleXrInput.SimpleXrInput.BeginSession` | thirdparty/oculus_mobile_sdk/XrSamples/XrSpatialAnchor/Src/SimpleXrInput.cpp:138-150 | the session is stored exactly on a reset count, and the count follows the scene-model sequencing |
| `SpatialAnchorSimpleXrInput.SimpleXrInput.EndSession` | thirdparty/oculus_mobile_sdk/XrSamples/XrSpatialAnchor/Src/SimpleXrInput.cpp:152-155 | the count is reset and nothing else changes |
| `SpatialAnchorSimpleXrInput.SimpleXrInput.SyncActions` | thirdparty/oculus_mobile_sdk/XrSamples/XrSpatialAnchor/Src/SimpleXrInput.cpp:157-174 | the spaces are created exactly when the count is 1, and the count advances modulo 2^32 |
| `SpatialAnchorXr.Bin2Hex` | thirdparty/oculus_mobile_sdk/XrSamples/XrSpatialAnchor/Src/SpatialAnchorXr.cpp:91-101 | the sample's own copy writes exactly the scene-model sample's hex encoding, so the round-trip lemmas there apply to it |
| `SpatialAnchorXr.CappedAppend` | thirdparty/oculus_mobile_sdk/XrSamples/XrSpatialAnchor/Src/SpatialAnchorXr.cpp:687-689 | below the cap of 20 the space is appended, at the cap the list is kept (also lines 773-775) |
| `SpatialAnchorXr.CappedAppendKeepsCap` | thirdparty/oculus_mobile_sdk/XrSamples/XrSpatialAnchor/Src/SpatialAnchorXr.cpp:687-689 | a guarded append never takes the list past 20 and never shortens it (also lines 54 and 773-775) |
| `SpatialAnchorXr.FallingEdgeIsRelease` | thirdparty/oculus_mobile_sdk/XrSamples/XrSpatialAnchor/Src/SpatialAnchorXr.cpp:1692-1707 | the button test fires exactly on a release, never on an unchanged value |
| `SpatialAnchorXr.AfterDestroy` | thirdparty/oculus_mobile_sdk/XrSamples/XrSpatialAnchor/Src/SpatialAnchorXr.cpp:972-992 | on an empty list nothing changes; otherwise the last anchor leaves the list, and it is recorded under the request id exactly when the erase call succeeded |
| `SpatialAnchorXr.AfterEraseComplete` | thirdparty/oculus_mobile_sdk/XrSamples/XrSpatialAnchor/Src/SpatialAnchorXr.cpp:820-831 | a successful event for a recorded request drops that request and hands its space to xrDestroySpace; any other event changes nothing |
| `SpatialAnchorXr.DestroyThenEraseComplete` | thirdparty/oculus_mobile_sdk/XrSamples/XrSpatialAnchor/Src/SpatialAnchorXr.cpp:972-992 | destroying the last anchor and receiving the erase completion for that request restores the map and destroys exactly that anchor (also lines 820-831) |
| `SpatialAnchorXr.FailedEraseForgetsAnchor` | thirdparty/oculus_mobile_sdk/XrSamples/XrSpatialAnchor/Src/SpatialAnchorXr.cpp:972-992 | when the erase call fails the anchor leaves the list and is never destroyed (also lines 820-831) |
| `SpatialAnchorXr.AnchorApp.constructor` | thirdparty/oculus_mobile_sdk/XrSamples/XrSpatialAnchor/Src/SpatialAnchorXr.cpp:472-501 | no anchors, no pending erases, a query requested, every button value false (also lines 1556-1561) |
| `SpatialAnchorXr.AnchorApp.DestroyAnchor` | thirdparty/oculus_mobile_sdk/XrSamples/XrSpatialAnchor/Src/SpatialAnchorXr.cpp:972-992 | the list and the erase map become AfterDestroy of the old ones |
| `SpatialAnchorXr.AnchorApp.PlaceAnchor` | thirdparty/oculus_mobile_sdk/XrSamples/XrSpatialAnchor/Src/SpatialAnchorXr.cpp:994-1023 | an anchor is requested exactly when there is input, a session, and fewer than 20 anchors |
| `SpatialAnchorXr.AnchorApp.OnLocatableStatusComplete` | thirdparty/oculus_mobile_sdk/XrSamples/XrSpatialAnchor/Src/SpatialAnchorXr.cpp:669-692 | a successful locatable status completion makes a capped append; otherwise nothing changes |
| `SpatialAnchorXr.AnchorApp.OnAnchorCreateComplete` | thirdparty/oculus_mobile_sdk/XrSamples/XrSpatialAnchor/Src/SpatialAnchorXr.cpp:693-698 | the created anchor is appended with no cap check |
| `SpatialAnchorXr.AnchorApp.OnQueryResult` | thirdparty/oculus_mobile_sdk/XrSamples/XrSpatialAnchor/Src/SpatialAnchorXr.cpp:729-800 | a query result whose locatable component was already set makes a capped append; otherwise nothing changes |
| `SpatialAnchorXr.AnchorApp.OnEraseComplete` | thirdparty/oculus_mobile_sdk/XrSamples/XrSpatialAnchor/Src/SpatialAnchorXr.cpp:820-831 | the map and the destroyed space are AfterEraseComplete of the old map |
| `SpatialAnchorXr.AnchorApp.QueryIfRequested` | thirdparty/oculus_mobile_sdk/XrSamples/XrSpatialAnchor/Src/SpatialAnchorXr.cpp:1606-1611 | a requested query empties the list and clears the request; otherwise nothing changes |
| `SpatialAnchorXr.AnchorApp.HandleButtons` | thirdparty/oculus_mobile_sdk/XrSamples/XrSpatialAnchor/Src/SpatialAnchorXr.cpp:1692-1708 | the stored values become this frame's; a release of A requests an anchor when PlaceAnchor allows it, a release of B destroys the last anchor, a release of X requests a query |

## Left out

- Foreign calls: every xr*, gl*, egl*, JNI, Godot and OpenHMD call is represented only by the answer it returns, passed in as a parameter. Its effect on the runtime, the GPU or the scene is not modelled.
- I/O and logging: `printf`, `Godot::print`, `__android_log_print`, asset opening and the formatting in `LogWithFilenameTag` are left out. `StripPath` is modelled; its caller's output is not.
- Concurrency: the Kotlin listener queue is a plain sequence. `runOnRenderThread` and thread ids are not modelled.
- Floating point: transforms, poses, projections, refresh rates and the billboard geometry are not computed. Only which reference frame or view a pose is taken from is modelled. Tracking confidence is not modelled.
- Memory: destructors, `malloc`/`free` pairing and `strcpy` buffer sizes are not modelled. UTF-8 is handled as bytes; there is no Unicode handling.
- The Godot scene (the nodes under a hand, a skeleton's bones) and Godot's singletons are passed in. The `Variant`→`Ref` conversions of the action resources are not modelled. `get_singleton` lazy creation is not modelled.
- `XRInterfaceOpenXR.cpp` is written against the Godot 4 `XRInterface`, whose capability values (MONO 1, STEREO 2, QUAD 4, VR 8, AR 16, EXTERNAL 32) are not part of this repository. The model assumes Godot 4's published values.
- `get_view_configuration_type` and `set_view_configuration_type` are declared in `src/openxr/OpenXRApi.h:309-310` but have no body. Their answer is passed in as an `Option<int>`.
- `get_render_target_size_multiplier` is called but not declared in `src/openxr/OpenXRApi.h`. Its answer is passed in, like the rest of `GdConfig.Defaulted`.
- The refresh-rate, foveation and passthrough wrappers are not part of this model: what they answer is passed in. `stop_passthrough`, `get_system_name`, `_get_render_target_size`, `_get_tracking_status`, `_get_name`, `_set_default_pos`, the `XRInterfaceOpenXR` constructor and its singleton look-ups are not modelled.
- `get_enabled_extensions` is passed in as a list.
- The `OpenXRConfig` and `XRInterfaceOpenXR` accessors are line-for-line the same. They are modelled once, as the `GdConfig` functions over the objects they read.
- The older `src/openxr/OpenXRPose.h` is out of date with its `.cpp`, and the older `src/openxr/OpenXRHand.h` declares an `is_active` that has no definition. The model follows the `.cpp` files.
- The older hand nodes read the tracker state of the OpenXR object, which its model does not hold. That state is passed in as a `LegacyHandNodes.TrackerStatus`. `HAND_LEFT`/`HAND_RIGHT` are the `Hands` values of `src/OpenXRApi.h:48-52`.
- `hand_trackers` is used by the newer OpenXR object but not declared in `src/openxr/OpenXRApi.h`. Its `get_hand_tracker` and motion-range accessors are modelled over the two trackers the code indexes.
- Hand-tracker joint poses and velocities are not modelled. Only whether each tracker is set up and active, and its motion range, are.
- `OpenXRCommon.XrResult`: a failing result is logged with its message by `xr_result`; only the boolean answer is modelled.
- `PoseLookup.CheckActionAndPath`: the action-set look-up is a map from set name to action names. When two sets share a name, the source takes the first and the model cannot tell them apart.
- `PoseLookup.CheckActionAndPath`: a failing `xrStringToPath` could still overwrite `_path` with whatever it wrote. The model leaves the cached path at the null path.
- `OpenXRActions.Action.GetAsPose`: `action.h` declares a different signature from `action.cpp`; the model follows `action.cpp`. `xrCreateActionSpace` and the getters after a failing `xrGetActionState` are represented by their answers.
- `OXRCalls.TransformFromRotPos`: only the zero-quaternion rejection is modelled, not the matrix it builds.
- `LegacyOpenXRApi.ChooseSwapchainFormat` requires a non-empty format list, because the source reads `formats[0]` without a check.
- `OpenXRApiCpp.ChooseSwapchainFormat` requires a non-empty format list: with no format and none preferred, the source reads `swapchainFormats[0]` past the end of an empty buffer (`src/openxr/OpenXRApi.cpp:1070-1071`), which has no defined result to model.
- `LegacyOpenXRApi.RenderOpenXR` models the guards and the layer count. It does not model the use-after-free of `swapchainLength` freed earlier in the same file.
- `OpenHMDInterface`: `ohmd_ctx_create`, the driver hints and `process_openhmd` are foreign and passed in. `JoystickButton` is not modelled.
- `ArvrInterfaceOpenXR` does not model the render-size and transform arithmetic of `src/ARVRInterface.c`, nor `set_default_pos` and `commit_for_eye` beyond the eye-to-view index.
- `ArvrInterfaceOpenXR`: `has_external_texture_support` is never initialised in the source; the model passes it in.
- `GodotCalls` models each extension pointer as the index of the extension entry it points at, not as a memory address.
- `GdActionResources.OpenXRActionSet.constructor`: the priority is never initialised in the source, so the model takes the initial priority as a parameter.
- `GdActionResources.OpenXRActionSet`: the members declared in `OpenXRActionSet.h` but never defined are not modelled.
- `GdActionResources.OpenXRInteractionProfile`: `_get_property_list`, `_get` and `_set` are commented out in the source (`OpenXRInteractionProfile.cpp:73-155`), so they are not modelled.
- `HandTrackingWrapper`: `on_session_destroyed` and `on_instance_destroyed` both run the clean-up; the model has one clean-up for both.
- `ColorSpaceWrapper.ColorSpaceExtensionWrapper.GetAvailableColorSpaces`: the buffer is sized with `sizeof` of a pointer per element rather than of an `XrColorSpaceFB`. A pointer is at least as wide as the 4-byte enum, so the buffer is larger than it needs to be. The model leaves the allocation out and builds the dictionary from the enumerated spaces.
- `OpenXRApiCpp.OpenXRApi.Initialize` stands for the whole initialisation sequence by one success flag.
- `OpenXRApiCpp` does not model the default JSON documents of action sets and interaction profiles; they are passed in.
- `BillBoardRendererCpp`: `TriangleIndex` is taken to be 16-bit unsigned, because `GlGeometry.h` is not part of this model.
- `SceneModelGl`: the GL calls and the vertex data are not modelled; the GL object names are passed in.
- `BillBoardRendererCpp.BillBoardRenderer.Init` requires a non-negative `maxBillBoards`: for a negative count the source's `resize(maxBillBoards * 4)` converts to a huge `size_t` and throws, and the model does not model C++ exceptions.
- `SceneModelGl.Geometry.constructor`: `IndexCount_` has no initialiser (`SceneModelGl.h:58`); the model starts it at 0.
- `XrCompositorNativeActivity.MipDim`: the source shifts `width >> i`, which is undefined in C for `i >= 32`; the model gives mip levels past 31 the clamped value 1.
- `XrCompositorNativeActivity.LevelProduct`: signed `int` overflow is undefined in C; the model takes the two's-complement wrap of the hardware multiply, and a 64-bit `size_t` (the arm64 build).
- `XrPassthroughSample.ModeCycle.Frame`: `frameCount` and `framesCyclePaused` are unbounded. The C `int` counters would overflow only after 2^31 frames, more than 200 days at 120 Hz, and signed overflow is undefined in C anyway.
- `SceneModelXr.SceneApp.CyclePlaneRenderingMode`: the geometry refresh of every plane after the toggle is not modelled.
- `SceneModelXr`: the `xrQuerySpacesFB` calls and `CollectRoomLayoutUuids` are not modelled; their outcomes are passed in.
- `SpatialAnchorXr`: the answers of the spatial-anchor runtime calls are passed in.
- `NativeAppLifecycle.AppLifecycle.HandleSessionStateChanges`: the source's asserts on the app state become the preconditions.
- The predicted display time and the session state are parameters wherever the source reads them from the runtime.

## Findings

| source | as written | input that shows it | evidently intended | confidence | as-written member | corrected member |
|---|---|---|---|---|---|---|
| thirdparty/oculus_mobile_sdk/XrSamples/XrKeyboard/Src/xr_keyboard_helper.h:170-171 | `XR_SUCCEEDED(oxr(xrCreateKeyboardSpaceFB_(session_, &createInfo, &keyboardSpace_)))` tests a `bool`, which is 0 or 1 and therefore never negative, so every creation counts as started | the creation call answers -1 (`XR_ERROR_VALIDATION_FAILURE`) | tracking starts only when the creation call succeeded | not executed | `XrKeyboardHelperH.CreateAcceptedAsWritten`, `XrKeyboardHelperH.FailedCreateAcceptedAsWritten` | `XrKeyboardHelperH.CreateAccepted` |
| src/openxr/OpenXRApi.cpp:542-545 | `isReferenceSpaceSupported` answers true when the count query fails | `xrEnumerateReferenceSpaces` count query answers an error, no space listed | false on every failure, as `isViewConfigSupported` answers | not executed | `OpenXRApiCpp.ReferenceSpaceSupportedAsWritten`, `OpenXRApiCpp.ReferenceSpaceCountFailureAnswersYes` | `OpenXRApiCpp.IsReferenceSpaceSupported` |
| src/OpenXRApi.cpp:793-797 | after `xrSuggestInteractionProfileBindings` the code re-tests the earlier `xrStringToPath` result and drops the suggestion's own result (the same in src/OXRCalls.c:373-376) | path look-up succeeds, suggestion answers `XR_ERROR_VALIDATION_FAILURE` | report failure when the suggestion fails | not executed | `OpenXRCommon.SuggestActionsAnswerAsWritten`, `OpenXRCommon.SuggestFailureReportedAsSuccess` | `OpenXRCommon.SuggestActionsAnswer`, `OpenXRCommon.SuggestActions` |
| src/OpenXRApi.cpp:24-42 | a new singleton's `use_count` is never set (src/OpenXRApi.h:64), so the first get leaves whatever the storage held; `openxr_get_data` in src/OXRCalls.c:44-55 leaves the count of its `godot_alloc` block unset in the same way | the storage holds 2: one get and one release leave the object alive | a new object starts with one user, as `src/openxr/OpenXRApi.h` initialises it | not executed | `LegacyOpenXRApi.AfterGetAsWritten`, `LegacyOpenXRApi.StaleCountOutlivesRelease` | `OpenXRCommon.AfterGet` |
| src/openxr/actions/action.cpp:293-306 | `do_haptic_pulse` fills duration and frequency but never assigns `amplitude` | a pulse with amplitude 0.5 over storage holding 0.0 | the vibration carries the requested amplitude | not executed | `OpenXRActions.HapticPulseAsWritten`, `OpenXRActions.HapticAmplitudeIgnored` | `OpenXRActions.HapticPulse`, `OpenXRActions.Action.DoHapticPulse` |
