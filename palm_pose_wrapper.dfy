/**
  `src/openxr/extensions/xr_ext_palm_pose_extension_wrapper.cpp`: the
  wrapper of `XR_EXT_palm_pose` decides which binding paths the runtime
  can take. Only the two palm-pose paths depend on the extension.
 */
module PalmPoseWrapper {

  const LEFT_PALM_POSE: string := "/user/hand/left/input/palm_ext/pose"
  const RIGHT_PALM_POSE: string := "/user/hand/right/input/palm_ext/pose"

  /** `path_is_supported`, with `palmPoseExt` the extension's enabled flag. */
  function PathIsSupported(palmPoseExt: bool, ioPath: string): (supported: bool)
    ensures ioPath == LEFT_PALM_POSE || ioPath == RIGHT_PALM_POSE ==> supported == palmPoseExt
    ensures ioPath != LEFT_PALM_POSE && ioPath != RIGHT_PALM_POSE ==> supported
  {
    if ioPath == LEFT_PALM_POSE then palmPoseExt
    else if ioPath == RIGHT_PALM_POSE then palmPoseExt
    else true
  }

  /** With the extension enabled every path is supported; without it exactly the two palm paths are refused. */
  lemma PalmPathsOnlyNeedTheExtension(ioPath: string)
    ensures PathIsSupported(true, ioPath)
    ensures !PathIsSupported(false, ioPath) <==> ioPath in {LEFT_PALM_POSE, RIGHT_PALM_POSE}
  {
  }
}
