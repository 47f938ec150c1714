/** The camera sub-app: two scene cameras, of which exactly the active one is
    enabled and renders into the shared render texture shown by the camera
    view. Photo capture (render-texture readback, PNG encoding, file writes)
    is not part of this model. */
module CameraApp {

  datatype CameraId = Back | Front

  /** The camera that `SwitchCamera` moves to from `c`. */
  function Other(c: CameraId): (o: CameraId)
    ensures o != c
    ensures c == Back <==> o == Front
  {
    if c == Back then Front else Back
  }

  /** Two switches lead back to the camera one started from. */
  lemma OtherInvolutive(c: CameraId)
    ensures Other(Other(c)) == c
  {
  }

  /** What the manager controls of one camera component: whether it is
      enabled, and whether its target texture is the shared render texture. */
  datatype CameraState = CameraState(enabled: bool, onTexture: bool)

  class CameraAppManager {
    var activeCamera: CameraId
    var back: CameraState
    var front: CameraState
    /** Active flag of the camera view's game object. */
    var viewActive: bool

    function Camera(c: CameraId): CameraState
      reads this
    {
      if c == Back then back else front
    }

    /** Exactly the active camera is enabled, and it renders into the shared
        texture. */
    ghost predicate Valid()
      reads this
    {
      && Camera(activeCamera).enabled
      && Camera(activeCamera).onTexture
      && !Camera(Other(activeCamera)).enabled
    }

    /** The scene's cameras and view start as the editor left them; `Start`
        selects the back camera. */
    constructor Start(back0: CameraState, front0: CameraState, viewActive0: bool)
      ensures Valid()
      ensures activeCamera == Back
      ensures back == CameraState(true, true)
      ensures front == CameraState(false, front0.onTexture)
      ensures viewActive == viewActive0
    {
      back, front, viewActive := back0, front0, viewActive0;
      activeCamera := Back;
      new;
      SetActiveCamera(Back);
    }

    method OpenCameraView()
      modifies this
      ensures viewActive
      ensures activeCamera == old(activeCamera) && back == old(back) && front == old(front)
    {
      viewActive := true;
    }

    method CloseCameraView()
      modifies this
      ensures !viewActive
      ensures activeCamera == old(activeCamera) && back == old(back) && front == old(front)
    {
      viewActive := false;
    }

    /** Disables both cameras, then enables `c` and points it at the shared
        texture. The other camera keeps whatever target texture it had. */
    method SetActiveCamera(c: CameraId)
      modifies this
      ensures Valid()
      ensures activeCamera == c
      ensures Camera(c) == CameraState(true, true)
      ensures Camera(Other(c)) == old(Camera(Other(c))).(enabled := false)
      ensures viewActive == old(viewActive)
    {
      back := back.(enabled := false);
      front := front.(enabled := false);
      activeCamera := c;
      if c == Back {
        back := back.(enabled := true, onTexture := true);
      } else {
        front := front.(enabled := true, onTexture := true);
      }
    }

    method SwitchCamera()
      modifies this
      ensures Valid()
      ensures activeCamera == Other(old(activeCamera))
      ensures Camera(activeCamera) == CameraState(true, true)
      ensures Camera(old(activeCamera)) == old(Camera(activeCamera)).(enabled := false)
      ensures viewActive == old(viewActive)
    {
      if activeCamera == Back {
        SetActiveCamera(Front);
      } else {
        SetActiveCamera(Back);
      }
    }
  }
}
