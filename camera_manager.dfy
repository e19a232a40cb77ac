/**
 * The camera manager: a selector over camera profiles.
 *
 * One profile is the default. Entering a profile makes it the current one
 * (the last entry wins; nothing is stacked); exiting a profile falls back to
 * the default, but only when the exited profile is the current one. Every
 * frame the camera takes the x and y of the current profile's position and
 * its orthographic size, keeping its own z.
 *
 * Profiles are compared by identity only. Their position and size are read
 * from the engine each time they are needed, so they are passed in as a
 * function `views` from profile to what the profile shows at that moment.
 */
module CameraProfiles {

  /** The identity of a profile object. */
  type ProfileId = nat

  datatype Option<T> = None | Some(value: T)

  datatype Vec3 = Vec3(x: real, y: real, z: real)

  /** What a profile shows at the moment it is read: its position and camera size. */
  datatype ProfileView = ProfileView(position: Vec3, cameraSize: real)

  /** The managed camera's position and orthographic size. */
  datatype CameraView = CameraView(position: Vec3, orthographicSize: real)

  /** The manager's state; `current` is unset until the default profile is installed. */
  datatype Manager = Manager(defaultProfile: ProfileId, current: Option<ProfileId>, camera: CameraView)

  /** The camera frames the view: same x, y and size (z is the camera's own). */
  predicate Frames(camera: CameraView, view: ProfileView) {
    camera.position.x == view.position.x
    && camera.position.y == view.position.y
    && camera.orthographicSize == view.cameraSize
  }

  /** The camera moved in the plane to `position`, keeping its depth and size. */
  function WithPosition(camera: CameraView, position: Vec3): (r: CameraView)
    ensures r.position.x == position.x && r.position.y == position.y
    ensures r.position.z == camera.position.z
    ensures r.orthographicSize == camera.orthographicSize
  {
    camera.(position := Vec3(position.x, position.y, camera.position.z))
  }

  /** The camera with a new orthographic size, position kept. */
  function WithSize(camera: CameraView, size: real): (r: CameraView)
    ensures r.position == camera.position
    ensures r.orthographicSize == size
  {
    camera.(orthographicSize := size)
  }

  /** The camera after taking a profile's position and then its size. */
  function Showing(camera: CameraView, view: ProfileView): (r: CameraView)
    ensures Frames(r, view)
    ensures r.position.z == camera.position.z
  {
    WithSize(WithPosition(camera, view.position), view.cameraSize)
  }

  function Entered(st: Manager, p: ProfileId): (r: Manager)
    ensures r.current == Some(p)
    ensures r.defaultProfile == st.defaultProfile && r.camera == st.camera
  {
    st.(current := Some(p))
  }

  function Exited(st: Manager, p: ProfileId): (r: Manager)
    ensures st.current != Some(p) ==> r == st
    ensures st.current == Some(p) ==> r.current == Some(st.defaultProfile)
    ensures r.defaultProfile == st.defaultProfile && r.camera == st.camera
  {
    if st.current != Some(p) then st else st.(current := Some(st.defaultProfile))
  }

  function InitializedToDefault(st: Manager, views: ProfileId -> ProfileView): (r: Manager)
    ensures r.current == Some(st.defaultProfile)
    ensures Frames(r.camera, views(st.defaultProfile))
    ensures r.defaultProfile == st.defaultProfile && r.camera.position.z == st.camera.position.z
  {
    var installed := st.(current := Some(st.defaultProfile));
    installed.(camera := Showing(installed.camera, views(installed.current.value)))
  }

  /** One frame: the camera follows the current profile. */
  function Updated(st: Manager, views: ProfileId -> ProfileView): (r: Manager)
    requires st.current.Some?
    ensures Frames(r.camera, views(st.current.value))
    ensures r.current == st.current && r.defaultProfile == st.defaultProfile
    ensures r.camera.position.z == st.camera.position.z
  {
    st.(camera := Showing(st.camera, views(st.current.value)))
  }

  // ---------------------------------------------------------------------------
  // Properties of the specification

  /** Only the last entry matters: entering twice is entering the second profile. */
  lemma LastEntryWins(st: Manager, p: ProfileId, q: ProfileId)
    ensures Entered(Entered(st, p), q) == Entered(st, q)
  {
  }

  /** Entering then exiting the same profile lands on the default, whatever came before. */
  lemma EnterThenExitGivesDefault(st: Manager, p: ProfileId)
    ensures Exited(Entered(st, p), p) == st.(current := Some(st.defaultProfile))
  {
  }

  /** Exiting a profile that was entered before another one was entered changes nothing. */
  lemma ExitOfSupersededProfileIsIgnored(st: Manager, p: ProfileId, q: ProfileId)
    requires p != q
    ensures Exited(Entered(Entered(st, p), q), p) == Entered(st, q)
  {
  }

  lemma ExitIsIdempotent(st: Manager, p: ProfileId)
    ensures Exited(Exited(st, p), p) == Exited(st, p)
  {
  }

  /** Exiting never leaves the manager without a profile once one was installed. */
  lemma ExitKeepsAProfile(st: Manager, p: ProfileId)
    requires st.current.Some?
    ensures Exited(st, p).current.Some?
  {
  }

  /** Two frames over unchanged profiles leave the camera where the first put it. */
  lemma UpdateIsIdempotent(st: Manager, views: ProfileId -> ProfileView)
    requires st.current.Some?
    ensures Updated(Updated(st, views), views) == Updated(st, views)
  {
  }

  /** After initialisation a frame over unchanged profiles moves nothing. */
  lemma UpdateAfterInitializationIsStill(st: Manager, views: ProfileId -> ProfileView)
    ensures Updated(InitializedToDefault(st, views), views) == InitializedToDefault(st, views)
  {
  }

  /** The camera only depends on the current profile's view, not on any other profile's. */
  lemma UpdateReadsOnlyCurrentProfile(st: Manager, views: ProfileId -> ProfileView, others: ProfileId -> ProfileView)
    requires st.current.Some?
    requires views(st.current.value) == others(st.current.value)
    ensures Updated(st, views) == Updated(st, others)
  {
  }

  // ---------------------------------------------------------------------------
  // The game object

  class CameraManager {
    const defaultProfile: ProfileId
    var current: Option<ProfileId>
    var camera: CameraView

    function State(): Manager
      reads this
    {
      Manager(defaultProfile, current, camera)
    }

    /** Before the start-up step no profile is current. */
    constructor (defaultProfile: ProfileId, camera: CameraView)
      ensures State() == Manager(defaultProfile, None, camera)
    {
      this.defaultProfile := defaultProfile;
      this.current := None;
      this.camera := camera;
    }

    /** One frame; the engine runs the start-up step first, so a profile is current. */
    method Update(views: ProfileId -> ProfileView)
      requires current.Some?
      modifies this`camera
      ensures State() == Updated(old(State()), views)
    {
      SetCameraPosition(views(current.value).position);
      SetCameraSize(views(current.value).cameraSize);
    }

    method EnterProfile(p: ProfileId)
      modifies this`current
      ensures State() == Entered(old(State()), p)
    {
      current := Some(p);
    }

    method ExitProfile(p: ProfileId)
      modifies this`current
      ensures State() == Exited(old(State()), p)
    {
      if current != Some(p) {
        return;
      }
      current := Some(defaultProfile);
    }

    method SetCameraPosition(position: Vec3)
      modifies this`camera
      ensures camera == WithPosition(old(camera), position)
    {
      var newCameraPosition := camera.position;
      newCameraPosition := newCameraPosition.(x := position.x);
      newCameraPosition := newCameraPosition.(y := position.y);
      camera := camera.(position := newCameraPosition);
    }

    method SetCameraSize(size: real)
      modifies this`camera
      ensures camera == WithSize(old(camera), size)
    {
      camera := camera.(orthographicSize := size);
    }

    /** The start-up step: install the default profile and show it at once. */
    method InitToDefaultProfile(views: ProfileId -> ProfileView)
      modifies this`current, this`camera
      ensures State() == InitializedToDefault(old(State()), views)
    {
      current := Some(defaultProfile);
      SetCameraPosition(views(current.value).position);
      SetCameraSize(views(current.value).cameraSize);
    }

    /** The engine's start-up hook, run once before the first frame. */
    method Start(views: ProfileId -> ProfileView)
      modifies this`current, this`camera
      ensures State() == InitializedToDefault(old(State()), views)
      ensures current.Some?
    {
      InitToDefaultProfile(views);
    }
  }
}
