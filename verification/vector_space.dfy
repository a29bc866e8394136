/** The camera animator of the vector space: a view registry keyed by name, the
    animation record the component keeps between renders, the mount effect that places
    the camera, the view-change effect that starts a transition, and the per-frame step
    that interpolates the camera and ends the transition.

    The wall clock (`Date.now()`, in milliseconds) and the camera's view direction are
    inputs, and the easing curve is an arbitrary function: nothing is assumed about it. */
module VectorSpace {
  import opened Vectors

  /** A named camera placement: where the camera stands and the point it looks at. */
  datatype ViewPosition = ViewPosition(position: Vec3, target: Vec3, name: string, description: string)

  /** The camera pose: its position and the point it was last turned to look at. */
  datatype Camera = Camera(position: Vec3, lookAt: Vec3)

  /** The animation record. `startTime` is a wall-clock reading in milliseconds. */
  datatype Animation = Animation(
    startTime: int,
    startPosition: Vec3,
    startTarget: Vec3,
    endPosition: Vec3,
    endTarget: Vec3,
    isTransitioning: bool)

  /** What the component carries from one frame to the next. */
  datatype Animator = Animator(anim: Animation, camera: Camera)

  /** Length of a transition in seconds when the caller gives none. */
  const DefaultDuration: real := 1.5

  /** The animation record as first created: idle, everything at the origin. */
  const InitialAnimation: Animation := Animation(0, Zero, Zero, Zero, Zero, false)

  /** How far along the view direction the start of the look-at path is taken. */
  const LookAhead: real := 100.0

  /** The mount effect: a registered view places the camera at the view and turns it to
      the view's target; an unregistered name leaves the camera where it is. */
  function PlaceCamera(views: map<string, ViewPosition>, currentView: string, camera: Camera): (c: Camera)
    ensures currentView in views ==> c == Camera(views[currentView].position, views[currentView].target)
    ensures currentView !in views ==> c == camera
  {
    if currentView in views then Camera(views[currentView].position, views[currentView].target) else camera
  }

  /** The view-change effect at wall-clock time `now`, with the camera looking along
      `direction`. An unregistered name changes nothing. A registered one starts a
      transition from the camera's current pose, with the look-at path starting 100
      units ahead of the camera, towards the view. The camera itself does not move. */
  function SelectView(s: Animator, views: map<string, ViewPosition>, currentView: string, now: int, direction: Vec3): (r: Animator)
    ensures r.camera == s.camera
    ensures currentView !in views ==> r == s
    ensures currentView in views ==>
      r.anim.isTransitioning
      && r.anim.startTime == now
      && r.anim.startPosition == s.camera.position
      && r.anim.startTarget == Add(Scale(direction, LookAhead), s.camera.position)
      && r.anim.endPosition == views[currentView].position
      && r.anim.endTarget == views[currentView].target
  {
    if currentView !in views then s
    else
      var view := views[currentView];
      var anim := Animation(now, s.camera.position, Add(Scale(direction, LookAhead), s.camera.position),
                            view.position, view.target, true);
      Animator(anim, s.camera)
  }

  /** Seconds since the transition started. */
  function Elapsed(a: Animation, now: int): real {
    (now - a.startTime) as real / 1000.0
  }

  /** `Math.min(elapsed / duration, 1)`: capped at 1, reached exactly when the duration
      has passed, and otherwise the elapsed share of the duration, negative if the clock
      reads earlier than the start. */
  function Progress(elapsed: real, duration: real): (p: real)
    requires duration > 0.0
    ensures p <= 1.0
    ensures p == 1.0 <==> elapsed >= duration
    ensures p < 1.0 ==> p * duration == elapsed
    ensures elapsed < 0.0 ==> p < 0.0
    ensures elapsed >= 0.0 ==> p >= 0.0
  {
    var x := elapsed / duration;
    if x < 1.0 then x else 1.0
  }

  /** The camera pose at eased parameter `t` of a transition: both the position and the
      look-at point are interpolated between their start and end. */
  function Pose(a: Animation, t: real): Camera {
    Camera(Lerp(a.startPosition, a.endPosition, t), Lerp(a.startTarget, a.endTarget, t))
  }

  /** One frame at wall-clock time `now`. While idle nothing changes. While transitioning
      the camera is put at the pose for the eased progress, whatever its pose was, and the
      transition ends on the frame at which the whole duration has elapsed. */
  function Frame(s: Animator, now: int, duration: real, ease: real -> real): (r: Animator)
    requires duration > 0.0
    ensures !s.anim.isTransitioning ==> r == s
    ensures r.anim == s.anim.(isTransitioning := s.anim.isTransitioning && Elapsed(s.anim, now) < duration)
    ensures s.anim.isTransitioning ==> r.camera == Pose(s.anim, ease(Progress(Elapsed(s.anim, now), duration)))
  {
    if !s.anim.isTransitioning then s
    else
      var progress := Progress(Elapsed(s.anim, now), duration);
      var camera := Pose(s.anim, ease(progress));
      Animator(s.anim.(isTransitioning := progress != 1.0), camera)
  }

  /** Mounting the component runs both effects in declaration order: the camera is placed
      at the current view, and then a transition towards that same view starts, from
      the pose the camera was just given. On an unregistered view the camera and the
      idle record are left alone. */
  function Mount(views: map<string, ViewPosition>, currentView: string, camera: Camera, now: int, direction: Vec3): (r: Animator)
    ensures currentView !in views ==> r == Animator(InitialAnimation, camera)
    ensures currentView in views ==>
      r.camera == Camera(views[currentView].position, views[currentView].target)
      && r.anim.isTransitioning && r.anim.startTime == now
      && r.anim.startPosition == r.anim.endPosition == views[currentView].position
      && r.anim.endTarget == views[currentView].target
  {
    SelectView(Animator(InitialAnimation, PlaceCamera(views, currentView, camera)), views, currentView, now, direction)
  }

  /** Frames at the wall-clock times `times`, in order. */
  function RunFrames(s: Animator, times: seq<int>, duration: real, ease: real -> real): Animator
    requires duration > 0.0
    decreases |times|
  {
    if |times| == 0 then s else RunFrames(Frame(s, times[0], duration, ease), times[1..], duration, ease)
  }

  // ---------------------------------------------------------------------------
  // Properties

  /** Nothing moves before the first view change: the initial record is idle, and frames
      of an idle animator, however many, change nothing. */
  lemma InitialIsIdle(camera: Camera, times: seq<int>, ease: real -> real)
    ensures !InitialAnimation.isTransitioning
    ensures RunFrames(Animator(InitialAnimation, camera), times, DefaultDuration, ease) == Animator(InitialAnimation, camera)
  {
    RunFramesActive(Animator(InitialAnimation, camera), times, DefaultDuration, ease);
  }

  /** A run of frames changes nothing in the animation record but the flag, which stays
      set exactly while every frame came before the duration had elapsed; an idle
      animator is left entirely unchanged. */
  lemma {:induction false} RunFramesActive(s: Animator, times: seq<int>, duration: real, ease: real -> real)
    requires duration > 0.0
    ensures RunFrames(s, times, duration, ease).anim
      == s.anim.(isTransitioning := s.anim.isTransitioning
                   && forall i :: 0 <= i < |times| ==> Elapsed(s.anim, times[i]) < duration)
    ensures !s.anim.isTransitioning ==> RunFrames(s, times, duration, ease) == s
    decreases |times|
  {
    if |times| > 0 {
      var f := Frame(s, times[0], duration, ease);
      RunFramesActive(f, times[1..], duration, ease);
      assert forall i :: 0 <= i < |times[1..]| ==> times[1..][i] == times[i + 1];
      if s.anim.isTransitioning && Elapsed(s.anim, times[0]) < duration {
        assert (forall i :: 0 <= i < |times| ==> Elapsed(s.anim, times[i]) < duration)
          <==> (forall i :: 0 <= i < |times[1..]| ==> Elapsed(s.anim, times[1..][i]) < duration);
      }
    }
  }

  /** Once a frame comes at or after the end of the duration the transition is over, and
      the camera rests at the pose for ease(1); when the curve ends at 1 that is the
      view's position and target. Frames after that one change nothing. */
  lemma {:induction false} TransitionSettles(s: Animator, times: seq<int>, k: nat, duration: real, ease: real -> real)
    requires duration > 0.0 && s.anim.isTransitioning
    requires k < |times| && Elapsed(s.anim, times[k]) >= duration
    ensures RunFrames(s, times, duration, ease) == Animator(s.anim.(isTransitioning := false), Pose(s.anim, ease(1.0)))
    ensures ease(1.0) == 1.0 ==>
      RunFrames(s, times, duration, ease).camera == Camera(s.anim.endPosition, s.anim.endTarget)
    decreases |times|
  {
    var f := Frame(s, times[0], duration, ease);
    if Elapsed(s.anim, times[0]) >= duration {
      RunFramesActive(f, times[1..], duration, ease);
    } else {
      assert times[1..][k - 1] == times[k];
      TransitionSettles(f, times[1..], k - 1, duration, ease);
    }
  }

  /** The transition is still running on every frame before the duration has elapsed. */
  lemma StillRunningBeforeDuration(s: Animator, now: int, duration: real, ease: real -> real)
    requires duration > 0.0 && s.anim.isTransitioning
    ensures Frame(s, now, duration, ease).anim.isTransitioning <==> Elapsed(s.anim, now) < duration
    ensures Elapsed(s.anim, now) < duration ==> Progress(Elapsed(s.anim, now), duration) < 1.0
  {
  }

  /** A frame's camera depends only on the animation record and the clock, never on
      where the camera was before the frame. */
  lemma FrameOverwritesCamera(a: Animation, c1: Camera, c2: Camera, now: int, duration: real, ease: real -> real)
    requires duration > 0.0 && a.isTransitioning
    ensures Frame(Animator(a, c1), now, duration, ease) == Frame(Animator(a, c2), now, duration, ease)
  {
  }

  /** Selecting a view in the middle of a transition starts the new transition from the
      camera's interpolated pose, not from the old transition's start. */
  lemma RestartFromCurrentPose(s: Animator, t1: int, t2: int, views: map<string, ViewPosition>, currentView: string,
                               direction: Vec3, duration: real, ease: real -> real)
    requires duration > 0.0 && s.anim.isTransitioning && currentView in views
    ensures var r := SelectView(Frame(s, t1, duration, ease), views, currentView, t2, direction);
      r.anim.isTransitioning && r.anim.startTime == t2
      && r.anim.startPosition == Lerp(s.anim.startPosition, s.anim.endPosition,
                                      ease(Progress(Elapsed(s.anim, t1), duration)))
  {
  }

  /** After mounting on a registered view the camera already stands at the view, so the
      mount transition keeps the position fixed on every frame, whatever the easing. */
  lemma MountKeepsPosition(views: map<string, ViewPosition>, currentView: string, camera: Camera, now: int,
                           direction: Vec3, times: seq<int>, duration: real, ease: real -> real)
    requires currentView in views && duration > 0.0
    ensures Mount(views, currentView, camera, now, direction).anim.isTransitioning
    ensures RunFrames(Mount(views, currentView, camera, now, direction), times, duration, ease).camera.position
      == views[currentView].position
  {
    var m := Mount(views, currentView, camera, now, direction);
    assert m.anim.startPosition == m.anim.endPosition == views[currentView].position;
    FramesKeepPosition(m, times, duration, ease);
  }

  /** Frames of a transition whose start and end positions agree leave the camera
      position at that point, once it is there. */
  lemma {:induction false} FramesKeepPosition(s: Animator, times: seq<int>, duration: real, ease: real -> real)
    requires duration > 0.0
    requires s.anim.startPosition == s.anim.endPosition == s.camera.position
    ensures RunFrames(s, times, duration, ease).camera.position == s.camera.position
    decreases |times|
  {
    if |times| > 0 {
      FramesKeepPosition(Frame(s, times[0], duration, ease), times[1..], duration, ease);
    }
  }
}
