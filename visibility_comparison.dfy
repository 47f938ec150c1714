/** The two palm-menu controllers side by side. They hide after the same
    idle time in every case but one: an idle time exactly equal to the
    delay hides the gesture-driven menu (`>=`) and not the polled one (`>`). */
module VisibilityComparison {
  import opened FrameTime
  import PalmMenu
  import PalmController

  lemma {:induction false} ExactDelayHidesOnlyTheGestureMenu(
    m: PalmMenu.MenuState, c: PalmController.Visibility, dts: seq<real>, hideDelay: real)
    requires hideDelay > 0.0 && NonNegative(dts) && Sum(dts) == hideDelay
    requires c.isUIVisible && c.hideTimer == 0.0
    ensures !PalmMenu.Run(m, [PalmMenu.GestureSelected, PalmMenu.GestureUnselected] + PalmMenu.Frames(dts), hideDelay).uiActive
    ensures PalmController.Run(c, PalmController.IdleFrames(dts), hideDelay).isUIVisible
  {
    var events := [PalmMenu.GestureSelected, PalmMenu.GestureUnselected] + PalmMenu.Frames(dts);
    var released := PalmMenu.HideTimerStarted(PalmMenu.Shown(m));
    assert events[0] == PalmMenu.GestureSelected && events[1..][0] == PalmMenu.GestureUnselected;
    assert events[1..][1..] == PalmMenu.Frames(dts);
    assert PalmMenu.Run(m, events, hideDelay) == PalmMenu.Run(released, PalmMenu.Frames(dts), hideDelay);
    PalmMenu.HidesOnceDelayReached(released, dts, hideDelay);
    PalmController.HidesOnlyAfterDelayPassed(c, dts, hideDelay);
  }

  /** Otherwise they agree: after a release, idle time below the delay keeps
      both menus up and idle time past it hides both. */
  lemma {:induction false} AgreeAwayFromTheDelay(
    m: PalmMenu.MenuState, c: PalmController.Visibility, dts: seq<real>, hideDelay: real)
    requires hideDelay > 0.0 && NonNegative(dts) && Sum(dts) != hideDelay
    requires c.isUIVisible && c.hideTimer == 0.0
    ensures PalmMenu.Run(m, [PalmMenu.GestureSelected, PalmMenu.GestureUnselected] + PalmMenu.Frames(dts), hideDelay).uiActive
        == PalmController.Run(c, PalmController.IdleFrames(dts), hideDelay).isUIVisible
  {
    var events := [PalmMenu.GestureSelected, PalmMenu.GestureUnselected] + PalmMenu.Frames(dts);
    var released := PalmMenu.HideTimerStarted(PalmMenu.Shown(m));
    assert events[0] == PalmMenu.GestureSelected && events[1..][0] == PalmMenu.GestureUnselected;
    assert events[1..][1..] == PalmMenu.Frames(dts);
    assert PalmMenu.Run(m, events, hideDelay) == PalmMenu.Run(released, PalmMenu.Frames(dts), hideDelay);
    PalmMenu.HidesOnceDelayReached(released, dts, hideDelay);
    PalmController.HidesOnlyAfterDelayPassed(c, dts, hideDelay);
  }

  /** With each component's default delay, an idle time between 1.0 s and
      1.5 s has already hidden the polled menu but not the gesture menu. */
  lemma DefaultDelaysDiffer(m: PalmMenu.MenuState, c: PalmController.Visibility, dts: seq<real>)
    requires NonNegative(dts) && PalmController.DefaultHideDelay < Sum(dts) < PalmMenu.DefaultHideDelay
    requires c.isUIVisible && c.hideTimer == 0.0
    ensures PalmMenu.Run(m, [PalmMenu.GestureSelected, PalmMenu.GestureUnselected] + PalmMenu.Frames(dts),
                         PalmMenu.DefaultHideDelay).uiActive
    ensures !PalmController.Run(c, PalmController.IdleFrames(dts), PalmController.DefaultHideDelay).isUIVisible
  {
    var events := [PalmMenu.GestureSelected, PalmMenu.GestureUnselected] + PalmMenu.Frames(dts);
    var released := PalmMenu.HideTimerStarted(PalmMenu.Shown(m));
    assert events[0] == PalmMenu.GestureSelected && events[1..][0] == PalmMenu.GestureUnselected;
    assert events[1..][1..] == PalmMenu.Frames(dts);
    assert PalmMenu.Run(m, events, PalmMenu.DefaultHideDelay)
        == PalmMenu.Run(released, PalmMenu.Frames(dts), PalmMenu.DefaultHideDelay);
    PalmMenu.HidesOnceDelayReached(released, dts, PalmMenu.DefaultHideDelay);
    PalmController.HidesOnlyAfterDelayPassed(c, dts, PalmController.DefaultHideDelay);
  }
}
