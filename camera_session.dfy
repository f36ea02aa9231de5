/** The live-view session of the first three layouts: the `selectedCamera`
    and `dialogOpen` state cells, `handleCameraClick`, the dialog's
    `onOpenChange`, and the mute state of the dialog, which lives as long as
    the dialog stays mounted (from the first selection on; the dialog has no
    `key`, so switching cameras keeps the same instance). */
module CameraSession {
  import opened Common
  import opened Fleet
  import opened LiveCameraDialog

  /** The session as a value: the selection, whether the dialog is open, and
      the mounted dialog's `isMuted` (absent while no dialog is mounted). */
  datatype Session = Session(selected: Option<Camera>, dialogOpen: bool, muted: Option<bool>)

  /** The dialog is mounted (`selectedCamera && <LiveCameraDialog/>`)
      exactly when a camera is selected, and only a mounted dialog can be
      open. */
  predicate Valid(s: Session) {
    (s.muted.Some? <==> s.selected.Some?) && (s.dialogOpen ==> s.selected.Some?)
  }

  /** `useState(null)` and `useState(false)`. */
  const Initial: Session := Session(None, false, None)

  datatype SessionEvent =
    | CameraClick(camera: Camera)  // a preview card's onClick
    | OpenChange(open: bool)        // the dialog's onOpenChange
    | MuteClick                     // the mute button inside the dialog

  /** One event. A dialog that is not mounted cannot report a change, and its
      mute button is only on screen while it is open; such events change
      nothing. */
  function Apply(s: Session, e: SessionEvent): (t: Session)
    ensures Valid(s) ==> Valid(t)
    ensures e.CameraClick? ==> t.selected == Some(e.camera) && t.dialogOpen
    ensures e.CameraClick? && s.muted.Some? ==> t.muted == s.muted
    ensures e.CameraClick? && s.muted.None? ==> t.muted == Some(true)
    ensures e.OpenChange? ==> t.selected == s.selected && t.muted == s.muted
    ensures e.OpenChange? && s.selected.Some? ==> t.dialogOpen == e.open
    ensures e.OpenChange? && s.selected.None? ==> t == s
    ensures e.MuteClick? ==> t.selected == s.selected && t.dialogOpen == s.dialogOpen
    ensures e.MuteClick? && s.dialogOpen && s.muted.Some? ==> t.muted == Some(!s.muted.value)
    ensures e.MuteClick? && !(s.dialogOpen && s.muted.Some?) ==> t == s
  {
    match e
    case CameraClick(c) =>
      Session(Some(c), true, if s.muted.Some? then s.muted else Some(true))
    case OpenChange(open) =>
      if s.selected.Some? then s.(dialogOpen := open) else s
    case MuteClick =>
      if s.dialogOpen && s.muted.Some? then s.(muted := Some(!s.muted.value)) else s
  }

  /** A sequence of events, in order. */
  function Run(s: Session, evs: seq<SessionEvent>): Session
    decreases |evs|
  {
    if evs == [] then s else Run(Apply(s, evs[0]), evs[1..])
  }

  lemma {:induction false} RunPreservesValid(s: Session, evs: seq<SessionEvent>)
    requires Valid(s)
    ensures Valid(Run(s, evs))
    decreases |evs|
  {
    if evs != [] {
      RunPreservesValid(Apply(s, evs[0]), evs[1..]);
    }
  }

  /** The dialog is mounted after a run exactly when it was mounted before or
      some camera was clicked during it. */
  lemma {:induction false} MountedIffClicked(s: Session, evs: seq<SessionEvent>)
    ensures Run(s, evs).selected.Some? <==>
      s.selected.Some? || exists i :: 0 <= i < |evs| && evs[i].CameraClick?
    decreases |evs|
  {
    if evs != [] {
      MountedIffClicked(Apply(s, evs[0]), evs[1..]);
      if exists i :: 0 <= i < |evs[1..]| && evs[1..][i].CameraClick? {
        var i :| 0 <= i < |evs[1..]| && evs[1..][i].CameraClick?;
        assert evs[i + 1].CameraClick?;
      }
      if exists i :: 0 <= i < |evs| && evs[i].CameraClick? {
        var i :| 0 <= i < |evs| && evs[i].CameraClick?;
        if i > 0 {
          assert evs[1..][i - 1].CameraClick?;
        }
      }
    }
  }

  /** From the initial state, the dialog is mounted exactly when some camera
      has been clicked. */
  lemma MountedIffEverSelected(evs: seq<SessionEvent>)
    ensures Run(Initial, evs).selected.Some? <==> exists i :: 0 <= i < |evs| && evs[i].CameraClick?
  {
    MountedIffClicked(Initial, evs);
  }

  /** Once mounted, mute changes only through the mute button: closing,
      reopening and switching cameras keep it. */
  lemma {:induction false} MuteOnlyByMuteClick(s: Session, evs: seq<SessionEvent>)
    requires s.muted.Some?
    requires forall i :: 0 <= i < |evs| ==> !evs[i].MuteClick?
    ensures Run(s, evs).muted == s.muted
    decreases |evs|
  {
    if evs != [] {
      assert !evs[0].MuteClick?;
      assert forall i :: 0 <= i < |evs[1..]| ==> evs[1..][i] == evs[i + 1];
      MuteOnlyByMuteClick(Apply(s, evs[0]), evs[1..]);
    }
  }

  /** Select a camera, unmute it, close the dialog and select another camera:
      the second camera opens unmuted. */
  lemma MuteSurvivesCameraSwitch(c1: Camera, c2: Camera)
    ensures Run(Initial, [CameraClick(c1), MuteClick, OpenChange(false), CameraClick(c2)])
         == Session(Some(c2), true, Some(false))
  {
    var evs := [CameraClick(c1), MuteClick, OpenChange(false), CameraClick(c2)];
    assert evs[1..] == [MuteClick, OpenChange(false), CameraClick(c2)];
    assert evs[1..][1..] == [OpenChange(false), CameraClick(c2)];
    assert evs[1..][1..][1..] == [CameraClick(c2)];
    var s1 := Apply(Initial, CameraClick(c1));
    var s2 := Apply(s1, MuteClick);
    var s3 := Apply(s2, OpenChange(false));
    assert s3 == Session(Some(c1), false, Some(false));
    assert Run(Initial, evs) == Run(s1, evs[1..]);
    assert Run(s1, evs[1..]) == Run(s2, evs[1..][1..]);
    assert Run(s2, evs[1..][1..]) == Run(s3, [CameraClick(c2)]);
    assert Run(s3, [CameraClick(c2)]) == Run(Apply(s3, CameraClick(c2)), []);
  }

  /** Pressing the mute button twice restores the session. */
  lemma MuteTwiceRestores(s: Session)
    ensures Apply(Apply(s, MuteClick), MuteClick) == s
  {
  }

  /** Closing keeps the selection and the mute state, and closing twice is
      closing once. */
  lemma CloseKeepsSelection(s: Session)
    requires Valid(s)
    ensures Apply(s, OpenChange(false)).selected == s.selected
    ensures Apply(s, OpenChange(false)).muted == s.muted
    ensures !Apply(s, OpenChange(false)).dialogOpen
    ensures Apply(Apply(s, OpenChange(false)), OpenChange(false)) == Apply(s, OpenChange(false))
  {
  }

  /** The state cells of a layout that shows the live dialog, with the
      mounted dialog itself. */
  class Selection {
    var selected: Option<Camera>
    var dialogOpen: bool
    var dialog: LiveDialog?

    predicate Valid()
      reads this
    {
      (dialog != null <==> selected.Some?) && (dialogOpen ==> selected.Some?)
    }

    function State(): Session
      reads this, dialog
    {
      Session(selected, dialogOpen, if dialog == null then None else Some(dialog.isMuted))
    }

    constructor()
      ensures Valid() && State() == Initial
    {
      selected := None;
      dialogOpen := false;
      dialog := null;
    }

    /** handleCameraClick: select the camera and open the dialog. The first
        selection mounts a new dialog; later ones keep the same instance. */
    method HandleCameraClick(c: Camera)
      requires Valid()
      modifies this
      ensures Valid() && State() == Apply(old(State()), CameraClick(c))
      ensures old(dialog) != null ==> dialog == old(dialog)
      ensures old(dialog) == null ==> fresh(dialog)
    {
      if dialog == null {
        dialog := new LiveDialog();
      }
      selected := Some(c);
      dialogOpen := true;
    }

    /** The dialog's `onOpenChange`, which is `setDialogOpen`; it exists
        only while the dialog is mounted. */
    method OnOpenChange(open: bool)
      requires Valid() && selected.Some?
      modifies this
      ensures Valid() && State() == Apply(old(State()), OpenChange(open))
      ensures dialog == old(dialog)
    {
      dialogOpen := open;
    }

    /** The mute button, which is on screen only while the dialog is open. */
    method MuteClick()
      requires Valid() && dialogOpen
      modifies dialog
      ensures Valid() && State() == Apply(old(State()), SessionEvent.MuteClick)
    {
      dialog.ToggleMute();
    }
  }
}
