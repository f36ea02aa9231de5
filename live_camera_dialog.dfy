/** The live-view dialog: a status badge derived from the camera's status,
    and a mute button whose state the dialog owns. Whether the dialog is open
    belongs to the parent, which passes `open` in and is told of changes
    through `onOpenChange`. */
module LiveCameraDialog {
  import opened Common
  import opened Fleet

  datatype VolumeIcon = VolumeX | Volume2

  /** The icon on the mute button. */
  function MuteIcon(muted: bool): (i: VolumeIcon)
    ensures i == VolumeX <==> muted
    ensures i == Volume2 <==> !muted
  {
    if muted then VolumeX else Volume2
  }

  /** The badge variant: destructive for an alerting camera, secondary
      otherwise. */
  function StatusVariant(s: CameraStatus): (v: BadgeVariant)
    ensures v == Destructive <==> s == Alerta
    ensures v == Secondary <==> s != Alerta
  {
    if s == Alerta then Destructive else Secondary
  }

  /** The badge label. */
  function StatusLabel(s: CameraStatus): (l: string)
    ensures l == "Normal" <==> s == Ativa
    ensures l == "Atenção" <==> s == Alerta
    ensures l == "Inativa" <==> s == Inativa
  {
    assert "Atenção"[0] != "Inativa"[0];
    match s
    case Ativa => "Normal"
    case Alerta => "Atenção"
    case Inativa => "Inativa"
  }

  /** The badge is destructive exactly when it reads "Atenção", and
      distinct statuses get distinct labels. */
  lemma BadgeAgrees(s: CameraStatus, t: CameraStatus)
    ensures StatusVariant(s) == Destructive <==> StatusLabel(s) == "Atenção"
    ensures StatusLabel(s) == StatusLabel(t) <==> s == t
  {
  }

  /** The dialog's own state: `isMuted`. */
  class LiveDialog {
    var isMuted: bool

    /** `useState(true)`: a freshly mounted dialog starts muted. */
    constructor()
      ensures isMuted
    {
      isMuted := true;
    }

    function Icon(): (i: VolumeIcon)
      reads this
      ensures i == VolumeX <==> isMuted
    {
      MuteIcon(isMuted)
    }

    /** The mute button: `setIsMuted(!isMuted)`. Nothing else changes. */
    method ToggleMute()
      modifies this
      ensures isMuted == !old(isMuted)
      ensures Icon() != old(Icon())
    {
      isMuted := !isMuted;
    }
  }

  /** Pressing the mute button twice restores the original state. */
  method ToggleTwiceRestores(d: LiveDialog)
    modifies d
    ensures d.isMuted == old(d.isMuted)
  {
    d.ToggleMute();
    d.ToggleMute();
  }
}
