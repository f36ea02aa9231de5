/** The camera preview card: a status dot and badge looked up in one
    three-entry table, an alert icon for alerting cameras, and an optional
    last-activity line. */
module CameraPreview {
  import opened Common
  import opened Fleet

  datatype StatusEntry = StatusEntry(color: string, text: string)

  /** statusConfig, indexed by the camera's status. */
  function StatusConfig(s: CameraStatus): (e: StatusEntry)
    ensures e.color == "bg-green-500" <==> s == Ativa
    ensures e.color == "bg-yellow-500" <==> s == Alerta
    ensures e.color == "bg-gray-400" <==> s == Inativa
    ensures e.text == "Ativa" <==> s == Ativa
    ensures e.text == "Alerta" <==> s == Alerta
    ensures e.text == "Inativa" <==> s == Inativa
  {
    match s
    case Ativa => StatusEntry("bg-green-500", "Ativa")
    case Alerta => StatusEntry("bg-yellow-500", "Alerta")
    case Inativa => StatusEntry("bg-gray-400", "Inativa")
  }

  /** What a preview card shows for a camera. */
  datatype PreviewView = PreviewView(dotColor: string, badgeText: string, alertIcon: bool, activityLine: Option<string>)

  function Preview(c: Camera): (v: PreviewView)
    ensures v.dotColor == StatusConfig(c.status).color && v.badgeText == StatusConfig(c.status).text
    ensures v.alertIcon <==> c.status == Alerta
    ensures v.activityLine.Some? <==> c.lastActivity.Some? && c.lastActivity.value != ""
    ensures v.activityLine.Some? ==> v.activityLine.value == c.lastActivity.value
  {
    var e := StatusConfig(c.status);
    PreviewView(e.color, e.text, c.status == Alerta, GuardText(c.lastActivity))
  }

  /** The dot and the badge come from the same table entry: two cards show
      the same dot exactly when they show the same badge, and exactly when
      the cameras share a status. */
  lemma DotAndBadgeAgree(c: Camera, d: Camera)
    ensures Preview(c).dotColor == Preview(d).dotColor <==> Preview(c).badgeText == Preview(d).badgeText
    ensures Preview(c).dotColor == Preview(d).dotColor <==> c.status == d.status
  {
  }

  /** The alert icon appears exactly on the cards with the yellow dot. */
  lemma AlertIconIffYellow(c: Camera)
    ensures Preview(c).alertIcon <==> Preview(c).dotColor == "bg-yellow-500"
  {
  }

  /** Every seeded camera shows its last-activity line. */
  lemma SeedActivityShown(i: int)
    requires 0 <= i < |SeedCameras|
    ensures Preview(SeedCameras[i]).activityLine == SeedCameras[i].lastActivity
  {
    assert SeedCameras[i].lastActivity.Some? && SeedCameras[i].lastActivity.value != "" by {
      assert forall j :: 0 <= j < 7 ==> |SeedCameras[j].lastActivity.value| > 0;
    }
  }
}
