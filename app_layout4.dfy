/** The low-fidelity layout: a grey wireframe of the camera grid in which a
    card click highlights the card, with no live dialog. */
module AppLayout4 {
  import opened Common
  import opened Fleet

  /** getStatusColor: an if-chain on the status string, with a default. */
  function GetStatusColor(status: string): (c: string)
    ensures c == "bg-gray-400" <==> status == Ativa.Name()
    ensures c == "bg-gray-500" <==> status == Alerta.Name()
    ensures c == "bg-gray-300" <==> status != Ativa.Name() && status != Alerta.Name()
  {
    if status == "ativa" then "bg-gray-400"
    else if status == "alerta" then "bg-gray-500"
    else "bg-gray-300"
  }

  /** The three statuses get three distinct shades. */
  lemma StatusShadesDistinct(a: CameraStatus, b: CameraStatus)
    ensures GetStatusColor(a.Name()) == GetStatusColor(b.Name()) <==> a == b
  {
    StatusNameInjective(a, b);
    StatusNameInjective(a, Ativa);
    StatusNameInjective(a, Alerta);
    StatusNameInjective(b, Ativa);
    StatusNameInjective(b, Alerta);
  }

  /** The status dot inside a card: a nested conditional with its own
      shades, one step darker than the card's for the first two statuses. */
  function GetDotColor(status: string): (c: string)
    ensures c == "bg-gray-500" <==> status == Ativa.Name()
    ensures c == "bg-gray-600" <==> status == Alerta.Name()
    ensures c == "bg-gray-300" <==> status != Ativa.Name() && status != Alerta.Name()
  {
    if status == "ativa" then "bg-gray-500"
    else if status == "alerta" then "bg-gray-600"
    else "bg-gray-300"
  }

  /** The three statuses get three distinct dots, and a dot has the shade of
      its card only on an inactive (or unknown-status) card. */
  lemma DotShadesDistinct(a: CameraStatus, b: CameraStatus)
    ensures GetDotColor(a.Name()) == GetDotColor(b.Name()) <==> a == b
    ensures GetDotColor(a.Name()) == GetStatusColor(a.Name()) <==> a == Inativa
  {
    StatusNameInjective(a, b);
    StatusNameInjective(a, Ativa);
    StatusNameInjective(a, Alerta);
    StatusNameInjective(b, Ativa);
    StatusNameInjective(b, Alerta);
  }

  /** `selectedCamera === camera.id`: the card gets the dark border. */
  function Highlighted(sel: Option<int>): (h: Camera -> bool)
    ensures forall c :: h(c) ==> sel.Some?
    ensures forall c, d :: h(c) && h(d) ==> c.id == d.id
    ensures forall c :: h(c) <==> sel == Some(c.id)
  {
    (c: Camera) => sel == Some(c.id)
  }

  /** With unique ids at most one card is highlighted, and exactly one when
      some camera has the selected id. */
  lemma {:induction false} AtMostOneHighlighted(cams: seq<Camera>, sel: Option<int>)
    requires UniqueIds(cams)
    ensures CountWhere(cams, Highlighted(sel)) <= 1
    ensures CountWhere(cams, Highlighted(sel)) == 1 <==> exists i :: 0 <= i < |cams| && sel == Some(cams[i].id)
  {
    if cams != [] {
      var rest := cams[1..];
      assert forall i :: 1 <= i < |cams| ==> cams[i] == rest[i - 1];
      assert UniqueIds(rest) by {
        forall i, j | 0 <= i < |rest| && 0 <= j < |rest| && rest[i].id == rest[j].id
          ensures i == j
        {
          assert cams[i + 1].id == cams[j + 1].id;
        }
      }
      AtMostOneHighlighted(rest, sel);
      CountWhereZeroIffNone(rest, Highlighted(sel));
      if Highlighted(sel)(cams[0]) {
        forall i | 0 <= i < |rest|
          ensures !Highlighted(sel)(rest[i])
        {
          assert cams[i + 1].id != cams[0].id;
        }
      }
      if exists i :: 0 <= i < |cams| && sel == Some(cams[i].id) {
        var i :| 0 <= i < |cams| && sel == Some(cams[i].id);
        if i > 0 {
          assert sel == Some(rest[i - 1].id);
        }
      }
    }
  }

  /** After clicking a card of a fleet with unique ids, that card and no
      other is highlighted. */
  lemma ClickHighlightsOnlyThatCard(cams: seq<Camera>, i: int)
    requires UniqueIds(cams)
    requires 0 <= i < |cams|
    ensures Highlighted(Some(cams[i].id))(cams[i])
    ensures CountWhere(cams, Highlighted(Some(cams[i].id))) == 1
  {
    AtMostOneHighlighted(cams, Some(cams[i].id));
  }

  /** The layout's fleet: the shared cameras without activity lines. */
  const Cameras: seq<Camera> := [
    Camera(1, "Câmera 1 - Baia A", Ativa, None),
    Camera(2, "Câmera 2 - Baia B", Ativa, None),
    Camera(3, "Câmera 3 - Baia C", Alerta, None),
    Camera(4, "Câmera 4 - Baia D", Ativa, None),
    Camera(5, "Câmera 5 - Baia E", Alerta, None),
    Camera(6, "Câmera 6 - Baia F", Inativa, None),
    Camera(7, "Câmera 7 - Baia G", Ativa, None)
  ]

  /** The layout's fleet has the shared fleet's ids, names and statuses. */
  lemma CamerasMatchSeed()
    ensures |Cameras| == |SeedCameras|
    ensures forall i :: 0 <= i < |Cameras| ==> Cameras[i] == SeedCameras[i].(lastActivity := None)
  {
  }

  /** Its ids are unique, so at most one of its cards is ever highlighted. */
  lemma CamerasIdsUnique()
    ensures UniqueIds(Cameras)
  {
    CamerasMatchSeed();
    SeedIdsUnique();
  }

  /** The layout's single state cell. */
  class Layout {
    var selectedCamera: Option<int>

    /** `useState(null)`: no card is highlighted. */
    constructor()
      ensures selectedCamera.None?
      ensures forall c: Camera :: !Highlighted(selectedCamera)(c)
    {
      selectedCamera := None;
    }

    /** A card's onClick: `setSelectedCamera(camera.id)`. Clicking the
        selected card again keeps it selected. */
    method CardClick(id: int)
      modifies this
      ensures selectedCamera == Some(id)
      ensures forall c: Camera :: Highlighted(selectedCamera)(c) <==> c.id == id
    {
      selectedCamera := Some(id);
    }
  }
}
