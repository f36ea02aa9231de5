/** The camera fleet that every layout shell declares (the same seven cameras
    in each), the per-status tallies each layout computes with three
    `filter(...).length` calls, and the header summary that shows the alert
    and inactive tallies only when they are positive. */
module Fleet {
  import opened Common

  datatype CameraStatus = Ativa | Alerta | Inativa {
    /** The string literal the source uses for the status. */
    function Name(): string {
      match this
      case Ativa => "ativa"
      case Alerta => "alerta"
      case Inativa => "inativa"
    }
  }

  /** A camera as the layouts declare it. The image URL is an opaque display
      string and is left out. */
  datatype Camera = Camera(id: int, name: string, status: CameraStatus, lastActivity: Option<string>)

  /** The three status literals are pairwise distinct strings, so a string
      comparison against a status name identifies the status. */
  lemma StatusNameInjective(a: CameraStatus, b: CameraStatus)
    ensures a.Name() == b.Name() <==> a == b
  {
    if a != b {
      assert a.Name()[0] != b.Name()[0] || a.Name()[1] != b.Name()[1];
    }
  }

  function HasStatus(s: CameraStatus): Camera -> bool {
    (c: Camera) => c.status == s
  }

  datatype StatusCounts = StatusCounts(active: nat, alert: nat, inactive: nat)

  /** The three tallies of a layout (activeCameras, alertCameras,
      inactiveCameras). Every camera has exactly one status, so they add up
      to the number of cameras. */
  function Counts(cams: seq<Camera>): (r: StatusCounts)
    ensures r.active + r.alert + r.inactive == |cams|
    ensures r.active == FilterCount(cams, HasStatus(Ativa))
    ensures r.alert == FilterCount(cams, HasStatus(Alerta))
    ensures r.inactive == FilterCount(cams, HasStatus(Inativa))
  {
    PartitionCount3(cams, HasStatus(Ativa), HasStatus(Alerta), HasStatus(Inativa));
    StatusCounts(FilterCount(cams, HasStatus(Ativa)), FilterCount(cams, HasStatus(Alerta)), FilterCount(cams, HasStatus(Inativa)))
  }

  /** A tally is positive exactly when some camera has that status. */
  lemma CountPositiveIffSome(cams: seq<Camera>, s: CameraStatus)
    ensures FilterCount(cams, HasStatus(s)) > 0 <==> exists i :: 0 <= i < |cams| && cams[i].status == s
  {
    var f := Filter(cams, HasStatus(s));
    if i :| 0 <= i < |cams| && cams[i].status == s {
      assert cams[i] in multiset(cams);
      assert multiset(f)[cams[i]] == multiset(cams)[cams[i]];
    }
    if |f| > 0 {
      assert f[0] in f;
      var k :| 0 <= k < |cams| && cams[k] == f[0];
    }
  }

  /** The header of each layout: the active tally is always shown; the alert
      and inactive tallies are shown only when greater than zero. */
  datatype HeaderSummary = HeaderSummary(active: nat, alert: Option<nat>, inactive: Option<nat>)

  function Summary(cams: seq<Camera>): (h: HeaderSummary)
    ensures h.active == Counts(cams).active
    ensures h.alert.Some? <==> Counts(cams).alert > 0
    ensures h.alert.Some? ==> h.alert.value == Counts(cams).alert
    ensures h.inactive.Some? <==> Counts(cams).inactive > 0
    ensures h.inactive.Some? ==> h.inactive.value == Counts(cams).inactive
  {
    var c := Counts(cams);
    HeaderSummary(c.active,
                  if c.alert > 0 then Some(c.alert) else None,
                  if c.inactive > 0 then Some(c.inactive) else None)
  }

  /** The alert chip is shown exactly when some camera is alerting, and the
      inactive chip exactly when some camera is inactive. */
  lemma SummaryShowsIffSome(cams: seq<Camera>)
    ensures Summary(cams).alert.Some? <==> exists i :: 0 <= i < |cams| && cams[i].status == Alerta
    ensures Summary(cams).inactive.Some? <==> exists i :: 0 <= i < |cams| && cams[i].status == Inativa
  {
    CountPositiveIffSome(cams, Alerta);
    CountPositiveIffSome(cams, Inativa);
  }

  /** The badge on the cameras tab shows `cameras.length`, which is the sum
      of the three header tallies. */
  function CameraTabBadge(cams: seq<Camera>): (n: nat)
    ensures n == Counts(cams).active + Counts(cams).alert + Counts(cams).inactive
  {
    |cams|
  }

  /** Camera ids are unique within the fleet. */
  predicate UniqueIds(cams: seq<Camera>) {
    forall i, j :: 0 <= i < |cams| && 0 <= j < |cams| && cams[i].id == cams[j].id ==> i == j
  }

  /** The fleet every layout declares. */
  const SeedCameras: seq<Camera> := [
    Camera(1, "Câmera 1 - Baia A", Ativa, Some("Última atividade: Há 10 min")),
    Camera(2, "Câmera 2 - Baia B", Ativa, Some("Última atividade: Há 25 min")),
    Camera(3, "Câmera 3 - Baia C", Alerta, Some("⚠️ Atividade detectada agora")),
    Camera(4, "Câmera 4 - Baia D", Ativa, Some("Última atividade: Há 1 hora")),
    Camera(5, "Câmera 5 - Baia E", Alerta, Some("⚠️ Temperatura elevada")),
    Camera(6, "Câmera 6 - Baia F", Inativa, Some("❌ Sem conexão - Verificar câmera")),
    Camera(7, "Câmera 7 - Baia G", Ativa, Some("Última atividade: Há 2 horas"))
  ]

  /** The seeded fleet has unique ids. */
  lemma SeedIdsUnique()
    ensures UniqueIds(SeedCameras)
  {
    var ids := seq(|SeedCameras|, i requires 0 <= i < |SeedCameras| => SeedCameras[i].id);
    assert ids == [1, 2, 3, 4, 5, 6, 7];
    assert forall i :: 0 <= i < |ids| ==> ids[i] == i + 1;
  }

  lemma SeedTally(s: CameraStatus)
    ensures CountWhere(SeedCameras, HasStatus(s)) == match s case Ativa => 4 case Alerta => 2 case Inativa => 1
  {
    var c, p := SeedCameras, HasStatus(s);
    assert c[..0] == [] && c[..7] == c;
    CountWherePrefix(c, 1, p);
    CountWherePrefix(c, 2, p);
    CountWherePrefix(c, 3, p);
    CountWherePrefix(c, 4, p);
    CountWherePrefix(c, 5, p);
    CountWherePrefix(c, 6, p);
    CountWherePrefix(c, 7, p);
  }

  /** The seeded fleet tallies 4 active, 2 alerting and 1 inactive cameras. */
  lemma SeedStatusCounts(s: CameraStatus)
    ensures FilterCount(SeedCameras, HasStatus(s)) == match s case Ativa => 4 case Alerta => 2 case Inativa => 1
  {
    SeedTally(s);
  }
}
