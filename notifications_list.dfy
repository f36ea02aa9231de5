/** The notifications panel: a fixed list of notifications, each shown as a
    card whose icon, icon colour, badge variant and badge label all follow
    from the notification's severity, with an optional camera line, under a
    header that counts the notifications. */
module NotificationsList {
  import opened Common

  datatype Severity = Alerta | Sucesso | Info {
    /** The string literal the source uses for the severity. */
    function Name(): string {
      match this
      case Alerta => "alerta"
      case Sucesso => "sucesso"
      case Info => "info"
    }
  }

  datatype Notification = Notification(id: int, severity: Severity, title: string, description: string,
                                       camera: Option<string>, timestamp: string)

  datatype NoticeIcon = AlertTriangle | CheckCircle | InfoIcon

  /** getIcon: a switch on the type string with `Info` as the default. */
  function GetIcon(t: string): (r: NoticeIcon)
    ensures r == AlertTriangle <==> t == Alerta.Name()
    ensures r == CheckCircle <==> t == Sucesso.Name()
    ensures r == InfoIcon <==> t != Alerta.Name() && t != Sucesso.Name()
  {
    match t
    case "alerta" => AlertTriangle
    case "sucesso" => CheckCircle
    case _ => InfoIcon
  }

  /** getVariant: destructive for alerts only. */
  function GetVariant(t: string): (v: BadgeVariant)
    ensures v == Destructive <==> t == Alerta.Name()
    ensures v == Default <==> t != Alerta.Name()
  {
    if t == "alerta" then Destructive else Default
  }

  /** The colour ternary around the icon. */
  function IconColor(t: string): (c: string)
    ensures c == "text-red-600" <==> t == Alerta.Name()
    ensures c == "text-green-600" <==> t == Sucesso.Name()
    ensures c == "text-blue-600" <==> t != Alerta.Name() && t != Sucesso.Name()
  {
    if t == "alerta" then "text-red-600" else if t == "sucesso" then "text-green-600" else "text-blue-600"
  }

  /** The label ternary in the badge. */
  function BadgeLabel(t: string): (l: string)
    ensures l == "Alerta" <==> t == Alerta.Name()
    ensures l == "Sucesso" <==> t == Sucesso.Name()
    ensures l == "Info" <==> t != Alerta.Name() && t != Sucesso.Name()
  {
    if t == "alerta" then "Alerta" else if t == "sucesso" then "Sucesso" else "Info"
  }

  /** The four severity mappings agree with one another for every string:
      each of icon, colour and label determines the other two, and the badge
      is destructive exactly with the red triangle. */
  lemma SeverityMappingsAgree(t: string, u: string)
    ensures GetIcon(t) == GetIcon(u) <==> IconColor(t) == IconColor(u)
    ensures GetIcon(t) == GetIcon(u) <==> BadgeLabel(t) == BadgeLabel(u)
    ensures GetVariant(t) == Destructive <==> GetIcon(t) == AlertTriangle
  {
  }

  /** What one card shows. */
  datatype NoticeCard = NoticeCard(id: int, icon: NoticeIcon, color: string, variant: BadgeVariant,
                                   text: string, title: string, cameraLine: Option<string>)

  function CardOf(n: Notification): (c: NoticeCard)
    ensures c.id == n.id && c.title == n.title
    ensures c.cameraLine.Some? <==> n.camera.Some? && n.camera.value != ""
    ensures c.cameraLine.Some? ==> c.cameraLine.value == n.camera.value
  {
    var t := n.severity.Name();
    NoticeCard(n.id, GetIcon(t), IconColor(t), GetVariant(t), BadgeLabel(t), n.title, GuardText(n.camera))
  }

  /** Each declared severity is shown with its own icon, colour and label. */
  lemma CardFollowsSeverity(n: Notification)
    ensures n.severity == Alerta ==> CardOf(n).icon == AlertTriangle && CardOf(n).color == "text-red-600"
                                     && CardOf(n).text == "Alerta" && CardOf(n).variant == Destructive
    ensures n.severity == Sucesso ==> CardOf(n).icon == CheckCircle && CardOf(n).color == "text-green-600"
                                      && CardOf(n).text == "Sucesso" && CardOf(n).variant == Default
    ensures n.severity == Info ==> CardOf(n).icon == InfoIcon && CardOf(n).color == "text-blue-600"
                                   && CardOf(n).text == "Info" && CardOf(n).variant == Default
  {
  }

  /** `notifications.map(...)`: one card per notification, in list order. */
  function Cards(ns: seq<Notification>): (cs: seq<NoticeCard>)
    ensures |cs| == |ns|
    ensures forall i :: 0 <= i < |ns| ==> cs[i] == CardOf(ns[i])
  {
    if ns == [] then [] else [CardOf(ns[0])] + Cards(ns[1..])
  }

  /** The cards of a concatenation are the concatenation of the cards. */
  lemma CardsConcat(a: seq<Notification>, b: seq<Notification>)
    ensures Cards(a + b) == Cards(a) + Cards(b)
  {
    var l, r := Cards(a + b), Cards(a) + Cards(b);
    assert |l| == |r|;
    forall i | 0 <= i < |l|
      ensures l[i] == r[i]
    {
      if i < |a| {
        assert (a + b)[i] == a[i];
      } else {
        assert (a + b)[i] == b[i - |a|];
      }
    }
  }

  /** The header badge `notifications.length`: the number of cards listed. */
  function HeaderCount(ns: seq<Notification>): (n: nat)
    ensures n == |Cards(ns)|
  {
    |ns|
  }

  /** The notifications the panel declares. */
  const SeedNotifications: seq<Notification> := [
    Notification(1, Alerta, "Atividade Detectada - Possível Nascimento",
      "Movimento intenso detectado na baia. Recomenda-se verificação imediata.",
      Some("Câmera 3 - Baia C"), "Há 5 minutos"),
    Notification(2, Sucesso, "Nascimento Confirmado",
      "Leitão nascido com sucesso. Total de 8 leitões nesta ninhada.",
      Some("Câmera 1 - Baia A"), "Há 1 hora"),
    Notification(3, Alerta, "Temperatura Elevada",
      "Temperatura ambiente acima do ideal na baia. Verificar sistema de climatização.",
      Some("Câmera 5 - Baia E"), "Há 2 horas"),
    Notification(4, Info, "Manutenção Programada",
      "Limpeza e verificação das câmeras agendada para amanhã às 08:00.",
      None, "Hoje, 10:30"),
    Notification(5, Sucesso, "Sistema Online",
      "Todas as câmeras estão funcionando normalmente. Última verificação concluída.",
      None, "Há 3 horas"),
    Notification(6, Alerta, "Porca Agitada",
      "Comportamento anormal detectado. Possível início de trabalho de parto.",
      Some("Câmera 7 - Baia G"), "Há 4 horas")
  ]

  /** The seeded header reads 6. */
  lemma SeedHeaderCount()
    ensures HeaderCount(SeedNotifications) == 6
  {
  }

  /** The camera line appears on the seeded cards except the fourth and
      the fifth. */
  lemma SeedCameraLines(i: int)
    requires 0 <= i < |SeedNotifications|
    ensures Cards(SeedNotifications)[i].cameraLine.Some? <==> i != 3 && i != 4
  {
    var ns := SeedNotifications;
    var n := ns[i];
    assert n.camera.Some? <==> i != 3 && i != 4;
    if n.camera.Some? {
      assert |n.camera.value| == 17;
    }
  }
}
