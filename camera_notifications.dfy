/** The per-camera event ledger: a list of cameras, each with the events
    recorded for its pen (births, deaths, crushing alerts), the header total
    computed by a `reduce` over the cameras, and the mappings from an event's
    type to its icon, card colour, badge variant, label and piglet-count
    chip. */
module CameraNotifications {
  import opened Common

  datatype EventType = Nascimento | Morte | Esmagamento {
    /** The string literal the source uses for the type. */
    function Name(): string {
      match this
      case Nascimento => "nascimento"
      case Morte => "morte"
      case Esmagamento => "esmagamento"
    }
  }

  /** One recorded event. `count` is the optional number of piglets. */
  datatype Event = Event(id: int, kind: EventType, description: string, timestamp: string, count: Option<int>)

  /** The events recorded by one camera. */
  datatype CameraLedger = CameraLedger(cameraId: int, cameraName: string, events: seq<Event>)

  /** The reducer `(acc, cam) => acc + cam.events.length`, folded from the left. */
  function ReduceEvents(cams: seq<CameraLedger>, acc: int): (total: int)
    ensures acc <= total
    ensures total == acc <==> forall i :: 0 <= i < |cams| ==> cams[i].events == []
  {
    if cams == [] then acc else ReduceEvents(cams[1..], acc + |cams[0].events|)
  }

  /** Reference definition: the sum of the per-camera event counts. */
  function EventSum(cams: seq<CameraLedger>): nat {
    if cams == [] then 0 else |cams[0].events| + EventSum(cams[1..])
  }

  lemma {:induction false} ReduceIsSum(cams: seq<CameraLedger>, acc: int)
    ensures ReduceEvents(cams, acc) == acc + EventSum(cams)
  {
    if cams != [] {
      ReduceIsSum(cams[1..], acc + |cams[0].events|);
    }
  }

  /** `totalEvents`: the reduce started at 0. It is the sum of the per-camera
      counts, and 0 for an empty ledger. */
  function TotalEvents(cams: seq<CameraLedger>): (r: nat)
    ensures r == EventSum(cams)
    ensures cams == [] ==> r == 0
  {
    ReduceIsSum(cams, 0);
    ReduceEvents(cams, 0)
  }

  /** The total distributes over concatenation of ledgers. */
  lemma {:induction false} EventSumConcat(a: seq<CameraLedger>, b: seq<CameraLedger>)
    ensures EventSum(a + b) == EventSum(a) + EventSum(b)
  {
    if a == [] {
      assert a + b == b;
    } else {
      assert (a + b)[1..] == a[1..] + b;
      EventSumConcat(a[1..], b);
    }
  }

  lemma TotalEventsConcat(a: seq<CameraLedger>, b: seq<CameraLedger>)
    ensures TotalEvents(a + b) == TotalEvents(a) + TotalEvents(b)
  {
    EventSumConcat(a, b);
  }

  /** The badge of each camera (`camera.events.length`) never exceeds the
      header total. */
  lemma CameraCountAtMostTotal(cams: seq<CameraLedger>, i: int)
    requires 0 <= i < |cams|
    ensures |cams[i].events| <= TotalEvents(cams)
  {
    assert cams == cams[..i] + ([cams[i]] + cams[i + 1..]);
    EventSumConcat(cams[..i], [cams[i]] + cams[i + 1..]);
    EventSumConcat([cams[i]], cams[i + 1..]);
  }

  /** All events of the ledger, camera after camera, in display order. */
  function AllEvents(cams: seq<CameraLedger>): (all: seq<Event>)
    ensures forall e :: e in all <==> exists i :: 0 <= i < |cams| && e in cams[i].events
  {
    if cams == [] then [] else cams[0].events + AllEvents(cams[1..])
  }

  /** The header total counts exactly the event cards the accordion lists. */
  lemma {:induction false} TotalIsAllEventsLength(cams: seq<CameraLedger>)
    ensures |AllEvents(cams)| == TotalEvents(cams)
  {
    if cams != [] {
      TotalIsAllEventsLength(cams[1..]);
    }
  }

  datatype EventIcon = Baby | Skull | AlertTriangle

  /** getEventIcon: a switch over the type string; no icon for any other
      string. */
  function GetEventIcon(t: string): (r: Option<EventIcon>)
    ensures r == Some(Baby) <==> t == Nascimento.Name()
    ensures r == Some(Skull) <==> t == Morte.Name()
    ensures r == Some(AlertTriangle) <==> t == Esmagamento.Name()
    ensures r == None <==> forall k: EventType :: t != k.Name()
  {
    match t
    case "nascimento" => Some(Baby)
    case "morte" => Some(Skull)
    case "esmagamento" => Some(AlertTriangle)
    case _ => None
  }

  /** getEventColor: green for births, gray for deaths, red for crushing,
      blue for any other string. */
  function GetEventColor(t: string): (c: string)
    ensures c == "text-green-600 bg-green-50" <==> t == Nascimento.Name()
    ensures c == "text-gray-700 bg-gray-100" <==> t == Morte.Name()
    ensures c == "text-red-600 bg-red-50" <==> t == Esmagamento.Name()
    ensures c == "text-blue-600 bg-blue-50" <==> forall k: EventType :: t != k.Name()
  {
    match t
    case "nascimento" => "text-green-600 bg-green-50"
    case "morte" => "text-gray-700 bg-gray-100"
    case "esmagamento" => "text-red-600 bg-red-50"
    case _ => "text-blue-600 bg-blue-50"
  }

  /** getEventBadgeVariant: secondary for deaths, destructive for crushing,
      default for births and for any other string. */
  function GetEventBadgeVariant(t: string): (v: BadgeVariant)
    ensures v == Secondary <==> t == Morte.Name()
    ensures v == Destructive <==> t == Esmagamento.Name()
    ensures v == Default <==> t != Morte.Name() && t != Esmagamento.Name()
  {
    match t
    case "nascimento" => Default
    case "morte" => Secondary
    case "esmagamento" => Destructive
    case _ => Default
  }

  /** Every event type has an icon and a colour of its own, and the badge is
      destructive exactly for the red (crushing) card. */
  lemma EventPresentationAgrees(t: string)
    ensures GetEventIcon(t).Some? <==> GetEventColor(t) != "text-blue-600 bg-blue-50"
    ensures GetEventBadgeVariant(t) == Destructive <==> GetEventColor(t) == "text-red-600 bg-red-50"
    ensures GetEventIcon(t) == Some(AlertTriangle) <==> GetEventBadgeVariant(t) == Destructive
  {
  }

  /** `c.toUpperCase()` for a single character; only ASCII letters are
      mapped. */
  function UpperChar(c: char): (u: char)
    ensures 'a' <= c <= 'z' ==> 'A' <= u <= 'Z' && u as int - 'A' as int == c as int - 'a' as int
    ensures !('a' <= c <= 'z') ==> u == c
  {
    if 'a' <= c <= 'z' then (c as int - 32) as char else c
  }

  /** The badge label `t.charAt(0).toUpperCase() + t.slice(1)`. `charAt(0)`
      and `slice(1)` of the empty string are both empty. */
  function Capitalize(t: string): (r: string)
    ensures |r| == |t|
    ensures |t| > 0 ==> r[0] == UpperChar(t[0])
    ensures forall i :: 1 <= i < |t| ==> r[i] == t[i]
  {
    if t == [] then [] else [UpperChar(t[0])] + t[1..]
  }

  /** Capitalising a label twice gives the same label. */
  lemma CapitalizeIdempotent(t: string)
    ensures Capitalize(Capitalize(t)) == Capitalize(t)
  {
    if t != [] {
      assert Capitalize(Capitalize(t))[0] == Capitalize(t)[0];
    }
  }

  /** The labels of the three event types. */
  lemma EventLabels()
    ensures Capitalize(Nascimento.Name()) == "Nascimento"
    ensures Capitalize(Morte.Name()) == "Morte"
    ensures Capitalize(Esmagamento.Name()) == "Esmagamento"
  {
  }

  /** Distinct event types get distinct labels. */
  lemma LabelsDistinct(a: EventType, b: EventType)
    ensures Capitalize(a.Name()) == Capitalize(b.Name()) <==> a == b
  {
    EventLabels();
  }

  /** The piglet-count chip `{count} {count === 1 ? 'leitão' : 'leitões'}`,
      rendered under `event.count && ...`: nothing without a count, a stray
      "0" for a zero count, and the chip otherwise. */
  datatype CountChip = NoChip | ZeroChip | Chip(n: int, noun: string)

  function PigletNoun(n: int): (w: string)
    ensures w == "leitão" <==> n == 1
    ensures w == "leitões" <==> n != 1
  {
    if n == 1 then "leitão" else "leitões"
  }

  function GetCountChip(count: Option<int>): (c: CountChip)
    ensures c.Chip? <==> count.Some? && count.value != 0
    ensures c.Chip? ==> c.n == count.value && c.noun == PigletNoun(c.n)
    ensures c.ZeroChip? <==> count == Some(0)
  {
    match GuardNumber(count)
    case Hidden => NoChip
    case StrayZero => ZeroChip
    case Shown(n) => Chip(n, PigletNoun(n))
  }

  /** The chip reads "leitão" exactly for a count of one. */
  lemma ChipSingularIffOne(count: Option<int>)
    requires GetCountChip(count).Chip?
    ensures GetCountChip(count).noun == "leitão" <==> count == Some(1)
    ensures GetCountChip(count).noun == "leitões" <==> count != Some(1)
  {
  }

  /** The ids of all events, in display order. */
  function EventIds(cams: seq<CameraLedger>): seq<int> {
    var all := AllEvents(cams);
    seq(|all|, i requires 0 <= i < |all| => all[i].id)
  }

  /** Event ids are unique across the whole ledger. */
  predicate UniqueEventIds(cams: seq<CameraLedger>) {
    var ids := EventIds(cams);
    forall i, j :: 0 <= i < |ids| && 0 <= j < |ids| && ids[i] == ids[j] ==> i == j
  }

  /** Only births carry a piglet count. */
  predicate CountsOnlyOnBirths(cams: seq<CameraLedger>) {
    var all := AllEvents(cams);
    forall i :: 0 <= i < |all| && all[i].count.Some? ==> all[i].kind == Nascimento
  }

  function Birth(id: int, description: string, timestamp: string, count: int): Event {
    Event(id, Nascimento, description, timestamp, Some(count))
  }

  /** The ledger the component declares. */
  const SeedLedger: seq<CameraLedger> := [
    CameraLedger(1, "Câmera 1 - Baia A", [
      Birth(1, "Leitão nascido com sucesso", "Hoje, 14:30", 1),
      Birth(2, "2 leitões nascidos", "Hoje, 13:15", 2),
      Birth(3, "Leitão nascido com sucesso", "Hoje, 11:20", 1)]),
    CameraLedger(2, "Câmera 2 - Baia B", [
      Birth(4, "3 leitões nascidos", "Hoje, 12:45", 3)]),
    CameraLedger(3, "Câmera 3 - Baia C", [
      Event(5, Esmagamento, "Alerta de esmagamento detectado - Intervenção necessária", "Hoje, 15:10", None),
      Birth(6, "Leitão nascido com sucesso", "Hoje, 10:30", 1)]),
    CameraLedger(4, "Câmera 4 - Baia D", [
      Birth(7, "4 leitões nascidos", "Ontem, 22:15", 4),
      Event(8, Morte, "Leitão sem sinais vitais detectado", "Ontem, 20:30", None)]),
    CameraLedger(5, "Câmera 5 - Baia E", [
      Birth(9, "Leitão nascido com sucesso", "Ontem, 18:45", 1)]),
    CameraLedger(6, "Câmera 6 - Baia F", [
      Birth(10, "5 leitões nascidos", "Ontem, 16:20", 5),
      Birth(11, "2 leitões nascidos", "Ontem, 14:00", 2)]),
    CameraLedger(7, "Câmera 7 - Baia G", [
      Event(12, Esmagamento, "Risco de esmagamento identificado", "Ontem, 23:30", None),
      Birth(13, "Leitão nascido com sucesso", "Ontem, 19:15", 1)])
  ]

  /** The seeded header reads 13 events. */
  lemma SeedTotal()
    ensures TotalEvents(SeedLedger) == 13
  {
    var c := SeedLedger;
    assert EventSum(c[6..]) == 2;
    assert EventSum(c[5..]) == 2 + EventSum(c[6..]);
    assert EventSum(c[4..]) == 1 + EventSum(c[5..]);
    assert EventSum(c[3..]) == 2 + EventSum(c[4..]);
    assert EventSum(c[2..]) == 2 + EventSum(c[3..]);
    assert EventSum(c[1..]) == 1 + EventSum(c[2..]);
  }

  /** The seeded events, in display order, as the ledger's flattening. */
  lemma SeedAllEvents()
    ensures AllEvents(SeedLedger) == SeedLedger[0].events + SeedLedger[1].events + SeedLedger[2].events
      + SeedLedger[3].events + SeedLedger[4].events + SeedLedger[5].events + SeedLedger[6].events
  {
    var c := SeedLedger;
    assert AllEvents(c[7..]) == [];
    assert AllEvents(c[6..]) == c[6].events + AllEvents(c[7..]);
    assert AllEvents(c[5..]) == c[5].events + AllEvents(c[6..]);
    assert AllEvents(c[4..]) == c[4].events + AllEvents(c[5..]);
    assert AllEvents(c[3..]) == c[3].events + AllEvents(c[4..]);
    assert AllEvents(c[2..]) == c[2].events + AllEvents(c[3..]);
    assert AllEvents(c[1..]) == c[1].events + AllEvents(c[2..]);
  }

  /** In the seeded ledger the event ids are 1 to 13 in display order, so
      they are unique across all cameras. */
  lemma SeedEventIdsUnique()
    ensures EventIds(SeedLedger) == [1, 2, 3, 4, 5, 6, 7, 8, 9, 10, 11, 12, 13]
    ensures UniqueEventIds(SeedLedger)
  {
    SeedAllEvents();
    var ids := EventIds(SeedLedger);
    assert forall i :: 0 <= i < |ids| ==> ids[i] == i + 1;
  }

  /** In the seeded ledger only births carry a piglet count. */
  lemma SeedCountsOnlyOnBirths()
    ensures CountsOnlyOnBirths(SeedLedger)
  {
    SeedAllEvents();
  }
}
