/** The connection panel: per-camera connection entries with a declared
    status, the three status tallies, the rounded average signal, the signal
    bands that pick the icon and the bar colour, and the status badge. */
module NetworkStatus {
  import opened Common

  datatype ConnectionStatus = Online | Weak | Offline {
    /** The string literal the source uses for the status. */
    function Name(): string {
      match this
      case Online => "online"
      case Weak => "weak"
      case Offline => "offline"
    }
  }

  /** A camera connection. The status is declared with the entry; it is not
      computed from the signal strength. */
  datatype Connection = Connection(id: int, name: string, status: ConnectionStatus, signalStrength: int, latency: int)

  function HasStatus(s: ConnectionStatus): Connection -> bool {
    (c: Connection) => c.status == s
  }

  datatype ConnectionCounts = ConnectionCounts(online: nat, weak: nat, offline: nat)

  /** onlineCameras, weakCameras and offlineCameras: each entry is counted by
      its declared status, so the three add up to the number of entries. */
  function Counts(conns: seq<Connection>): (r: ConnectionCounts)
    ensures r.online + r.weak + r.offline == |conns|
    ensures r.online == CountWhere(conns, HasStatus(Online))
    ensures r.weak == CountWhere(conns, HasStatus(Weak))
    ensures r.offline == CountWhere(conns, HasStatus(Offline))
  {
    PartitionCount3(conns, HasStatus(Online), HasStatus(Weak), HasStatus(Offline));
    ConnectionCounts(FilterCount(conns, HasStatus(Online)), FilterCount(conns, HasStatus(Weak)), FilterCount(conns, HasStatus(Offline)))
  }

  /** `cameraConnections.reduce((acc, cam) => acc + cam.signalStrength, 0)`. */
  function SumStrength(conns: seq<Connection>): (sum: int)
    ensures (forall i :: 0 <= i < |conns| ==> 0 <= conns[i].signalStrength) ==> 0 <= sum
  {
    if conns == [] then 0 else conns[0].signalStrength + SumStrength(conns[1..])
  }

  function MinStrength(conns: seq<Connection>): int
    requires |conns| > 0
  {
    if |conns| == 1 then conns[0].signalStrength
    else var m := MinStrength(conns[1..]); if conns[0].signalStrength < m then conns[0].signalStrength else m
  }

  function MaxStrength(conns: seq<Connection>): int
    requires |conns| > 0
  {
    if |conns| == 1 then conns[0].signalStrength
    else var m := MaxStrength(conns[1..]); if conns[0].signalStrength > m then conns[0].signalStrength else m
  }

  /** Every strength is at least the minimum and at most the maximum. */
  lemma {:induction false} MinMaxBound(conns: seq<Connection>)
    requires |conns| > 0
    ensures forall i :: 0 <= i < |conns| ==>
      MinStrength(conns) <= conns[i].signalStrength <= MaxStrength(conns)
  {
    if |conns| > 1 {
      MinMaxBound(conns[1..]);
      assert forall i :: 1 <= i < |conns| ==> conns[i] == conns[1..][i - 1];
    }
  }

  /** The minimum and maximum are strengths of some entry. */
  lemma {:induction false} MinMaxAttained(conns: seq<Connection>)
    requires |conns| > 0
    ensures exists i :: 0 <= i < |conns| && conns[i].signalStrength == MinStrength(conns)
    ensures exists i :: 0 <= i < |conns| && conns[i].signalStrength == MaxStrength(conns)
  {
    if |conns| > 1 {
      MinMaxAttained(conns[1..]);
      var i :| 0 <= i < |conns[1..]| && conns[1..][i].signalStrength == MinStrength(conns[1..]);
      var j :| 0 <= j < |conns[1..]| && conns[1..][j].signalStrength == MaxStrength(conns[1..]);
      assert conns[i + 1].signalStrength == MinStrength(conns[1..]);
      assert conns[j + 1].signalStrength == MaxStrength(conns[1..]);
    } else {
      assert conns[0].signalStrength == MinStrength(conns);
    }
  }

  /** n * lo <= sum <= n * hi when every strength lies in [lo, hi]. */
  lemma {:induction false} SumWithin(conns: seq<Connection>, lo: int, hi: int)
    requires forall i :: 0 <= i < |conns| ==> lo <= conns[i].signalStrength <= hi
    ensures |conns| * lo <= SumStrength(conns) <= |conns| * hi
  {
    if conns != [] {
      var rest := conns[1..];
      assert forall i :: 0 <= i < |rest| ==> rest[i] == conns[i + 1];
      SumWithin(rest, lo, hi);
      Distrib(lo, |rest|, 1);
      Distrib(hi, |rest|, 1);
    }
  }

  lemma Distrib(a: int, b: int, c: int)
    ensures (b + c) * a == b * a + c * a
  {
  }

  lemma MulMonotone(n: nat, a: int, b: int)
    requires a <= b
    ensures n * a <= n * b
  {
  }

  /** avgSignal: `Math.round(sum / n)`. `Math.round` rounds halves up, and
      floor((2 * sum + n) / (2 * n)) is that rounding of sum / n in integer
      arithmetic: r - 1/2 <= sum / n < r + 1/2. The source divides by zero
      (and shows NaN) for an empty list, hence the precondition. */
  function AvgSignal(conns: seq<Connection>): (r: int)
    requires |conns| > 0
    ensures (2 * |conns|) * r <= 2 * SumStrength(conns) + |conns| < (2 * |conns|) * r + 2 * |conns|
  {
    (2 * SumStrength(conns) + |conns|) / (2 * |conns|)
  }

  /** The rounding step on its own: a rounded quotient of a sum lying in
      [n * lo, n * hi] lies in [lo, hi]. */
  lemma RoundWithin(n: int, sum: int, r: int, lo: int, hi: int)
    requires n > 0
    requires n * lo <= sum <= n * hi
    requires (2 * n) * r <= 2 * sum + n < (2 * n) * r + 2 * n
    ensures lo <= r <= hi
  {
    if r > hi {
      // (2n)(hi + 1) <= (2n) r <= 2 sum + n <= 2 n hi + n
      MulMonotone(2 * n, hi + 1, r);
      assert false;
    }
    if r < lo {
      // 2 n lo <= 2 sum < (2n) r + n <= (2n)(lo - 1) + n
      MulMonotone(2 * n, r, lo - 1);
      assert false;
    }
  }

  /** When every strength lies in [lo, hi], so does the rounded average. */
  lemma AvgSignalWithin(conns: seq<Connection>, lo: int, hi: int)
    requires |conns| > 0
    requires forall i :: 0 <= i < |conns| ==> lo <= conns[i].signalStrength <= hi
    ensures lo <= AvgSignal(conns) <= hi
  {
    SumWithin(conns, lo, hi);
    RoundWithin(|conns|, SumStrength(conns), AvgSignal(conns), lo, hi);
  }

  /** The average lies between the weakest and the strongest signal. */
  lemma AvgSignalBetweenMinMax(conns: seq<Connection>)
    requires |conns| > 0
    ensures MinStrength(conns) <= AvgSignal(conns) <= MaxStrength(conns)
  {
    MinMaxBound(conns);
    AvgSignalWithin(conns, MinStrength(conns), MaxStrength(conns));
  }

  /** Strengths given as percentages give a percentage on average. */
  lemma AvgSignalIsPercentage(conns: seq<Connection>)
    requires |conns| > 0
    requires forall i :: 0 <= i < |conns| ==> 0 <= conns[i].signalStrength <= 100
    ensures 0 <= AvgSignal(conns) <= 100
  {
    AvgSignalWithin(conns, 0, 100);
  }

  /** The three signal bands, strongest first. */
  datatype Band = Strong | Medium | Poor {
    function Rank(): nat {
      match this
      case Strong => 2
      case Medium => 1
      case Poor => 0
    }
  }

  /** The band rule both getters apply: >= 80, then >= 50, then the rest. */
  function BandOf(strength: int): (b: Band)
    ensures b == Strong <==> strength >= 80
    ensures b == Medium <==> 50 <= strength < 80
    ensures b == Poor <==> strength < 50
  {
    if strength >= 80 then Strong else if strength >= 50 then Medium else Poor
  }

  /** A higher strength never lands in a lower band. */
  lemma BandMonotone(s1: int, s2: int)
    requires s1 <= s2
    ensures BandOf(s1).Rank() <= BandOf(s2).Rank()
  {
  }

  datatype Glyph = Wifi | Signal | WifiOff

  datatype SignalIcon = SignalIcon(glyph: Glyph, color: string)

  /** getSignalIcon. */
  function GetSignalIcon(strength: int): (icon: SignalIcon)
    ensures icon.glyph == Wifi <==> BandOf(strength) == Strong
    ensures icon.glyph == Signal <==> BandOf(strength) == Medium
    ensures icon.glyph == WifiOff <==> BandOf(strength) == Poor
    ensures icon.color == "text-green-600" <==> BandOf(strength) == Strong
    ensures icon.color == "text-yellow-600" <==> BandOf(strength) == Medium
    ensures icon.color == "text-red-600" <==> BandOf(strength) == Poor
  {
    if strength >= 80 then SignalIcon(Wifi, "text-green-600")
    else if strength >= 50 then SignalIcon(Signal, "text-yellow-600")
    else SignalIcon(WifiOff, "text-red-600")
  }

  /** getSignalColor. */
  function GetSignalColor(strength: int): (color: string)
    ensures color == "bg-green-500" <==> BandOf(strength) == Strong
    ensures color == "bg-yellow-500" <==> BandOf(strength) == Medium
    ensures color == "bg-red-500" <==> BandOf(strength) == Poor
  {
    if strength >= 80 then "bg-green-500"
    else if strength >= 50 then "bg-yellow-500"
    else "bg-red-500"
  }

  /** The icon and the bar of one entry always show the same band: green
      with green, yellow with yellow, red with red. */
  lemma IconAgreesWithBar(strength: int)
    ensures GetSignalIcon(strength).glyph == Wifi <==> GetSignalColor(strength) == "bg-green-500"
    ensures GetSignalIcon(strength).glyph == Signal <==> GetSignalColor(strength) == "bg-yellow-500"
    ensures GetSignalIcon(strength).glyph == WifiOff <==> GetSignalColor(strength) == "bg-red-500"
    ensures GetSignalIcon(strength).color == "text-green-600" <==> GetSignalColor(strength) == "bg-green-500"
    ensures GetSignalIcon(strength).color == "text-red-600" <==> GetSignalColor(strength) == "bg-red-500"
  {
  }

  /** A badge is styled either by a `className` or by a `variant`. */
  datatype BadgeStyle = ClassName(name: string) | Variant(variant: BadgeVariant)

  datatype StatusBadge = StatusBadge(text: string, style: BadgeStyle)

  /** getStatusBadge takes the status as a string; an unknown string gives no
      badge. */
  function GetStatusBadge(status: string): (b: Option<StatusBadge>)
    ensures b == Some(StatusBadge("Online", ClassName("bg-green-600"))) <==> status == Online.Name()
    ensures b == Some(StatusBadge("Sinal Fraco", ClassName("bg-yellow-600"))) <==> status == Weak.Name()
    ensures b == Some(StatusBadge("Offline", Variant(Destructive))) <==> status == Offline.Name()
    ensures b.None? <==> status !in {Online.Name(), Weak.Name(), Offline.Name()}
  {
    if status == "online" then Some(StatusBadge("Online", ClassName("bg-green-600")))
    else if status == "weak" then Some(StatusBadge("Sinal Fraco", ClassName("bg-yellow-600")))
    else if status == "offline" then Some(StatusBadge("Offline", Variant(Destructive)))
    else None
  }

  /** Every declared status has a badge, and distinct statuses have distinct
      labels. */
  lemma EveryStatusHasBadge(s: ConnectionStatus, t: ConnectionStatus)
    ensures GetStatusBadge(s.Name()).Some?
    ensures GetStatusBadge(s.Name()) == GetStatusBadge(t.Name()) <==> s == t
  {
  }

  /** The connections the panel declares. */
  const SeedConnections: seq<Connection> := [
    Connection(1, "Câmera 1 - Baia A", Online, 95, 12),
    Connection(2, "Câmera 2 - Baia B", Online, 88, 18),
    Connection(3, "Câmera 3 - Baia C", Online, 92, 15),
    Connection(4, "Câmera 4 - Baia D", Weak, 45, 65),
    Connection(5, "Câmera 5 - Baia E", Online, 90, 14),
    Connection(6, "Câmera 6 - Baia F", Online, 87, 20),
    Connection(7, "Câmera 7 - Baia G", Online, 93, 11)
  ]

  /** The declared status is not the band: entry 4 is declared weak, so its
      badge reads "Sinal Fraco", while its strength 45 puts its icon and bar
      in the red band. */
  lemma DeclaredStatusIsNotBand()
    ensures SeedConnections[3].status == Weak
    ensures GetStatusBadge(SeedConnections[3].status.Name()).value.text == "Sinal Fraco"
    ensures BandOf(SeedConnections[3].signalStrength) == Poor
    ensures GetSignalIcon(SeedConnections[3].signalStrength).glyph == WifiOff
  {
  }

  lemma SeedReference(s: ConnectionStatus)
    ensures CountWhere(SeedConnections, HasStatus(s)) == match s case Online => 6 case Weak => 1 case Offline => 0
  {
    var c, p := SeedConnections, HasStatus(s);
    assert c[..0] == [] && c[..7] == c;
    CountWherePrefix(c, 1, p);
    CountWherePrefix(c, 2, p);
    CountWherePrefix(c, 3, p);
    CountWherePrefix(c, 4, p);
    CountWherePrefix(c, 5, p);
    CountWherePrefix(c, 6, p);
    CountWherePrefix(c, 7, p);
  }

  /** The seeded panel shows 6 online, 1 weak and 0 offline connections. */
  lemma SeedStatusCounts(s: ConnectionStatus)
    ensures FilterCount(SeedConnections, HasStatus(s)) == match s case Online => 6 case Weak => 1 case Offline => 0
  {
    SeedReference(s);
  }

  /** The seeded strengths add up to 590. */
  lemma SeedStrengthSum()
    ensures SumStrength(SeedConnections) == 590
  {
    var c := SeedConnections;
    assert SumStrength(c[6..]) == 93;
    assert SumStrength(c[5..]) == 87 + SumStrength(c[6..]);
    assert SumStrength(c[4..]) == 90 + SumStrength(c[5..]);
    assert SumStrength(c[3..]) == 45 + SumStrength(c[4..]);
    assert SumStrength(c[2..]) == 92 + SumStrength(c[3..]);
    assert SumStrength(c[1..]) == 88 + SumStrength(c[2..]);
  }

  /** The seeded panel shows an average signal of 84% (590 / 7 = 84.29). */
  lemma SeedAvgSignal()
    ensures AvgSignal(SeedConnections) == 84
  {
    SeedStrengthSum();
  }
}
