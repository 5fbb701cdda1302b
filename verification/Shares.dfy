/** Shares of a rented machine, in exact arithmetic. */
module Shares {

  const SECONDS_PER_HOUR := 3600.0

  /** One task's measurement on a machine: busy unit-seconds, its own window, and its wall-clock fallback. */
  datatype Usage = Usage(busySeconds: real, window: real, durationMs: real)
  {
    predicate Valid() { busySeconds >= 0.0 }

    function Window(): real { if window > 0.0 then window else durationMs / 1000.0 }
  }

  /** Machines bill by vCPU, by GPU, by the GPU (count machines' worth), or by one virtual GPU. */
  datatype Billing = PerInstance | PerGpuReserved | PerVgpu

  function InstanceShare(units: real, hourly: real, u: Usage): real {
    if units <= 0.0 || u.Window() <= 0.0 then 0.0
    else
      var share := u.busySeconds / (units * u.Window());
      share * (u.Window() / SECONDS_PER_HOUR) * hourly
  }

  function GpuReservedShare(units: real, hourly: real, u: Usage): real {
    if units <= 0.0 || u.Window() <= 0.0 then 0.0
    else
      var share := u.busySeconds / (units * u.Window());
      share * (u.Window() / SECONDS_PER_HOUR) * units * hourly
  }

  function VgpuShare(hourly: real, u: Usage): real {
    if u.Window() <= 0.0 then 0.0
    else
      var share := u.busySeconds / u.Window();
      share * (u.Window() / SECONDS_PER_HOUR) * hourly
  }

  function Cost(b: Billing, units: real, hourly: real, u: Usage): real {
    match b
    case PerInstance => InstanceShare(units, hourly, u)
    case PerGpuReserved => GpuReservedShare(units, hourly, u)
    case PerVgpu => VgpuShare(hourly, u)
  }

  function SumCost(b: Billing, units: real, hourly: real, us: seq<Usage>): real {
    if us == [] then 0.0 else Cost(b, units, hourly, us[0]) + SumCost(b, units, hourly, us[1..])
  }

  function SumBusy(us: seq<Usage>): real {
    if us == [] then 0.0 else us[0].busySeconds + SumBusy(us[1..])
  }

  lemma WindowCancels(a: real, k: real, w: real)
    requires k > 0.0 && w > 0.0
    ensures a / (k * w) * (w / SECONDS_PER_HOUR) == a / (k * SECONDS_PER_HOUR)
  {
    var x := a / (k * w);
    assert x * (k * w) == a;
    assert x * (k * w) == (x * w) * k;
    var y := x * (w / SECONDS_PER_HOUR);
    assert y * SECONDS_PER_HOUR == x * w;
    assert y * (k * SECONDS_PER_HOUR) == (y * SECONDS_PER_HOUR) * k == a;
  }

  /** The price of one unit-second; the window a task happened to be measured over drops out. */
  function UnitPrice(b: Billing, units: real, hourly: real): real
    requires units > 0.0
  {
    match b
    case PerInstance => hourly / (units * SECONDS_PER_HOUR)
    case PerGpuReserved => hourly / SECONDS_PER_HOUR
    case PerVgpu => hourly / SECONDS_PER_HOUR
  }

  lemma CostIsUnitPrice(b: Billing, units: real, hourly: real, u: Usage)
    requires units > 0.0
    ensures Cost(b, units, hourly, u) == if u.Window() > 0.0 then u.busySeconds * UnitPrice(b, units, hourly) else 0.0
  {
    if u.Window() > 0.0 {
      match b {
        case PerInstance => InstanceUnit(u.busySeconds, units, u.Window(), hourly);
        case PerGpuReserved => ReservedUnit(u.busySeconds, units, u.Window(), hourly);
        case PerVgpu => VgpuUnit(u.busySeconds, u.Window(), hourly);
      }
    }
  }

  lemma InstanceUnit(busy: real, units: real, w: real, hourly: real)
    requires units > 0.0 && w > 0.0
    ensures busy / (units * w) * (w / SECONDS_PER_HOUR) * hourly == busy * (hourly / (units * SECONDS_PER_HOUR))
  {
    WindowCancels(busy, units, w);
    ScaleQuotient(busy, units * SECONDS_PER_HOUR, hourly);
  }

  lemma ReservedUnit(busy: real, units: real, w: real, hourly: real)
    requires units > 0.0 && w > 0.0
    ensures busy / (units * w) * (w / SECONDS_PER_HOUR) * units * hourly == busy * (hourly / SECONDS_PER_HOUR)
  {
    WindowCancels(busy, units, w);
    var q := busy / (units * SECONDS_PER_HOUR);
    assert q * (units * SECONDS_PER_HOUR) == busy;
    assert (q * units) * SECONDS_PER_HOUR == q * (units * SECONDS_PER_HOUR);
    assert q * units == busy / SECONDS_PER_HOUR;
    ScaleQuotient(busy, SECONDS_PER_HOUR, hourly);
  }

  lemma VgpuUnit(busy: real, w: real, hourly: real)
    requires w > 0.0
    ensures busy / w * (w / SECONDS_PER_HOUR) * hourly == busy * (hourly / SECONDS_PER_HOUR)
  {
    assert 1.0 * w == w;
    WindowCancels(busy, 1.0, w);
    ScaleQuotient(busy, SECONDS_PER_HOUR, hourly);
  }

  lemma ScaleQuotient(a: real, d: real, h: real)
    requires d > 0.0
    ensures a / d * h == a * (h / d)
  {
    var q, r := a / d, h / d;
    assert q * d == a && r * d == h;
    assert q * h == q * (r * d) == (q * d) * r == a * r;
  }

  lemma Monotone(a: real, b: real, p: real)
    requires a <= b && p >= 0.0
    ensures a * p <= b * p
  {
  }

  lemma UnitPriceSign(b: Billing, units: real, hourly: real)
    requires units > 0.0 && hourly >= 0.0
    ensures UnitPrice(b, units, hourly) >= 0.0
  {
    if b.PerInstance? {
      var p := hourly / (units * SECONDS_PER_HOUR);
      assert p * (units * SECONDS_PER_HOUR) == hourly;
    }
  }

  /** Busy seconds at the unit price `p` bound the bill. */
  lemma {:induction false} SumWithinUnits(b: Billing, units: real, hourly: real, p: real, us: seq<Usage>)
    requires p >= 0.0
    requires forall u :: u in us ==> 0.0 <= Cost(b, units, hourly, u) <= u.busySeconds * p
    ensures SumCost(b, units, hourly, us) <= SumBusy(us) * p
  {
    if us != [] {
      assert us[0] in us;
      SumWithinUnits(b, units, hourly, p, us[1..]);
      assert us[0].busySeconds * p + SumBusy(us[1..]) * p == SumBusy(us) * p;
    }
  }

  lemma CostWithinUnit(b: Billing, units: real, hourly: real, p: real, u: Usage)
    requires units > 0.0 && hourly >= 0.0 && u.Valid() && p == UnitPrice(b, units, hourly)
    ensures p >= 0.0 && 0.0 <= Cost(b, units, hourly, u) <= u.busySeconds * p
  {
    CostIsUnitPrice(b, units, hourly, u);
    UnitPriceSign(b, units, hourly);
    Monotone(0.0, u.busySeconds, p);
  }

  lemma CostsWithinUnit(b: Billing, units: real, hourly: real, p: real, us: seq<Usage>)
    requires units > 0.0 && hourly >= 0.0 && p == UnitPrice(b, units, hourly)
    requires forall u :: u in us ==> u.Valid()
    ensures p >= 0.0 && forall u :: u in us ==> 0.0 <= Cost(b, units, hourly, u) <= u.busySeconds * p
  {
    UnitPriceSign(b, units, hourly);
    forall u | u in us ensures 0.0 <= Cost(b, units, hourly, u) <= u.busySeconds * p {
      CostWithinUnit(b, units, hourly, p, u);
    }
  }

  /** The bill of tasks whose busy time fits into `capacity` units for T seconds. */
  lemma Billed(b: Billing, units: real, hourly: real, us: seq<Usage>, t: real, p: real, capacity: real, price: real)
    requires p >= 0.0 && forall u :: u in us ==> 0.0 <= Cost(b, units, hourly, u) <= u.busySeconds * p
    requires SumBusy(us) <= capacity * t && capacity * p == price / SECONDS_PER_HOUR
    ensures SumCost(b, units, hourly, us) <= price * (t / SECONDS_PER_HOUR)
  {
    SumWithinUnits(b, units, hourly, p, us);
    WithinPrice(SumCost(b, units, hourly, us), SumBusy(us), p, capacity, t, price);
  }

  /**
   A shared machine is never over-billed: however many tasks used it over whatever windows, if
   their busy vCPU- or GPU-seconds fit into `units` for T seconds, their costs fit into its price for T.
   */
  lemma InstanceNeverOverBilled(units: real, hourly: real, us: seq<Usage>, t: real)
    requires units > 0.0 && hourly >= 0.0 && forall u :: u in us ==> u.Valid()
    requires SumBusy(us) <= units * t
    ensures SumCost(PerInstance, units, hourly, us) <= hourly * (t / SECONDS_PER_HOUR)
  {
    var p := hourly / (units * SECONDS_PER_HOUR);
    assert p * (units * SECONDS_PER_HOUR) == hourly;
    assert (units * p) * SECONDS_PER_HOUR == hourly;
    CostsWithinUnit(PerInstance, units, hourly, p, us);
    Billed(PerInstance, units, hourly, us, t, p, units, hourly);
  }

  /** Reserved GPUs: the rate is per GPU, so the machine's price is the rate times the count. */
  lemma ReservedNeverOverBilled(units: real, hourly: real, us: seq<Usage>, t: real)
    requires units > 0.0 && hourly >= 0.0 && forall u :: u in us ==> u.Valid()
    requires SumBusy(us) <= units * t
    ensures SumCost(PerGpuReserved, units, hourly, us) <= (units * hourly) * (t / SECONDS_PER_HOUR)
  {
    var p := hourly / SECONDS_PER_HOUR;
    assert (units * p) * SECONDS_PER_HOUR == units * hourly;
    CostsWithinUnit(PerGpuReserved, units, hourly, p, us);
    Billed(PerGpuReserved, units, hourly, us, t, p, units, units * hourly);
  }

  /** One virtual GPU offers one GPU-second per second, whatever count was recorded. */
  lemma VgpuNeverOverBilled(units: real, hourly: real, us: seq<Usage>, t: real)
    requires units > 0.0 && hourly >= 0.0 && forall u :: u in us ==> u.Valid()
    requires SumBusy(us) <= t
    ensures SumCost(PerVgpu, units, hourly, us) <= hourly * (t / SECONDS_PER_HOUR)
  {
    var p := hourly / SECONDS_PER_HOUR;
    CostsWithinUnit(PerVgpu, units, hourly, p, us);
    Billed(PerVgpu, units, hourly, us, t, p, 1.0, hourly);
  }

  lemma WithinPrice(sum: real, busy: real, p: real, capacity: real, t: real, price: real)
    requires sum <= busy * p && busy <= capacity * t && p >= 0.0
    requires capacity * p == price / SECONDS_PER_HOUR
    ensures sum <= price * (t / SECONDS_PER_HOUR)
  {
    Monotone(busy, capacity * t, p);
    var m := price / SECONDS_PER_HOUR;
    assert (capacity * t) * p == (capacity * p) * t == m * t;
    ScaleQuotient(price, SECONDS_PER_HOUR, t);
  }

  /** Unit-seconds a machine offers per second, and its price per hour. */
  function Capacity(b: Billing, units: real): real { if b.PerVgpu? then 1.0 else units }

  function MachinePrice(b: Billing, units: real, hourly: real): real { if b.PerGpuReserved? then units * hourly else hourly }

  lemma CapacityPrice(b: Billing, units: real, hourly: real)
    requires units > 0.0 && hourly > 0.0
    ensures UnitPrice(b, units, hourly) > 0.0
    ensures Capacity(b, units) * UnitPrice(b, units, hourly) == MachinePrice(b, units, hourly) / SECONDS_PER_HOUR
  {
    var p := UnitPrice(b, units, hourly);
    if b.PerInstance? {
      assert p * (units * SECONDS_PER_HOUR) == hourly;
      assert (units * p) * SECONDS_PER_HOUR == hourly;
    } else {
      assert (units * p) * SECONDS_PER_HOUR == units * hourly;
    }
  }

  predicate Metered(us: seq<Usage>) { forall u :: u in us && u.busySeconds > 0.0 ==> u.Window() > 0.0 }

  lemma CostIfMetered(b: Billing, units: real, hourly: real, p: real, u: Usage)
    requires units > 0.0 && p == UnitPrice(b, units, hourly) > 0.0 && u.Valid()
    ensures Cost(b, units, hourly, u) <= u.busySeconds * p
    ensures Cost(b, units, hourly, u) == u.busySeconds * p <==> (u.busySeconds > 0.0 ==> u.Window() > 0.0)
  {
    CostIsUnitPrice(b, units, hourly, u);
    hide Cost, UnitPrice;
    TimesPositive(0.0, u.busySeconds, p);
  }

  lemma Spread(x: real, y: real, p: real)
    ensures (x + y) * p == x * p + y * p
  {
  }

  /** The cost of a task at the unit price `p`: its busy time, unless it has no window. */
  predicate AtUnitPrice(cost: real, p: real, u: Usage) {
    cost <= u.busySeconds * p && (cost == u.busySeconds * p <==> (u.busySeconds > 0.0 ==> u.Window() > 0.0))
  }

  /** Busy time is billed at the unit price, except that of tasks without a window. */
  lemma {:induction false} BilledIffMetered(b: Billing, units: real, hourly: real, p: real, us: seq<Usage>)
    requires forall u :: u in us ==> AtUnitPrice(Cost(b, units, hourly, u), p, u)
    ensures SumCost(b, units, hourly, us) <= SumBusy(us) * p
    ensures SumCost(b, units, hourly, us) == SumBusy(us) * p <==> Metered(us)
  {
    hide *;
    if us == [] {
      SumNone(b, units, hourly);
    } else {
      var u, rest := us[0], us[1..];
      assert us == [u] + rest && AtUnitPrice(Cost(b, units, hourly, u), p, u);
      SumCons(b, units, hourly, u, rest);
      MeteredCons(u, rest);
      BilledIffMetered(b, units, hourly, p, rest);
      OneMore(Cost(b, units, hourly, u), p, u, SumCost(b, units, hourly, rest), SumBusy(rest), SumBusy(us), Metered(rest));
    }
  }

  lemma SumNone(b: Billing, units: real, hourly: real)
    ensures SumCost(b, units, hourly, []) == SumBusy([]) == 0.0 && Metered([])
  {
  }

  lemma SumCons(b: Billing, units: real, hourly: real, u: Usage, rest: seq<Usage>)
    ensures SumCost(b, units, hourly, [u] + rest) == Cost(b, units, hourly, u) + SumCost(b, units, hourly, rest)
    ensures SumBusy([u] + rest) == u.busySeconds + SumBusy(rest)
  {
    assert ([u] + rest)[1..] == rest;
    hide Cost;
  }

  lemma MeteredCons(u: Usage, rest: seq<Usage>)
    ensures Metered([u] + rest) <==> Metered(rest) && (u.busySeconds > 0.0 ==> u.Window() > 0.0)
  {
    assert u in [u] + rest;
  }

  lemma OneMore(cost: real, p: real, u: Usage, others: real, busy: real, total: real, metered: bool)
    requires AtUnitPrice(cost, p, u) && others <= busy * p && (others == busy * p <==> metered)
    requires total == u.busySeconds + busy
    ensures cost + others <= total * p
    ensures cost + others == total * p <==> metered && (u.busySeconds > 0.0 ==> u.Window() > 0.0)
  {
    Spread(u.busySeconds, busy, p);
  }

  lemma AllAtUnitPrice(b: Billing, units: real, hourly: real, us: seq<Usage>)
    requires units > 0.0 && hourly > 0.0 && forall u :: u in us ==> u.Valid()
    ensures forall u :: u in us ==> AtUnitPrice(Cost(b, units, hourly, u), UnitPrice(b, units, hourly), u)
  {
    CapacityPrice(b, units, hourly);
    forall u | u in us ensures AtUnitPrice(Cost(b, units, hourly, u), UnitPrice(b, units, hourly), u) {
      CostIfMetered(b, units, hourly, UnitPrice(b, units, hourly), u);
    }
  }

  /** A machine is billed in full exactly when it was never idle and every busy task has a window. */
  lemma FullyBilledIff(b: Billing, units: real, hourly: real, us: seq<Usage>, t: real)
    requires units > 0.0 && hourly > 0.0 && forall u :: u in us ==> u.Valid()
    requires SumBusy(us) <= Capacity(b, units) * t
    ensures SumCost(b, units, hourly, us) == MachinePrice(b, units, hourly) * (t / SECONDS_PER_HOUR)
            <==> SumBusy(us) == Capacity(b, units) * t && Metered(us)
  {
    hide *;
    var p := UnitPrice(b, units, hourly);
    CapacityPrice(b, units, hourly);
    AllAtUnitPrice(b, units, hourly, us);
    BilledIffMetered(b, units, hourly, p, us);
    FullPrice(Capacity(b, units), t, p, MachinePrice(b, units, hourly));
    TimesPositive(SumBusy(us), Capacity(b, units) * t, p);
  }

  lemma FullPrice(capacity: real, t: real, p: real, price: real)
    requires capacity * p == price / SECONDS_PER_HOUR
    ensures (capacity * t) * p == price * (t / SECONDS_PER_HOUR)
  {
    ScaleQuotient(price, SECONDS_PER_HOUR, t);
    assert (capacity * t) * p == (capacity * p) * t;
  }

  lemma TimesPositive(a: real, b: real, p: real)
    requires a <= b && p > 0.0
    ensures a * p <= b * p && (a * p == b * p <==> a == b)
  {
    if a < b { assert (b - a) * p > 0.0; }
  }
}
