/** New mobility services and ownership models: per-vehicle service
    economics, the clip of a service's adoption into [0, 1], the evolution
    of the five ownership models' shares (the leasing cap and post-peak
    decline, and the normalisation that makes the shares sum to 1), and the
    resolution of region and segment arguments given by name. The logistic
    curves and the random noise are parameters. */
module NewMobility {
  import opened Wrappers
  import opened Numeric

  datatype MobilityServiceType = RideHailing | CarSharing | Robotaxi | SubscriptionService

  datatype OwnershipModel = Traditional | Leasing | Subscription | UsageBased | MobilityAsAService

  datatype Region = NorthAmerica | Europe | China | JapanKorea | EmergingMarkets

  datatype VehicleSegment = CityCar | Compact | Midsize | Premium | Luxury | CommercialLight | CommercialHeavy

  const AllRegions: seq<Region> := [NorthAmerica, Europe, China, JapanKorea, EmergingMarkets]

  const AllSegments: seq<VehicleSegment> :=
    [CityCar, Compact, Midsize, Premium, Luxury, CommercialLight, CommercialHeavy]

  // ---------------------------------------------------------------------
  // Service adoption

  /** Base adoption rate of each service. */
  function BaseAdoption(s: MobilityServiceType): real
  {
    match s
    case RideHailing => 0.15
    case CarSharing => 0.08
    case Robotaxi => 0.02
    case SubscriptionService => 0.05
  }

  /** Regional adoption factor of each service. */
  function ServiceRegionFactor(s: MobilityServiceType, r: Region): real
  {
    match s
    case RideHailing =>
      (match r case NorthAmerica => 1.0 case Europe => 0.9 case China => 1.2 case JapanKorea => 0.8 case EmergingMarkets => 0.7)
    case CarSharing =>
      (match r case NorthAmerica => 0.9 case Europe => 1.2 case China => 0.8 case JapanKorea => 0.7 case EmergingMarkets => 0.6)
    case Robotaxi =>
      (match r case NorthAmerica => 1.1 case Europe => 1.0 case China => 1.3 case JapanKorea => 0.9 case EmergingMarkets => 0.5)
    case SubscriptionService =>
      (match r case NorthAmerica => 1.0 case Europe => 0.9 case China => 1.1 case JapanKorea => 0.7 case EmergingMarkets => 0.4)
  }

  /** Segment adoption factor of each service. */
  function ServiceSegmentFactor(s: MobilityServiceType, v: VehicleSegment): real
  {
    match s
    case RideHailing =>
      (match v case CityCar => 1.2 case Compact => 1.1 case Midsize => 1.0 case Premium => 0.9
               case Luxury => 0.8 case CommercialLight => 0.5 case CommercialHeavy => 0.3)
    case CarSharing =>
      (match v case CityCar => 1.3 case Compact => 1.1 case Midsize => 0.9 case Premium => 0.7
               case Luxury => 0.5 case CommercialLight => 0.8 case CommercialHeavy => 0.4)
    case Robotaxi =>
      (match v case CityCar => 1.4 case Compact => 1.2 case Midsize => 1.0 case Premium => 0.6
               case Luxury => 0.4 case CommercialLight => 0.3 case CommercialHeavy => 0.2)
    case SubscriptionService =>
      (match v case CityCar => 0.8 case Compact => 1.0 case Midsize => 1.2 case Premium => 1.3
               case Luxury => 1.1 case CommercialLight => 0.9 case CommercialHeavy => 0.7)
  }

  /** A service's adoption per year: the logistic curve's value scaled by
      the base rate and the region and segment factors, plus noise, clipped
      into [0, 1]. */
  function ServiceAdoption(s: MobilityServiceType, r: Region, v: VehicleSegment, years: seq<int>,
                           curve: int -> real, noise: nat -> real): (a: seq<real>)
    ensures |a| == |years|
    ensures forall t :: 0 <= t < |years| ==> ClippedFrom(a[t], RawAdoption(s, r, v, years[t], curve, noise(t)))
  {
    seq(|years|, t requires 0 <= t < |years| => Clip(RawAdoption(s, r, v, years[t], curve, noise(t))))
  }

  /** The value is the raw value clipped into [0, 1]. */
  predicate ClippedFrom(c: real, raw: real)
  {
    && 0.0 <= c <= 1.0
    && (0.0 <= raw <= 1.0 ==> c == raw)
    && (raw < 0.0 ==> c == 0.0)
    && (raw > 1.0 ==> c == 1.0)
  }

  /** A year's adoption before the clip. */
  function RawAdoption(s: MobilityServiceType, r: Region, v: VehicleSegment, year: int, curve: int -> real, noise: real): real
  {
    curve(year) * BaseAdoption(s) * ServiceRegionFactor(s, r) * ServiceSegmentFactor(s, v) + noise
  }

  /** The clip into [0, 1]. */
  function Clip(x: real): (c: real)
    ensures 0.0 <= c <= 1.0
    ensures 0.0 <= x <= 1.0 ==> c == x
    ensures x < 0.0 ==> c == 0.0
    ensures x > 1.0 ==> c == 1.0
  {
    Clamp(x, 0.0, 1.0)
  }

  // ---------------------------------------------------------------------
  // Service economics

  /** Revenue per kilometre (USD). */
  function RevenueRate(s: MobilityServiceType): real
  {
    match s
    case RideHailing => 0.50
    case CarSharing => 0.30
    case Robotaxi => 0.40
    case SubscriptionService => 0.25
  }

  /** Cost per kilometre (USD). */
  function CostRate(s: MobilityServiceType): real
  {
    match s
    case RideHailing => 0.35
    case CarSharing => 0.20
    case Robotaxi => 0.15
    case SubscriptionService => 0.30
  }

  /** The default distance a vehicle covers in a year (km). */
  const DefaultAnnualKm: real := 15000.0

  /** The fleet the adoption rate is scaled to. */
  const FleetSize: real := 1000000.0

  datatype Economics = Economics(vehicles: real, revenueMillions: real, costMillions: real,
                                 profitMillions: real, margin: real)

  /** One year's economics of a service at the given adoption rate: vehicles
      in a fleet of a million, revenue and cost in millions, their
      difference, and the margin, which is 0 where there is no revenue. */
  function ServiceEconomics(s: MobilityServiceType, adoption: real, annualKm: real): (e: Economics)
    ensures e.vehicles == adoption * FleetSize
    ensures e.revenueMillions == adoption * RevenueRate(s) * annualKm
    ensures e.costMillions == adoption * CostRate(s) * annualKm
    ensures e.profitMillions == e.revenueMillions - e.costMillions
    ensures e.revenueMillions != 0.0 ==> e.margin * e.revenueMillions == e.profitMillions
    ensures e.revenueMillions == 0.0 ==> e.margin == 0.0
  {
    var vehicles := adoption * FleetSize;
    var revenuePerVehicle := RevenueRate(s) * annualKm;
    var costPerVehicle := CostRate(s) * annualKm;
    var revenue := vehicles * revenuePerVehicle / FleetSize;
    var cost := vehicles * costPerVehicle / FleetSize;
    var profit := revenue - cost;
    MillionsCancel(adoption, RevenueRate(s), annualKm);
    MillionsCancel(adoption, CostRate(s), annualKm);
    Economics(vehicles, revenue, cost, profit, if revenue != 0.0 then profit / revenue else 0.0)
  }

  lemma MillionsCancel(adoption: real, rate: real, km: real)
    ensures adoption * FleetSize * (rate * km) / FleetSize == adoption * rate * km
  {
    var x := adoption * rate * km;
    assert adoption * FleetSize * (rate * km) == x * FleetSize;
  }

  /** The economics of every year of an adoption series. */
  function EconomicsSeries(s: MobilityServiceType, adoption: seq<real>, annualKm: real): (es: seq<Economics>)
    ensures |es| == |adoption|
    ensures forall t :: 0 <= t < |adoption| ==> es[t] == ServiceEconomics(s, adoption[t], annualKm)
  {
    seq(|adoption|, t requires 0 <= t < |adoption| => ServiceEconomics(s, adoption[t], annualKm))
  }

  /** The economics the simulation run computes for an adoption series: the
      default distance of DefaultAnnualKm kilometres per vehicle a year. */
  function DefaultEconomics(s: MobilityServiceType, adoption: seq<real>): (es: seq<Economics>)
    ensures |es| == |adoption|
    ensures forall t :: 0 <= t < |adoption| ==>
              && es[t].revenueMillions == adoption[t] * RevenueRate(s) * 15000.0
              && es[t].costMillions == adoption[t] * CostRate(s) * 15000.0
  {
    EconomicsSeries(s, adoption, DefaultAnnualKm)
  }

  /** Wherever there is revenue, the margin is the per-kilometre margin of
      the service, whatever the adoption and the distance. */
  lemma MarginIsRateMargin(s: MobilityServiceType, adoption: real, annualKm: real)
    requires adoption != 0.0 && annualKm != 0.0
    ensures ServiceEconomics(s, adoption, annualKm).margin == 1.0 - CostRate(s) / RevenueRate(s)
  {
    var e := ServiceEconomics(s, adoption, annualKm);
    var x := adoption * annualKm;
    assert x != 0.0;
    assert e.revenueMillions == RevenueRate(s) * x;
    assert e.profitMillions == (RevenueRate(s) - CostRate(s)) * x;
    assert e.revenueMillions != 0.0;
    assert e.margin * (RevenueRate(s) * x) == (RevenueRate(s) - CostRate(s)) * x;
    assert e.margin * RevenueRate(s) == RevenueRate(s) - CostRate(s);
  }

  /** With positive adoption and distance, every service but subscription
      earns a profit and subscription runs at a loss. */
  lemma ProfitSign(s: MobilityServiceType, adoption: real, annualKm: real)
    requires adoption > 0.0 && annualKm > 0.0
    ensures s != SubscriptionService <==> ServiceEconomics(s, adoption, annualKm).profitMillions > 0.0
  {
    var x := adoption * annualKm;
    assert x > 0.0;
    var e := ServiceEconomics(s, adoption, annualKm);
    assert e.profitMillions == (RevenueRate(s) - CostRate(s)) * x;
  }

  // ---------------------------------------------------------------------
  // Ownership evolution

  /** The ownership models in the order their shares are computed. */
  const Models: seq<OwnershipModel> := [Traditional, Leasing, Subscription, UsageBased, MobilityAsAService]

  /** Regional variation of traditional ownership. */
  function TraditionalRegionFactor(r: Region): (f: real)
    ensures 0.6 <= f <= 1.0
  {
    match r
    case NorthAmerica => 1.0
    case Europe => 0.9
    case China => 0.8
    case JapanKorea => 0.7
    case EmergingMarkets => 0.6
  }

  /** Traditional ownership: a base share of 0.8 declining by 3 % a year
      from 2020, scaled by the region. */
  function TraditionalShare(r: Region, year: int): (s: real)
    ensures s > 0.0
    ensures year >= 2020 ==> s <= 0.8 * TraditionalRegionFactor(r)
  {
    TraditionalDeclineInUnit(year);
    0.8 * IntPow(0.97, year - 2020) * TraditionalRegionFactor(r)
  }

  lemma TraditionalDeclineInUnit(year: int)
    ensures year >= 2020 ==> IntPow(0.97, year - 2020) <= 1.0
  {
    if year >= 2020 {
      PowInUnit(0.97, year - 2020);
    }
  }

  /** Leasing's base share and the year after which it declines. */
  const LeaseBase: real := 0.15
  const LeasePeakYear: int := 2030

  /** Leasing before the decline: 1 % growth a year from 2020, capped at
      1.5 times the base share. */
  function LeaseBeforeDecline(year: int): (s: real)
    ensures 0.0 < s <= 1.5 * LeaseBase
  {
    Min(LeaseBase * IntPow(1.01, year - 2020), LeaseBase * 1.5)
  }

  /** The decline factor applied in a year after the peak. */
  function LeaseDecline(year: int): (d: real)
    requires year > LeasePeakYear
    ensures 0.0 < d < 1.0
  {
    PowPositive(0.98, year - LeasePeakYear);
    PowBelowOne(0.98, year - LeasePeakYear);
    Pow(0.98, year - LeasePeakYear)
  }

  /** Leasing's share: untouched up to the peak year, reduced by 2 % a year
      compounded after it. */
  function LeaseShare(year: int): (s: real)
    ensures 0.0 < s <= 1.5 * LeaseBase
    ensures year <= LeasePeakYear ==> s == LeaseBeforeDecline(year)
    ensures year > LeasePeakYear ==> s < LeaseBeforeDecline(year)
  {
    var before := LeaseBeforeDecline(year);
    var f := DeclineFactor(year);
    Shrink(before, f);
    before * f
  }

  /** The factor the post-peak decline applies: 1 up to the peak year. */
  function DeclineFactor(year: int): (f: real)
    ensures 0.0 < f <= 1.0
    ensures year <= LeasePeakYear <==> f == 1.0
  {
    if year > LeasePeakYear then LeaseDecline(year) else 1.0
  }

  /** Scaling a positive value by a factor in (0,1] keeps it positive and
      never raises it; a factor below 1 lowers it. */
  lemma Shrink(x: real, f: real)
    requires x > 0.0 && 0.0 < f <= 1.0
    ensures 0.0 < x * f <= x
    ensures f == 1.0 ==> x * f == x
    ensures f < 1.0 ==> x * f < x
  {
    if f < 1.0 {
      assert x * f < x * 1.0;
    }
  }

  /** A base strictly between 0 and 1 gives a power below 1 for any positive exponent. */
  lemma {:induction false} PowBelowOne(b: real, n: nat)
    requires 0.0 < b < 1.0 && n > 0
    ensures Pow(b, n) < 1.0
  {
    PowInUnit(b, n - 1);
    assert Pow(b, n) == b * Pow(b, n - 1);
  }

  /** The leasing column over the years, with the decline applied in place
      to the years after the peak. */
  method LeaseColumn(years: seq<int>) returns (col: seq<real>)
    ensures |col| == |years|
    ensures forall t :: 0 <= t < |years| ==> col[t] == LeaseShare(years[t])
  {
    var lease := new real[|years|](t requires 0 <= t < |years| => LeaseBeforeDecline(years[t]));
    var t := 0;
    while t < lease.Length
      invariant 0 <= t <= lease.Length == |years|
      invariant DeclinedUpTo(lease[..], years, t)
    {
      ghost var before := lease[..];
      assert lease[t] == before[t] == LeaseBeforeDecline(years[t]);
      LeaseShareAt(years[t]);
      if years[t] > LeasePeakYear {
        lease[t] := lease[t] * LeaseDecline(years[t]);
      }
      assert lease[t] == LeaseShare(years[t]);
      assert lease[..] == before[t := LeaseShare(years[t])];
      DeclineStep(before, lease[..], years, t);
      t := t + 1;
    }
    col := lease[..];
  }

  /** Entries before t hold the leasing share, the rest the pre-decline share. */
  predicate DeclinedUpTo(xs: seq<real>, years: seq<int>, t: nat)
  {
    && |xs| == |years| && t <= |xs|
    && (forall u :: 0 <= u < t ==> xs[u] == LeaseShare(years[u]))
    && (forall u :: t <= u < |xs| ==> xs[u] == LeaseBeforeDecline(years[u]))
  }

  lemma DeclineStep(before: seq<real>, after: seq<real>, years: seq<int>, t: nat)
    requires DeclinedUpTo(before, years, t) && t < |before|
    requires after == before[t := LeaseShare(years[t])]
    ensures DeclinedUpTo(after, years, t + 1)
  {
  }

  /** The leasing share is the pre-decline share, times the decline factor
      after the peak year. */
  lemma LeaseShareAt(year: int)
    ensures year <= LeasePeakYear ==> LeaseShare(year) == LeaseBeforeDecline(year)
    ensures year > LeasePeakYear ==> LeaseShare(year) == LeaseBeforeDecline(year) * LeaseDecline(year)
  {
  }

  /** The logistic factor of a saturating model in a year. */
  type Logistic = (OwnershipModel, int) -> real

  /** The saturating models' logistic factors are non-negative in the year. */
  predicate NonNegativeCurve(logistic: Logistic, year: int)
  {
    logistic(Subscription, year) >= 0.0 && logistic(UsageBased, year) >= 0.0 && logistic(MobilityAsAService, year) >= 0.0
  }

  /** A model's share before normalisation. The saturating models reach
      their saturation share (15 %, 10 % and 20 %) as the logistic factor
      approaches 1. */
  function RawShare(m: OwnershipModel, r: Region, year: int, logistic: Logistic): (s: real)
    ensures NonNegativeCurve(logistic, year) ==> s >= 0.0
    ensures m == Traditional || m == Leasing ==> s > 0.0
  {
    match m
    case Traditional => TraditionalShare(r, year)
    case Leasing => LeaseShare(year)
    case Subscription => 0.15 * logistic(m, year)
    case UsageBased => 0.1 * logistic(m, year)
    case MobilityAsAService => 0.2 * logistic(m, year)
  }

  /** The sum of the five raw shares. */
  function TotalShare(r: Region, year: int, logistic: Logistic): (total: real)
    ensures NonNegativeCurve(logistic, year) ==> total > 0.0
  {
    RawShare(Traditional, r, year, logistic) + RawShare(Leasing, r, year, logistic)
    + RawShare(Subscription, r, year, logistic) + RawShare(UsageBased, r, year, logistic)
    + RawShare(MobilityAsAService, r, year, logistic)
  }

  /** The column holds the model's raw share for every year. */
  predicate RawColumn(col: seq<real>, m: OwnershipModel, years: seq<int>, r: Region, logistic: Logistic)
  {
    |col| == |years| && forall t :: 0 <= t < |years| ==> col[t] == RawShare(m, r, years[t], logistic)
  }

  /** The column holds the model's share of the total for every year. */
  predicate NormalisedColumn(col: seq<real>, m: OwnershipModel, years: seq<int>, r: Region, logistic: Logistic)
    requires forall t :: 0 <= t < |years| ==> NonNegativeCurve(logistic, years[t])
  {
    |col| == |years| &&
    forall t :: 0 <= t < |years| ==> col[t] == RawShare(m, r, years[t], logistic) / TotalShare(r, years[t], logistic)
  }

  /** The position of a model in the order the shares are computed. */
  function ModelIndex(m: OwnershipModel): (i: nat)
    ensures i < |Models| && Models[i] == m
  {
    match m
    case Traditional => 0
    case Leasing => 1
    case Subscription => 2
    case UsageBased => 3
    case MobilityAsAService => 4
  }

  lemma ModelAt(i: nat)
    requires i < |Models|
    ensures ModelIndex(Models[i]) == i
  {
    if i == 0 {
    } else if i == 1 {
    } else if i == 2 {
    } else if i == 3 {
    } else {
    }
  }

  /** Every model's raw share per year. */
  method RawShares(years: seq<int>, r: Region, logistic: Logistic) returns (raw: map<OwnershipModel, seq<real>>)
    ensures forall m: OwnershipModel :: m in raw
    ensures forall m: OwnershipModel {:trigger raw[m]} :: RawColumn(raw[m], m, years, r, logistic)
  {
    var n := |years|;
    var lease := LeaseColumn(years);
    raw := map[
      Traditional := seq(n, t requires 0 <= t < n => TraditionalShare(r, years[t])),
      Leasing := lease,
      Subscription := seq(n, t requires 0 <= t < n => 0.15 * logistic(Subscription, years[t])),
      UsageBased := seq(n, t requires 0 <= t < n => 0.1 * logistic(UsageBased, years[t])),
      MobilityAsAService := seq(n, t requires 0 <= t < n => 0.2 * logistic(MobilityAsAService, years[t]))];
    forall m: OwnershipModel
      ensures m in raw && RawColumn(raw[m], m, years, r, logistic)
    {
      match m
      case Traditional =>
      case Leasing =>
      case Subscription =>
      case UsageBased =>
      case MobilityAsAService =>
    }
  }

  /** The yearly totals of the raw shares, all positive. */
  function Totals(years: seq<int>, r: Region, logistic: Logistic): (total: seq<real>)
    requires forall t :: 0 <= t < |years| ==> NonNegativeCurve(logistic, years[t])
    ensures |total| == |years|
    ensures forall t :: 0 <= t < |years| ==> total[t] == TotalShare(r, years[t], logistic) && total[t] > 0.0
  {
    seq(|years|, t requires 0 <= t < |years| => TotalShare(r, years[t], logistic))
  }

  /** Each entry of the column divided by the matching total. */
  function DivideBy(col: seq<real>, total: seq<real>): (q: seq<real>)
    requires |col| == |total| && forall t :: 0 <= t < |total| ==> total[t] != 0.0
    ensures |q| == |col| && forall t :: 0 <= t < |col| ==> q[t] == col[t] / total[t]
  {
    seq(|col|, t requires 0 <= t < |col| => col[t] / total[t])
  }

  /** Dividing a model's raw column by the totals normalises it. */
  lemma DivideNormalises(col: seq<real>, m: OwnershipModel, years: seq<int>, r: Region, logistic: Logistic)
    requires forall t :: 0 <= t < |years| ==> NonNegativeCurve(logistic, years[t])
    requires RawColumn(col, m, years, r, logistic)
    ensures NormalisedColumn(DivideBy(col, Totals(years, r, logistic)), m, years, r, logistic)
  {
  }

  /** Every model's share per year, each divided by the year's total. The
      vehicle segment of the source's signature does not enter the
      computation and is not a parameter here. */
  method SimulateOwnershipEvolution(years: seq<int>, r: Region, logistic: Logistic)
    returns (results: map<OwnershipModel, seq<real>>)
    requires forall t :: 0 <= t < |years| ==> NonNegativeCurve(logistic, years[t])
    ensures forall m: OwnershipModel :: m in results
    ensures forall m: OwnershipModel {:trigger results[m]} :: NormalisedColumn(results[m], m, years, r, logistic)
  {
    results := RawShares(years, r, logistic);
    var total := Totals(years, r, logistic);
    var i := 0;
    while i < |Models|
      invariant 0 <= i <= |Models|
      invariant forall m: OwnershipModel :: m in results
      invariant forall m :: ModelIndex(m) < i ==> NormalisedColumn(results[m], m, years, r, logistic)
      invariant forall m :: ModelIndex(m) >= i ==> RawColumn(results[m], m, years, r, logistic)
    {
      NormaliseStep(results, years, r, logistic, total, i);
      results := results[Models[i] := DivideBy(results[Models[i]], total)];
      i := i + 1;
    }
  }

  /** Normalising the i-th model's column moves it from raw to normalised
      and leaves every other column as it was. */
  lemma NormaliseStep(results: map<OwnershipModel, seq<real>>, years: seq<int>, r: Region,
                      logistic: Logistic, total: seq<real>, i: nat)
    requires forall t :: 0 <= t < |years| ==> NonNegativeCurve(logistic, years[t])
    requires total == Totals(years, r, logistic) && i < |Models|
    requires forall m: OwnershipModel :: m in results
    requires forall m :: ModelIndex(m) < i ==> NormalisedColumn(results[m], m, years, r, logistic)
    requires forall m :: ModelIndex(m) >= i ==> RawColumn(results[m], m, years, r, logistic)
    ensures RawColumn(results[Models[i]], Models[i], years, r, logistic)
    ensures var next := results[Models[i] := DivideBy(results[Models[i]], total)];
            && (forall m :: ModelIndex(m) < i + 1 ==> NormalisedColumn(next[m], m, years, r, logistic))
            && (forall m :: ModelIndex(m) >= i + 1 ==> RawColumn(next[m], m, years, r, logistic))
  {
    var m := Models[i];
    ModelAt(i);
    DivideNormalises(results[m], m, years, r, logistic);
  }

  /** After normalisation the five shares of a year sum to 1. */
  lemma NormalisedSharesSumToOne(results: map<OwnershipModel, seq<real>>, years: seq<int>, r: Region,
                                 logistic: Logistic, t: nat)
    requires forall u :: 0 <= u < |years| ==> NonNegativeCurve(logistic, years[u])
    requires forall m: OwnershipModel :: m in results
    requires forall m: OwnershipModel :: |results[m]| == |years|
    requires forall m: OwnershipModel {:trigger results[m]} :: NormalisedColumn(results[m], m, years, r, logistic)
    requires t < |years|
    ensures results[Traditional][t] + results[Leasing][t] + results[Subscription][t]
            + results[UsageBased][t] + results[MobilityAsAService][t] == 1.0
  {
    var y := years[t];
    var total := TotalShare(r, y, logistic);
    SumOfQuotients(RawShare(Traditional, r, y, logistic), RawShare(Leasing, r, y, logistic),
                   RawShare(Subscription, r, y, logistic), RawShare(UsageBased, r, y, logistic),
                   RawShare(MobilityAsAService, r, y, logistic), total);
  }

  lemma SumOfQuotients(a: real, b: real, c: real, d: real, e: real, total: real)
    requires total == a + b + c + d + e && total != 0.0
    ensures a / total + b / total + c / total + d / total + e / total == 1.0
  {
    assert a / total + b / total + c / total + d / total + e / total == (a + b + c + d + e) / total;
  }

  // ---------------------------------------------------------------------
  // Argument resolution

  /** An element of an argument list: a name, or the enumeration value itself. */
  datatype Item<T> = Named(name: string) | Given(value: T)

  /** A region or segment argument: absent, a single element, or a list. */
  datatype Selection<T> = Unspecified | Single(item: Item<T>) | Listed(items: seq<Item<T>>)

  /** ASCII upper-casing. */
  function UpperChar(c: char): char
  {
    if 'a' <= c <= 'z' then (c as int - 32) as char else c
  }

  /** ASCII lower-casing. */
  function LowerChar(c: char): char
  {
    if 'A' <= c <= 'Z' then (c as int + 32) as char else c
  }

  function Upper(s: string): (u: string)
    ensures |u| == |s| && forall i :: 0 <= i < |s| ==> u[i] == UpperChar(s[i])
  {
    seq(|s|, i requires 0 <= i < |s| => UpperChar(s[i]))
  }

  function Lower(s: string): (l: string)
    ensures |l| == |s| && forall i :: 0 <= i < |s| ==> l[i] == LowerChar(s[i])
  {
    seq(|s|, i requires 0 <= i < |s| => LowerChar(s[i]))
  }

  /** A name made of capitals and underscores. */
  predicate UpperSnake(s: string)
  {
    forall i :: 0 <= i < |s| ==> 'A' <= s[i] <= 'Z' || s[i] == '_'
  }

  /** Upper-casing undoes lower-casing on a capitals-and-underscores name. */
  lemma UpperOfLower(s: string)
    requires UpperSnake(s)
    ensures Upper(Lower(s)) == s
  {
    assert forall i :: 0 <= i < |s| ==> UpperChar(LowerChar(s[i])) == s[i];
  }

  function RegionName(r: Region): (n: string)
    ensures UpperSnake(n)
  {
    match r
    case NorthAmerica => "NORTH_AMERICA"
    case Europe => "EUROPE"
    case China => "CHINA"
    case JapanKorea => "JAPAN_KOREA"
    case EmergingMarkets => "EMERGING_MARKETS"
  }

  /** The region whose name is exactly the given one. */
  function RegionByName(s: string): (r: Option<Region>)
    ensures forall x :: r == Some(x) <==> RegionName(x) == s
  {
    if s == "NORTH_AMERICA" then Some(NorthAmerica)
    else if s == "EUROPE" then Some(Europe)
    else if s == "CHINA" then Some(China)
    else if s == "JAPAN_KOREA" then Some(JapanKorea)
    else if s == "EMERGING_MARKETS" then Some(EmergingMarkets)
    else None
  }

  function SegmentName(v: VehicleSegment): (n: string)
    ensures UpperSnake(n)
  {
    match v
    case CityCar => "CITY_CAR"
    case Compact => "COMPACT"
    case Midsize => "MIDSIZE"
    case Premium => "PREMIUM"
    case Luxury => "LUXURY"
    case CommercialLight => "COMMERCIAL_LIGHT"
    case CommercialHeavy => "COMMERCIAL_HEAVY"
  }

  /** The segment whose name is exactly the given one. */
  function SegmentByName(s: string): (v: Option<VehicleSegment>)
    ensures forall x :: v == Some(x) <==> SegmentName(x) == s
  {
    if s == "CITY_CAR" then Some(CityCar)
    else if s == "COMPACT" then Some(Compact)
    else if s == "MIDSIZE" then Some(Midsize)
    else if s == "PREMIUM" then Some(Premium)
    else if s == "LUXURY" then Some(Luxury)
    else if s == "COMMERCIAL_LIGHT" then Some(CommercialLight)
    else if s == "COMMERCIAL_HEAVY" then Some(CommercialHeavy)
    else None
  }

  function InvalidRegion(s: string): string
  {
    "Invalid region: " + s + ". Valid regions are: ['NORTH_AMERICA', 'EUROPE', 'CHINA', 'JAPAN_KOREA', 'EMERGING_MARKETS']"
  }

  function InvalidSegment(s: string): string
  {
    "Invalid segment: " + s
    + ". Valid segments are: ['CITY_CAR', 'COMPACT', 'MIDSIZE', 'PREMIUM', 'LUXURY', 'COMMERCIAL_LIGHT', 'COMMERCIAL_HEAVY']"
  }

  /** The value an element stands for: itself, or the value named by its
      upper-cased name. */
  function Lookup<T>(item: Item<T>, byName: string -> Option<T>): Option<T>
  {
    match item
    case Given(v) => Some(v)
    case Named(s) => byName(Upper(s))
  }

  /** The argument means every value: absent, or exactly the string 'all'. */
  predicate SelectsAll<T>(sel: Selection<T>)
  {
    sel.Unspecified? || (sel.Single? && sel.item.Named? && sel.item.name == "all")
  }

  /** The elements of an argument that lists values. */
  function ItemsOf<T>(sel: Selection<T>): seq<Item<T>>
  {
    match sel
    case Unspecified => []
    case Single(item) => [item]
    case Listed(items) => items
  }

  /** Resolves a region or segment argument: every value when it selects
      all, otherwise each element in order, failing at the first name that
      names no value. */
  method Resolve<T>(sel: Selection<T>, all: seq<T>, byName: string -> Option<T>, invalid: string -> string)
    returns (r: Result<seq<T>, string>)
    ensures SelectsAll(sel) ==> r == Success(all)
    ensures !SelectsAll(sel) ==>
              (r.Success? <==> forall i :: 0 <= i < |ItemsOf(sel)| ==> Lookup(ItemsOf(sel)[i], byName).Some?)
    ensures !SelectsAll(sel) && r.Success? ==>
              |r.value| == |ItemsOf(sel)| &&
              forall i :: 0 <= i < |r.value| ==> Some(r.value[i]) == Lookup(ItemsOf(sel)[i], byName)
    ensures !SelectsAll(sel) && r.Failure? ==>
              exists i :: 0 <= i < |ItemsOf(sel)| && ItemsOf(sel)[i].Named? &&
                          Lookup(ItemsOf(sel)[i], byName).None? &&
                          r.error == invalid(ItemsOf(sel)[i].name) &&
                          forall j :: 0 <= j < i ==> Lookup(ItemsOf(sel)[j], byName).Some?
  {
    if SelectsAll(sel) {
      return Success(all);
    }
    var items := ItemsOf(sel);
    var values: seq<T> := [];
    var i := 0;
    while i < |items|
      invariant 0 <= i <= |items|
      invariant |values| == i
      invariant forall j :: 0 <= j < i ==> Some(values[j]) == Lookup(items[j], byName)
    {
      var found := Lookup(items[i], byName);
      if found.None? {
        return Failure(invalid(items[i].name));
      }
      values := values + [found.value];
      i := i + 1;
    }
    r := Success(values);
  }

  /** The lower-case keys the results are stored under resolve back to
      their region. */
  lemma LowerRegionNameResolves(x: Region)
    ensures Lookup(Named(Lower(RegionName(x))), RegionByName) == Some(x)
  {
    UpperOfLower(RegionName(x));
  }

  /** The lower-case keys the results are stored under resolve back to
      their segment. */
  lemma LowerSegmentNameResolves(v: VehicleSegment)
    ensures Lookup(Named(Lower(SegmentName(v))), SegmentByName) == Some(v)
  {
    UpperOfLower(SegmentName(v));
  }

  /** A region or segment name holding anything but letters and underscores
      never resolves, whatever its case, and is reported as invalid. */
  lemma {:induction false} NonNameCharRejected(s: string, i: nat)
    requires i < |s| && !('a' <= s[i] <= 'z' || 'A' <= s[i] <= 'Z' || s[i] == '_')
    ensures Lookup(Named(s), RegionByName) == None
    ensures Lookup(Named(s), SegmentByName) == None
  {
    assert Upper(s)[i] == s[i];
    assert !UpperSnake(Upper(s));
  }
}
