/** The Chinese-manufacturer global expansion stepper: regional market
    conditions, manufacturer profiles, the attractiveness score, the strategy
    decision table, the capped market-share update, and the year-by-year
    simulation that overwrites each manufacturer's per-region presence. */
module ChineseExpansion {
  import opened Wrappers
  import opened Numeric

  datatype Region =
    | NorthAmerica | Europe | China | JapanKorea | EmergingMarkets
    | LatinAmerica | MiddleEastAfrica | SouthAsia | Oceania

  /** The enumeration's declaration order, which is the default region list. */
  const AllRegions: seq<Region> :=
    [NorthAmerica, Europe, China, JapanKorea, EmergingMarkets,
     LatinAmerica, MiddleEastAfrica, SouthAsia, Oceania]

  datatype MarketSegment = Entry | MassMarket | Premium | Luxury | Commercial | EV

  const AllSegments: seq<MarketSegment> := [Entry, MassMarket, Premium, Luxury, Commercial, EV]

  datatype Manufacturer =
    | SAIC | Geely | BYD | Chery | GreatWall | NIO | XPeng | LiAuto | Changan | GAC

  datatype Strategy = Export | LocalProduction | Acquisition | JointVenture | BrandAcquisition

  // ---------------------------------------------------------------------------
  // Static tables
  // ---------------------------------------------------------------------------

  datatype MarketConditions = MarketConditions(
    marketSize: real,
    growthRate: real,
    barriersToEntry: real,
    preferenceDomestic: real,
    evPenetration: real,
    evGrowth: real)

  /** The ranges every configured region respects. */
  predicate WellFormed(c: MarketConditions)
  {
    && c.marketSize >= 0.0
    && c.growthRate >= 0.0
    && 0.0 <= c.barriersToEntry <= 1.0
    && 0.0 <= c.preferenceDomestic <= 1.0
    && c.evPenetration >= 0.0
    && c.evGrowth >= 0.0
  }

  /** Default conditions for every region, overridden for four of them. */
  function Conditions(r: Region): (c: MarketConditions)
    ensures WellFormed(c)
    ensures c.barriersToEntry <= 0.7
  {
    match r
    case China => MarketConditions(1.5, 0.04, 0.2, 0.8, 0.25, 0.2)
    case NorthAmerica => MarketConditions(1.2, 0.01, 0.7, 0.7, 0.08, 0.12)
    case Europe => MarketConditions(1.1, 0.005, 0.6, 0.65, 0.15, 0.18)
    case EmergingMarkets => MarketConditions(0.8, 0.06, 0.4, 0.4, 0.02, 0.25)
    case _ => MarketConditions(1.0, 0.02, 0.5, 0.6, 0.1, 0.15)
  }

  datatype ManufacturerProfile = ManufacturerProfile(
    name: string,
    strengths: seq<MarketSegment>,
    evTechLevel: real,
    brandValue: real,
    productionCapacity: real,
    rndInvestment: real,
    acquisitions: seq<string>,   // empty where the profile has no such entry
    jointVentures: seq<string>)

  /** The manufacturers the simulator is configured with, in dictionary order. */
  const Roster: seq<Manufacturer> := [BYD, Geely, NIO, XPeng, SAIC]

  function Profile(m: Manufacturer): (p: ManufacturerProfile)
    requires m in Roster
    ensures 0.0 <= p.brandValue <= 1.0
  {
    if m == BYD then
      ManufacturerProfile(BydName, [EV, MassMarket], 0.9, 0.7, 1.0, 0.8, [], [])
    else if m == Geely then
      ManufacturerProfile(GeelyName, [MassMarket, Premium], 0.7, 0.75, 1.2, 0.75, GeelyAcquisitions, [])
    else if m == NIO then
      ManufacturerProfile(NioName, [Premium, EV], 0.95, 0.8, 0.6, 0.9, [], [])
    else if m == XPeng then
      ManufacturerProfile(XPengName, [EV, MassMarket], 0.85, 0.65, 0.5, 0.85, [], [])
    else
      ManufacturerProfile(SaicName, [MassMarket, Commercial], 0.7, 0.6, 1.5, 0.7, [], SaicJointVentures)
  }

  const BydName: string := "BYD"
  const GeelyName: string := "Geely"
  const NioName: string := "NIO"
  const XPengName: string := "XPeng"
  const SaicName: string := "SAIC Motor"
  const GeelyAcquisitions: seq<string> := ["Volvo", "Lotus", "Proton", "Lynk & Co"]
  const SaicJointVentures: seq<string> := ["MG", "Roewe", "Maxus"]

  const MaxShare: real := 0.4

  /** Every stored presence lies between 0 and the single-manufacturer cap. */
  predicate PresenceBounded(gp: map<Region, real>)
  {
    forall r :: r in gp ==> 0.0 <= gp[r] <= MaxShare
  }

  /** Starting market share per region (the home market and a few footholds). */
  function InitialPresence(m: Manufacturer): (gp: map<Region, real>)
    requires m in Roster
    ensures PresenceBounded(gp)
    ensures China in gp
  {
    if m == BYD then map[China := 0.15]
    else if m == Geely then map[China := 0.12, Europe := 0.02]
    else if m == NIO then map[China := 0.05, Europe := 0.01]
    else if m == XPeng then map[China := 0.04, Europe := 0.005]
    else map[China := 0.18, EmergingMarkets := 0.03]
  }

  // ---------------------------------------------------------------------------
  // Pure calculators
  // ---------------------------------------------------------------------------

  function BaseAttractiveness(c: MarketConditions): real
  {
    c.marketSize * 0.3
    + c.growthRate * 20.0 * 0.3
    + (1.0 - c.barriersToEntry) * 0.2
    + (1.0 - c.preferenceDomestic) * 0.2
  }

  /** Attractiveness of a segment under a region's conditions; the EV segment
      is scaled by its penetration and growth multipliers. */
  function Attractiveness(c: MarketConditions, segment: MarketSegment): (a: real)
    ensures WellFormed(c) ==> a >= 0.0
    ensures segment != EV ==> a == BaseAttractiveness(c)
  {
    var base := BaseAttractiveness(c);
    if segment == EV then
      EvScaling(base, c.evPenetration, c.evGrowth);
      base * (1.0 + c.evPenetration * 2.0) * (1.0 + c.evGrowth * 5.0)
    else
      base
  }

  /** Scaling a non-negative base by the two EV multipliers (each at least 1)
      neither makes it negative nor smaller. */
  lemma EvScaling(base: real, pen: real, growth: real)
    ensures base >= 0.0 && pen >= 0.0 && growth >= 0.0 ==>
              base <= base * (1.0 + pen * 2.0) * (1.0 + growth * 5.0)
  {
    if base >= 0.0 && pen >= 0.0 && growth >= 0.0 {
      var x := base * (1.0 + pen * 2.0);
      assert base * (pen * 2.0) >= 0.0;
      assert x >= base;
      assert x * (growth * 5.0) >= 0.0;
    }
  }

  /** In every region the EV segment is at least as attractive as any other
      segment, and every attractiveness is non-negative. */
  lemma EvAtLeastAsAttractive(region: Region, segment: MarketSegment)
    ensures 0.0 <= Attractiveness(Conditions(region), segment)
    ensures Attractiveness(Conditions(region), segment) <= Attractiveness(Conditions(region), EV)
  {
    var c := Conditions(region);
    EvScaling(BaseAttractiveness(c), c.evPenetration, c.evGrowth);
  }

  /** Base size grown by the region's growth rate for n years. */
  function GrownSize(c: MarketConditions, n: nat): real
  {
    c.marketSize * Pow(1.0 + c.growthRate, n)
  }

  lemma GrownSizeFacts(c: MarketConditions, n: nat)
    requires WellFormed(c)
    ensures 0.0 <= GrownSize(c, n) <= GrownSize(c, n + 1)
    ensures GrownSize(c, n + 1) == GrownSize(c, n) * (1.0 + c.growthRate)
  {
    PowAtLeastOne(1.0 + c.growthRate, n);
    var p := Pow(1.0 + c.growthRate, n);
    assert Pow(1.0 + c.growthRate, n + 1) == (1.0 + c.growthRate) * p;
    assert c.marketSize * p >= 0.0;
    assert c.marketSize * ((1.0 + c.growthRate) * p) == c.marketSize * p + c.growthRate * (c.marketSize * p);
    assert c.growthRate * (c.marketSize * p) >= 0.0;
  }

  /** EV share of the market n years after 2025, capped at 90%. */
  function EvPenetration(c: MarketConditions, n: nat): (p: real)
    requires WellFormed(c)
    ensures 0.0 <= p <= 0.9
  {
    PowAtLeastOne(1.0 + c.evGrowth, n);
    ScaleNonNegative(c.evPenetration, Pow(1.0 + c.evGrowth, n));
    Min(c.evPenetration * Pow(1.0 + c.evGrowth, n), 0.9)
  }

  lemma ScaleNonNegative(a: real, b: real)
    requires a >= 0.0 && b >= 0.0
    ensures a * b >= 0.0
  {
  }

  /** Products of non-negative factors grow with each factor. */
  lemma ProductMonotone(a0: real, a1: real, b0: real, b1: real)
    requires 0.0 <= a0 <= a1 && 0.0 <= b0 <= b1
    ensures 0.0 <= a0 * b0 <= a1 * b1
  {
    assert a0 * b0 <= a0 * b1;
    assert a0 * b1 <= a1 * b1;
  }

  /** Market size n years after 2025 under the given conditions: the grown
      base size times the capped EV penetration for the EV segment, and a
      flat fifth of it for every other segment. */
  function SegmentSize(c: MarketConditions, segment: MarketSegment, n: nat): (size: real)
    requires WellFormed(c)
    ensures size >= 0.0
    ensures segment == EV ==> size <= GrownSize(c, n) * 0.9
    ensures segment != EV ==> size == GrownSize(c, n) * 0.2
  {
    GrownSizeFacts(c, n);
    if segment == EV then
      ProductMonotone(GrownSize(c, n), GrownSize(c, n), EvPenetration(c, n), 0.9);
      GrownSize(c, n) * EvPenetration(c, n)
    else
      GrownSize(c, n) * 0.2
  }

  function MarketSize(region: Region, segment: MarketSegment, year: int): (size: real)
    requires year >= 2025
    ensures size >= 0.0
    ensures segment == EV ==> size <= GrownSize(Conditions(region), year - 2025) * 0.9
    ensures segment != EV ==> size == GrownSize(Conditions(region), year - 2025) * 0.2
  {
    SegmentSize(Conditions(region), segment, year - 2025)
  }

  /** A market never shrinks from one year to the next. */
  lemma MarketSizeNonDecreasing(region: Region, segment: MarketSegment, year: int)
    requires year >= 2025
    ensures MarketSize(region, segment, year) <= MarketSize(region, segment, year + 1)
  {
    SegmentSizeNonDecreasing(Conditions(region), segment, year - 2025);
  }

  lemma SegmentSizeNonDecreasing(c: MarketConditions, segment: MarketSegment, n: nat)
    requires WellFormed(c)
    ensures SegmentSize(c, segment, n) <= SegmentSize(c, segment, n + 1)
  {
    var g0, g1 := GrownSize(c, n), GrownSize(c, n + 1);
    if segment == EV {
      var e0, e1 := EvPenetration(c, n), EvPenetration(c, n + 1);
      assert SegmentSize(c, segment, n) == g0 * e0;
      assert SegmentSize(c, segment, n + 1) == g1 * e1;
      GrownSizeFacts(c, n);
      EvPenetrationNonDecreasing(c, n);
      ProductMonotone(g0, g1, e0, e1);
    } else {
      GrownSizeFacts(c, n);
      ProductMonotone(g0, g1, 0.2, 0.2);
    }
  }

  lemma EvPenetrationNonDecreasing(c: MarketConditions, n: nat)
    requires WellFormed(c)
    ensures EvPenetration(c, n) <= EvPenetration(c, n + 1)
  {
    var b := 1.0 + c.evGrowth;
    PowMonotone(b, n, n + 1);
    PowAtLeastOne(b, n);
    ProductMonotone(c.evPenetration, c.evPenetration, Pow(b, n), Pow(b, n + 1));
  }

  /** Presence counts as established above 1% share. */
  predicate Established(presence: map<Region, real>, region: Region)
  {
    region in presence && presence[region] > 0.01
  }

  /** The strategy decision table: an established manufacturer exports, or
      produces locally once its share exceeds 5% after 2030; a new entrant's
      choice depends on the region's barriers to entry. */
  function DetermineStrategy(p: ManufacturerProfile, presence: map<Region, real>,
                             region: Region, year: int): (s: Strategy)
    ensures Established(presence, region) ==>
              (s == LocalProduction <==> presence[region] > 0.05 && year > 2030)
    ensures Established(presence, region) ==> s == Export || s == LocalProduction
    ensures !Established(presence, region) && Conditions(region).barriersToEntry > 0.7 ==>
              s == (if |p.acquisitions| > 0 then Acquisition else JointVenture)
    ensures !Established(presence, region) && 0.4 < Conditions(region).barriersToEntry <= 0.7 ==>
              s == BrandAcquisition
    ensures !Established(presence, region) && Conditions(region).barriersToEntry <= 0.4 ==>
              s == Export
  {
    if Established(presence, region) then
      if presence[region] > 0.05 && year > 2030 then LocalProduction else Export
    else
      var barriers := Conditions(region).barriersToEntry;
      if barriers > 0.7 then
        if |p.acquisitions| > 0 then Acquisition else JointVenture
      else if barriers > 0.4 then BrandAcquisition
      else Export
  }

  /** No configured region has barriers above 0.7, so a new entrant is never
      assigned an acquisition or a joint venture. */
  lemma NewEntryNeverAcquires(p: ManufacturerProfile, presence: map<Region, real>,
                              region: Region, year: int)
    requires !Established(presence, region)
    ensures DetermineStrategy(p, presence, region, year) == BrandAcquisition
         || DetermineStrategy(p, presence, region, year) == Export
  {
  }

  function StrategyBonus(s: Strategy): real
  {
    match s
    case Export => 0.0
    case LocalProduction => 0.1
    case Acquisition => 0.15
    case JointVenture => 0.08
    case BrandAcquisition => 0.12
  }

  /** Base growth plus the strategy bonus and the EV-technology bonus, scaled
      by brand value. */
  function GrowthFactor(p: ManufacturerProfile, segment: MarketSegment, s: Strategy): (g: real)
    ensures p.brandValue >= 0.0 ==> g >= 0.0
  {
    var evBonus := if segment == EV && p.evTechLevel > 0.8 then 0.1 else 0.0;
    (0.05 + StrategyBonus(s) + evBonus) * p.brandValue
  }

  /** The region's presence, 0 where the manufacturer has none. */
  function CurrentShare(presence: map<Region, real>, region: Region): real
  {
    if region in presence then presence[region] else 0.0
  }

  /** The next share: current share grown by the growth factor, capped,
      scaled by half the attractiveness, and capped again. */
  function MarketShare(p: ManufacturerProfile, presence: map<Region, real>,
                       region: Region, segment: MarketSegment, s: Strategy): (share: real)
    ensures share <= MaxShare
    ensures CurrentShare(presence, region) >= 0.0 && p.brandValue >= 0.0 ==> share >= 0.0
    ensures CurrentShare(presence, region) == 0.0 ==> share == 0.0
  {
    var current := CurrentShare(presence, region);
    var g := GrowthFactor(p, segment, s);
    var potential := Min(current * (1.0 + g), MaxShare);
    var a := Attractiveness(Conditions(region), segment);
    assert current >= 0.0 && p.brandValue >= 0.0 ==> current * (1.0 + g) >= 0.0;
    assert potential >= 0.0 ==> potential * (a / 2.0) >= 0.0;
    Min(potential * (a / 2.0), MaxShare)
  }

  function PriceMultiplier(segment: MarketSegment): (m: real)
    ensures 1.0 <= m <= 3.0
  {
    match segment
    case Entry => 1.0
    case MassMarket => 1.2
    case Premium => 1.8
    case Luxury => 3.0
    case Commercial => 2.5
    case EV => 1.5
  }

  /** Revenue of a cell: market size times share times the segment's price multiplier. */
  function Revenue(marketSize: real, share: real, segment: MarketSegment): real
  {
    marketSize * share * PriceMultiplier(segment)
  }

  /** A manufacturer sits out non-EV segments outside its strengths. */
  predicate Skips(m: Manufacturer, segment: MarketSegment)
    requires m in Roster
  {
    segment !in Profile(m).strengths && segment != EV
  }

  /** Nothing normalises shares across manufacturers: once every configured
      manufacturer holds the cap in China, one EV update keeps each of them
      there and the column of shares sums to 2.0. */
  lemma SharesCanSumPastOne()
    ensures var presence := map[China := MaxShare];
            Sum(seq(|Roster|, i requires 0 <= i < |Roster| =>
                  MarketShare(Profile(Roster[i]), presence, China, EV,
                              DetermineStrategy(Profile(Roster[i]), presence, China, 2031)))) == 2.0
  {
    var presence := map[China := MaxShare];
    var shares := seq(|Roster|, i requires 0 <= i < |Roster| =>
                    MarketShare(Profile(Roster[i]), presence, China, EV,
                                DetermineStrategy(Profile(Roster[i]), presence, China, 2031)));
    forall i | 0 <= i < |Roster|
      ensures shares[i] == MaxShare
    {
      CapHeld(Roster[i]);
    }
    assert shares == [MaxShare, MaxShare, MaxShare, MaxShare, MaxShare];
    assert Sum(shares[4..]) == MaxShare;
    assert Sum(shares[3..]) == 2.0 * MaxShare;
    assert Sum(shares[2..]) == 3.0 * MaxShare;
    assert Sum(shares[1..]) == 4.0 * MaxShare;
  }

  /** A manufacturer holding the cap in China keeps it through an EV update in 2031. */
  lemma CapHeld(m: Manufacturer)
    requires m in Roster
    ensures var presence := map[China := MaxShare];
            MarketShare(Profile(m), presence, China, EV, DetermineStrategy(Profile(m), presence, China, 2031)) == MaxShare
  {
    var presence := map[China := MaxShare];
    var a := Attractiveness(Conditions(China), EV);
    assert a == 2.67;
    var p := Profile(m);
    var s := DetermineStrategy(p, presence, China, 2031);
    assert s == LocalProduction;
    var g := GrowthFactor(p, EV, s);
    assert g >= 0.0;
    assert Min(MaxShare * (1.0 + g), MaxShare) == MaxShare;
    assert MaxShare * (a / 2.0) >= MaxShare;
  }

  // ---------------------------------------------------------------------------
  // The stateful simulation
  // ---------------------------------------------------------------------------

  datatype CellKey = CellKey(mfg: Manufacturer, region: Region, segment: MarketSegment)

  /** One year's entry for one cell: the share, the revenue and the strategy. */
  datatype Record = Record(share: real, revenue: real, strategy: Strategy)

  type Results = map<CellKey, seq<Record>>

  predicate Distinct<T(==)>(xs: seq<T>)
  {
    forall i, j :: 0 <= i < j < |xs| ==> xs[i] != xs[j]
  }

  function ResultKeys(regions: seq<Region>, segments: seq<MarketSegment>): set<CellKey>
  {
    set m, r, s | m in Roster && r in regions && s in segments :: CellKey(m, r, s)
  }

  /** The result map has exactly one list per configured manufacturer,
      requested region and requested segment. */
  ghost predicate Covers(res: Results, regions: seq<Region>, segments: seq<MarketSegment>)
  {
    forall k :: k in res <==> k.mfg in Roster && k.region in regions && k.segment in segments
  }

  predicate Skipped(k: CellKey)
  {
    k.mfg in Roster && Skips(k.mfg, k.segment)
  }

  /** Every recorded share lies in [0, MaxShare] and skipped cells stay empty. */
  predicate Bounded(res: Results)
  {
    forall k :: k in res ==> k.mfg in Roster && (Skipped(k) ==> res[k] == []) && SharesInRange(res[k])
  }

  predicate SharesInRange(rs: seq<Record>)
  {
    forall i :: 0 <= i < |rs| ==> 0.0 <= rs[i].share <= MaxShare
  }

  /** Entry i of every cell belongs to year startYear + i: its revenue is that
      year's market size times the share times the segment's price multiplier. */
  predicate YearAligned(res: Results, startYear: int)
    requires startYear >= 2025
  {
    forall k :: k in res ==> CellAligned(k, res[k], startYear)
  }

  predicate CellAligned(k: CellKey, rs: seq<Record>, startYear: int)
    requires startYear >= 2025
  {
    forall i :: 0 <= i < |rs| ==>
      rs[i].revenue == Revenue(MarketSize(k.region, k.segment, startYear + i), rs[i].share, k.segment)
  }

  /** An empty list for every configured manufacturer, requested region and
      requested segment. */
  function EmptyResults(regions: seq<Region>, segments: seq<MarketSegment>): (res: Results)
    ensures Covers(res, regions, segments)
    ensures forall k :: k in res ==> res[k] == []
  {
    map k | k in ResultKeys(regions, segments) :: []
  }

  /** An omitted list stands for every value of the enumeration. */
  function OrAll<T>(arg: Option<seq<T>>, all: seq<T>): seq<T>
  {
    if arg.Some? then arg.value else all
  }

  function YearCount(startYear: int, endYear: int): nat
  {
    if endYear >= startYear then endYear - startYear + 1 else 0
  }

  // ---------------------------------------------------------------------------
  // The reference run: the simulation's nested loops as a fold over values
  // ---------------------------------------------------------------------------

  /** The simulator's presence table together with the result lists. */
  datatype SimState = SimState(presence: map<Manufacturer, map<Region, real>>, results: Results)

  /** The record a configured manufacturer appends in a (year, region, segment)
      cell: the strategy chosen from its presence before the turn, the capped
      share under that strategy and the revenue it earns at the cell's size. */
  function TurnRecord(m: Manufacturer, presence: map<Region, real>, region: Region,
                      segment: MarketSegment, year: int, marketSize: real): Record
    requires m in Roster
  {
    var strategy := DetermineStrategy(Profile(m), presence, region, year);
    var share := MarketShare(Profile(m), presence, region, segment, strategy);
    Record(share, Revenue(marketSize, share, segment), strategy)
  }

  /** One manufacturer's turn: a manufacturer that skips the segment leaves
      the state alone; any other one appends its record to its list and
      overwrites its presence in the region with the record's share. */
  function Turn(st: SimState, m: Manufacturer, year: int, region: Region,
                segment: MarketSegment, marketSize: real): SimState
  {
    var k := CellKey(m, region, segment);
    if m in Roster && m in st.presence && k in st.results && !Skips(m, segment) then
      var rec := TurnRecord(m, st.presence[m], region, segment, year, marketSize);
      SimState(st.presence[m := st.presence[m][region := rec.share]],
               st.results[k := st.results[k] + [rec]])
    else
      st
  }

  /** The manufacturers' turns in one cell, in the order given. */
  function CellTurns(st: SimState, ms: seq<Manufacturer>, year: int, region: Region,
                     segment: MarketSegment, marketSize: real): SimState
    decreases |ms|
  {
    if ms == [] then st
    else Turn(CellTurns(st, ms[..|ms| - 1], year, region, segment, marketSize),
              ms[|ms| - 1], year, region, segment, marketSize)
  }

  /** One region of one year: every segment's cell in turn, each at that
      year's market size. */
  function RegionTurns(st: SimState, year: int, region: Region, segments: seq<MarketSegment>): SimState
    requires year >= 2025
    decreases |segments|
  {
    if segments == [] then st
    else
      var segment := segments[|segments| - 1];
      CellTurns(RegionTurns(st, year, region, segments[..|segments| - 1]), Roster,
                year, region, segment, MarketSize(region, segment, year))
  }

  /** One year: every region in turn. */
  function YearTurns(st: SimState, year: int, regions: seq<Region>, segments: seq<MarketSegment>): SimState
    requires year >= 2025
    decreases |regions|
  {
    if regions == [] then st
    else RegionTurns(YearTurns(st, year, regions[..|regions| - 1], segments),
                     year, regions[|regions| - 1], segments)
  }

  /** The first n years from startYear on. */
  function YearsRun(st: SimState, startYear: int, n: nat, regions: seq<Region>, segments: seq<MarketSegment>): SimState
    requires startYear >= 2025
  {
    if n == 0 then st
    else YearTurns(YearsRun(st, startYear, n - 1, regions, segments), startYear + n - 1, regions, segments)
  }

  /** m's list and presence exist and are the same in both states. */
  predicate Untouched(before: SimState, after: SimState, m: Manufacturer, region: Region, segment: MarketSegment)
  {
    var k := CellKey(m, region, segment);
    && m in before.presence && k in before.results && m in after.presence && k in after.results
    && after.results[k] == before.results[k]
    && after.presence[m] == before.presence[m]
  }

  /** m has had its turn between the two states: unless it skips the segment,
      its list gained the record computed from its presence in `before` and
      its presence in the region is that record's share. */
  predicate HasTurned(before: SimState, after: SimState, m: Manufacturer, year: int, region: Region,
                      segment: MarketSegment, marketSize: real)
  {
    var k := CellKey(m, region, segment);
    && m in Roster && m in before.presence && k in before.results && m in after.presence && k in after.results
    && if Skips(m, segment) then Untouched(before, after, m, region, segment)
       else
         var rec := TurnRecord(m, before.presence[m], region, segment, year, marketSize);
         && after.results[k] == before.results[k] + [rec]
         && after.presence[m] == before.presence[m][region := rec.share]
  }

  /** Taking one more segment of a region is one more cell. */
  lemma RegionTurnsStep(st: SimState, year: int, region: Region, segments: seq<MarketSegment>, j: nat)
    requires year >= 2025 && j < |segments|
    ensures RegionTurns(st, year, region, segments[..j + 1])
         == CellTurns(RegionTurns(st, year, region, segments[..j]), Roster, year, region, segments[j],
                      MarketSize(region, segments[j], year))
  {
    assert segments[..j + 1][..j] == segments[..j];
  }

  /** Taking one more region of a year is one more region's turns. */
  lemma YearTurnsStep(st: SimState, year: int, regions: seq<Region>, segments: seq<MarketSegment>, i: nat)
    requires year >= 2025 && i < |regions|
    ensures YearTurns(st, year, regions[..i + 1], segments)
         == RegionTurns(YearTurns(st, year, regions[..i], segments), year, regions[i], segments)
  {
    assert regions[..i + 1][..i] == regions[..i];
  }

  /** Running one more year is one more year's turns. */
  lemma YearsRunStep(st: SimState, startYear: int, n: nat, regions: seq<Region>, segments: seq<MarketSegment>)
    requires startYear >= 2025
    ensures YearsRun(st, startYear, n + 1, regions, segments)
         == YearTurns(YearsRun(st, startYear, n, regions, segments), startYear + n, regions, segments)
  {
  }

  /** The presence table holds exactly the configured manufacturers, each
      with every regional share in [0, MaxShare]. */
  predicate PresenceValid(presence: map<Manufacturer, map<Region, real>>)
  {
    && (forall m :: m in presence <==> m in Roster)
    && (forall m :: m in presence ==> PresenceBounded(presence[m]))
  }

  /** From in-range presence a turn records an in-range share. */
  lemma TurnRecordInRange(m: Manufacturer, presence: map<Region, real>, region: Region,
                          segment: MarketSegment, year: int, marketSize: real)
    requires m in Roster && PresenceBounded(presence)
    ensures 0.0 <= TurnRecord(m, presence, region, segment, year, marketSize).share <= MaxShare
  {
    assert CurrentShare(presence, region) >= 0.0;
  }

  /** A turn keeps the presence table valid and the results bounded, and
      only extends lists and presences that already exist. */
  lemma TurnKeepsInvariants(st: SimState, t: Manufacturer, year: int, region: Region,
                            segment: MarketSegment, marketSize: real)
    requires PresenceValid(st.presence) && Bounded(st.results)
    ensures var st' := Turn(st, t, year, region, segment, marketSize);
            && PresenceValid(st'.presence) && Bounded(st'.results)
            && st'.presence.Keys == st.presence.Keys && st'.results.Keys == st.results.Keys
  {
    var k := CellKey(t, region, segment);
    if t in Roster && t in st.presence && k in st.results && !Skips(t, segment) {
      var rec := TurnRecord(t, st.presence[t], region, segment, year, marketSize);
      TurnRecordInRange(t, st.presence[t], region, segment, year, marketSize);
      AppendKeepsBounded(st.results, k, rec);
      ShareUpdateKeepsValid(st.presence, t, region, rec.share);
    }
  }

  /** Setting one in-range regional share keeps the presence table valid. */
  lemma ShareUpdateKeepsValid(presence: map<Manufacturer, map<Region, real>>, t: Manufacturer,
                              region: Region, share: real)
    requires PresenceValid(presence) && t in presence && 0.0 <= share <= MaxShare
    ensures var p' := presence[t := presence[t][region := share]];
            PresenceValid(p') && p'.Keys == presence.Keys
  {
    var p' := presence[t := presence[t][region := share]];
    assert PresenceBounded(p'[t]);
  }

  /** A turn leaves every other manufacturer untouched. */
  lemma TurnLeavesOthers(st: SimState, t: Manufacturer, m: Manufacturer, year: int, region: Region,
                         segment: MarketSegment, marketSize: real)
    requires t != m
    requires m in st.presence && CellKey(m, region, segment) in st.results
    ensures Untouched(st, Turn(st, t, year, region, segment, marketSize), m, region, segment)
  {
    var st' := Turn(st, t, year, region, segment, marketSize);
    var k := CellKey(t, region, segment);
    if t in Roster && t in st.presence && k in st.results && !Skips(t, segment) {
      var rec := TurnRecord(t, st.presence[t], region, segment, year, marketSize);
      assert st'.presence == st.presence[t := st.presence[t][region := rec.share]];
      assert st'.results == st.results[k := st.results[k] + [rec]];
    }
  }

  /** A turn is its own manufacturer's turn. */
  lemma TurnTakesTurn(st: SimState, m: Manufacturer, year: int, region: Region,
                      segment: MarketSegment, marketSize: real)
    requires m in Roster && m in st.presence && CellKey(m, region, segment) in st.results
    ensures HasTurned(st, Turn(st, m, year, region, segment, marketSize), m, year, region, segment, marketSize)
  {
  }

  /** A turn in one cell leaves the lists of every other cell alone. */
  lemma TurnLeavesOtherCells(st: SimState, t: Manufacturer, k: CellKey, year: int, region: Region,
                             segment: MarketSegment, marketSize: real)
    requires k in st.results && (k.region != region || k.segment != segment)
    ensures var st' := Turn(st, t, year, region, segment, marketSize);
            k in st'.results && st'.results[k] == st.results[k]
  {
    var st' := Turn(st, t, year, region, segment, marketSize);
    var kt := CellKey(t, region, segment);
    if t in Roster && t in st.presence && kt in st.results && !Skips(t, segment) {
      var rec := TurnRecord(t, st.presence[t], region, segment, year, marketSize);
      assert st'.results == st.results[kt := st.results[kt] + [rec]];
    }
  }

  /** Taking one more manufacturer of ms is one more turn. */
  lemma CellTurnsStep(st: SimState, ms: seq<Manufacturer>, q: nat, year: int, region: Region,
                      segment: MarketSegment, marketSize: real)
    requires q < |ms|
    ensures CellTurns(st, ms[..q + 1], year, region, segment, marketSize)
         == Turn(CellTurns(st, ms[..q], year, region, segment, marketSize), ms[q], year, region, segment, marketSize)
  {
    assert ms[..q + 1][..q] == ms[..q];
  }

  /** The cell's turns keep the presence table valid and the results
      bounded, and keep both key sets. */
  lemma {:induction false} CellTurnsKeepInvariants(st: SimState, ms: seq<Manufacturer>, year: int, region: Region,
                                                   segment: MarketSegment, marketSize: real)
    requires PresenceValid(st.presence) && Bounded(st.results)
    ensures var st' := CellTurns(st, ms, year, region, segment, marketSize);
            && PresenceValid(st'.presence) && Bounded(st'.results)
            && st'.presence.Keys == st.presence.Keys && st'.results.Keys == st.results.Keys
    decreases |ms|
  {
    if ms != [] {
      var init := ms[..|ms| - 1];
      CellTurnsKeepInvariants(st, init, year, region, segment, marketSize);
      TurnKeepsInvariants(CellTurns(st, init, year, region, segment, marketSize), ms[|ms| - 1],
                          year, region, segment, marketSize);
    }
  }

  /** Turns of other manufacturers leave m untouched. */
  lemma {:induction false} CellTurnsLeaveOthers(st: SimState, ms: seq<Manufacturer>, m: Manufacturer, year: int,
                                                region: Region, segment: MarketSegment, marketSize: real)
    requires m !in ms
    requires m in st.presence && CellKey(m, region, segment) in st.results
    ensures Untouched(st, CellTurns(st, ms, year, region, segment, marketSize), m, region, segment)
    decreases |ms|
  {
    if ms != [] {
      var init := ms[..|ms| - 1];
      assert ms == init + [ms[|ms| - 1]];
      CellTurnsLeaveOthers(st, init, m, year, region, segment, marketSize);
      TurnLeavesOthers(CellTurns(st, init, year, region, segment, marketSize), ms[|ms| - 1], m,
                       year, region, segment, marketSize);
    }
  }

  /** Turns in one cell leave the lists of every other cell alone. */
  lemma {:induction false} CellTurnsLeaveOtherCells(st: SimState, ms: seq<Manufacturer>, k: CellKey, year: int,
                                                    region: Region, segment: MarketSegment, marketSize: real)
    requires k in st.results && (k.region != region || k.segment != segment)
    ensures var st' := CellTurns(st, ms, year, region, segment, marketSize);
            k in st'.results && st'.results[k] == st.results[k]
    decreases |ms|
  {
    if ms != [] {
      var init := ms[..|ms| - 1];
      CellTurnsLeaveOtherCells(st, init, k, year, region, segment, marketSize);
      TurnLeavesOtherCells(CellTurns(st, init, year, region, segment, marketSize), ms[|ms| - 1], k,
                           year, region, segment, marketSize);
    }
  }

  /** Within a cell no manufacturer's turn reads or writes another's state:
      once the distinct manufacturers ms have had their turns, each of them
      has taken its turn from its presence at the start of the cell. */
  lemma {:induction false} CellTurnsReadCellStart(st: SimState, ms: seq<Manufacturer>, m: Manufacturer, year: int,
                                                  region: Region, segment: MarketSegment, marketSize: real)
    requires Distinct(ms) && m in ms
    requires m in Roster && m in st.presence && CellKey(m, region, segment) in st.results
    ensures HasTurned(st, CellTurns(st, ms, year, region, segment, marketSize), m, year, region, segment, marketSize)
    decreases |ms|
  {
    var last := ms[|ms| - 1];
    var init := ms[..|ms| - 1];
    assert ms == init + [last];
    var mid := CellTurns(st, init, year, region, segment, marketSize);
    var st' := Turn(mid, last, year, region, segment, marketSize);
    assert CellTurns(st, ms, year, region, segment, marketSize) == st';
    if m == last {
      assert m !in init;
      CellTurnsLeaveOthers(st, init, m, year, region, segment, marketSize);
      TurnTakesTurn(mid, m, year, region, segment, marketSize);
      TurnFromUntouched(st, mid, st', m, year, region, segment, marketSize);
    } else {
      CellTurnsReadCellStart(st, init, m, year, region, segment, marketSize);
      TurnLeavesOthers(mid, last, m, year, region, segment, marketSize);
      UntouchedAfterTurn(st, mid, st', m, year, region, segment, marketSize);
    }
  }

  lemma TurnFromUntouched(st: SimState, mid: SimState, st': SimState, m: Manufacturer, year: int,
                          region: Region, segment: MarketSegment, marketSize: real)
    requires Untouched(st, mid, m, region, segment)
    requires HasTurned(mid, st', m, year, region, segment, marketSize)
    ensures HasTurned(st, st', m, year, region, segment, marketSize)
  {
  }

  lemma UntouchedAfterTurn(st: SimState, mid: SimState, st': SimState, m: Manufacturer, year: int,
                           region: Region, segment: MarketSegment, marketSize: real)
    requires HasTurned(st, mid, m, year, region, segment, marketSize)
    requires Untouched(mid, st', m, region, segment)
    ensures HasTurned(st, st', m, year, region, segment, marketSize)
  {
  }

  lemma RosterDistinct()
    ensures Distinct(Roster)
  {
  }

  /** List k after one cell's turns, from state st: a non-skipped
      manufacturer's list in the cell gained the record computed from its
      presence in st; every other list is unchanged. */
  predicate CellStepped(st: SimState, after: Results, k: CellKey, year: int, region: Region,
                        segment: MarketSegment, marketSize: real)
  {
    && k in st.results && k in after && k.mfg in Roster && k.mfg in st.presence
    && if k.region == region && k.segment == segment && !Skips(k.mfg, segment) then
         after[k] == st.results[k] + [TurnRecord(k.mfg, st.presence[k.mfg], region, segment, year, marketSize)]
       else
         after[k] == st.results[k]
  }

  /** One cell, all manufacturers in roster order: every non-skipped
      manufacturer's list in the cell gains exactly the record computed from
      its presence at the start of the cell, and every other list is
      unchanged. */
  lemma CellTurnsEffect(st: SimState, year: int, region: Region, segment: MarketSegment, marketSize: real)
    requires PresenceValid(st.presence) && Bounded(st.results)
    ensures var after := CellTurns(st, Roster, year, region, segment, marketSize).results;
            && after.Keys == st.results.Keys
            && forall k :: k in st.results ==> CellStepped(st, after, k, year, region, segment, marketSize)
  {
    var after := CellTurns(st, Roster, year, region, segment, marketSize).results;
    CellTurnsKeepInvariants(st, Roster, year, region, segment, marketSize);
    RosterDistinct();
    forall k | k in st.results
      ensures CellStepped(st, after, k, year, region, segment, marketSize)
    {
      if k.region == region && k.segment == segment {
        assert k == CellKey(k.mfg, region, segment);
        CellTurnsReadCellStart(st, Roster, k.mfg, year, region, segment, marketSize);
      } else {
        CellTurnsLeaveOtherCells(st, Roster, k, year, region, segment, marketSize);
      }
    }
  }

  /** The cell's turns in the terms of the year-count and alignment lemmas. */
  lemma CellTurnsStepRecords(st: SimState, year: int, region: Region, segment: MarketSegment, marketSize: real)
    requires PresenceValid(st.presence) && Bounded(st.results)
    ensures var after := CellTurns(st, Roster, year, region, segment, marketSize).results;
            && after.Keys == st.results.Keys
            && (forall k :: k in st.results && !(k.region == region && k.segment == segment) ==>
                  after[k] == st.results[k])
            && (forall k :: k in st.results && k.region == region && k.segment == segment ==>
                  RecordsStepped(k, marketSize, st.results[k], after[k]))
  {
    var after := CellTurns(st, Roster, year, region, segment, marketSize).results;
    CellTurnsEffect(st, year, region, segment, marketSize);
    forall k | k in st.results && !(k.region == region && k.segment == segment)
      ensures after[k] == st.results[k]
    {
      assert CellStepped(st, after, k, year, region, segment, marketSize);
    }
    forall k | k in st.results && k.region == region && k.segment == segment
      ensures RecordsStepped(k, marketSize, st.results[k], after[k])
    {
      assert CellStepped(st, after, k, year, region, segment, marketSize);
      if !Skipped(k) {
        AppendSteps(k, marketSize, st.results[k],
                    TurnRecord(k.mfg, st.presence[k.mfg], region, segment, year, marketSize));
      }
    }
  }

  /** The run's standing invariant: a valid presence table and bounded lists,
      one per requested cell. */
  ghost predicate RunValid(st: SimState, regions: seq<Region>, segments: seq<MarketSegment>)
  {
    PresenceValid(st.presence) && Bounded(st.results) && Covers(st.results, regions, segments)
  }

  /** Part way through a year: the run's standing invariant, and for
      duplicate-free arguments the cells before (i, j) hold one more record
      than `years` and every list is priced year by year from startYear. */
  ghost predicate InYear(st: SimState, years: int, startYear: int, regions: seq<Region>,
                         segments: seq<MarketSegment>, i: nat, j: nat)
    requires startYear >= 2025 && i <= |regions| && j <= |segments|
  {
    && RunValid(st, regions, segments)
    && (Distinct(regions) && Distinct(segments) ==>
          Progress(st.results, years, regions, segments, i, j) && YearAligned(st.results, startYear))
  }

  /** The first j segments of region i in a year: each list in those cells
      gains its record for the year, priced at that year's market size. */
  lemma {:induction false} RegionTurnsShape(st: SimState, year: int, startYear: int, regions: seq<Region>,
                                            segments: seq<MarketSegment>, i: nat, j: nat)
    requires startYear >= 2025 && year >= startYear && i < |regions| && j <= |segments|
    requires InYear(st, year - startYear, startYear, regions, segments, i, 0)
    ensures InYear(RegionTurns(st, year, regions[i], segments[..j]), year - startYear, startYear, regions, segments, i, j)
    decreases j
  {
    if j == 0 {
      assert segments[..0] == [];
    } else {
      RegionTurnsShape(st, year, startYear, regions, segments, i, j - 1);
      RegionSegmentShape(st, year, startYear, regions, segments, i, j - 1);
    }
  }

  /** One more segment of region i moves the progress on by one cell. */
  lemma RegionSegmentShape(st: SimState, year: int, startYear: int, regions: seq<Region>,
                           segments: seq<MarketSegment>, i: nat, j: nat)
    requires startYear >= 2025 && year >= startYear && i < |regions| && j < |segments|
    requires InYear(RegionTurns(st, year, regions[i], segments[..j]), year - startYear, startYear, regions, segments, i, j)
    ensures InYear(RegionTurns(st, year, regions[i], segments[..j + 1]), year - startYear, startYear, regions, segments, i, j + 1)
  {
    RegionTurnsStep(st, year, regions[i], segments, j);
    CellKeepsShape(RegionTurns(st, year, regions[i], segments[..j]), year, startYear, regions, segments, i, j);
  }

  /** The turns in cell (i, j) of a year move the progress on by one cell. */
  lemma CellKeepsShape(mid: SimState, year: int, startYear: int, regions: seq<Region>,
                       segments: seq<MarketSegment>, i: nat, j: nat)
    requires startYear >= 2025 && year >= startYear && i < |regions| && j < |segments|
    requires InYear(mid, year - startYear, startYear, regions, segments, i, j)
    ensures InYear(CellTurns(mid, Roster, year, regions[i], segments[j], MarketSize(regions[i], segments[j], year)),
                   year - startYear, startYear, regions, segments, i, j + 1)
  {
    var marketSize := MarketSize(regions[i], segments[j], year);
    var after := CellTurns(mid, Roster, year, regions[i], segments[j], marketSize);
    CellTurnsKeepInvariants(mid, Roster, year, regions[i], segments[j], marketSize);
    CellTurnsStepRecords(mid, year, regions[i], segments[j], marketSize);
    CellStepKeepsShape(mid.results, after.results, regions, segments, i, j, year, startYear, marketSize);
  }

  /** The first i regions of a year: every list in those regions gains its
      record for the year. */
  lemma {:induction false} YearTurnsShape(st: SimState, year: int, startYear: int, regions: seq<Region>,
                                          segments: seq<MarketSegment>, i: nat)
    requires startYear >= 2025 && year >= startYear && i <= |regions|
    requires InYear(st, year - startYear, startYear, regions, segments, 0, 0)
    ensures InYear(YearTurns(st, year, regions[..i], segments), year - startYear, startYear, regions, segments, i, 0)
    decreases i
  {
    if i == 0 {
      assert regions[..0] == [];
    } else {
      YearTurnsShape(st, year, startYear, regions, segments, i - 1);
      YearRegionShape(st, year, startYear, regions, segments, i - 1);
    }
  }

  /** One more region of the year moves the progress on to the next region. */
  lemma YearRegionShape(st: SimState, year: int, startYear: int, regions: seq<Region>,
                        segments: seq<MarketSegment>, i: nat)
    requires startYear >= 2025 && year >= startYear && i < |regions|
    requires InYear(YearTurns(st, year, regions[..i], segments), year - startYear, startYear, regions, segments, i, 0)
    ensures InYear(YearTurns(st, year, regions[..i + 1], segments), year - startYear, startYear, regions, segments, i + 1, 0)
  {
    var mid := YearTurns(st, year, regions[..i], segments);
    YearTurnsStep(st, year, regions, segments, i);
    RegionTurnsShape(mid, year, startYear, regions, segments, i, |segments|);
    assert segments[..|segments|] == segments;
    RegionDone(RegionTurns(mid, year, regions[i], segments).results, year - startYear, regions, segments, i);
  }

  /** Before a year's first cell, "one record per completed year" is the
      year-start progress. */
  lemma YearStart(res: Results, years: int, regions: seq<Region>, segments: seq<MarketSegment>)
    requires forall k :: k in res && !Skipped(k) ==> |res[k]| == years
    ensures Progress(res, years, regions, segments, 0, 0)
  {
    assert regions[..0] == [] && segments[..0] == [];
  }

  /** After a year's last region every requested cell has had its turn. */
  lemma YearDone(res: Results, years: int, regions: seq<Region>, segments: seq<MarketSegment>)
    requires Covers(res, regions, segments)
    requires Progress(res, years, regions, segments, |regions|, 0)
    ensures forall k :: k in res && !Skipped(k) ==> |res[k]| == years + 1
  {
    assert regions[..|regions|] == regions;
  }

  /** The shape of the results after n years from startYear on: the run's
      standing invariant, and for duplicate-free arguments one record per
      year in every non-skipped list, entry i priced at year startYear + i. */
  ghost predicate Shaped(st: SimState, n: nat, startYear: int, regions: seq<Region>, segments: seq<MarketSegment>)
    requires startYear >= 2025
  {
    && RunValid(st, regions, segments)
    && (Distinct(regions) && Distinct(segments) ==>
          (forall k :: k in st.results && !Skipped(k) ==> |st.results[k]| == n)
          && YearAligned(st.results, startYear))
  }

  /** What the shape says about the result lists. */
  lemma ShapedResults(st: SimState, n: nat, startYear: int, regions: seq<Region>, segments: seq<MarketSegment>)
    requires startYear >= 2025
    requires Shaped(st, n, startYear, regions, segments)
    ensures PresenceValid(st.presence)
    ensures Covers(st.results, regions, segments) && Bounded(st.results)
    ensures Distinct(regions) && Distinct(segments) ==>
              forall k :: k in st.results && !Skipped(k) ==> |st.results[k]| == n
    ensures Distinct(regions) && Distinct(segments) ==> YearAligned(st.results, startYear)
  {
  }

  /** One more year keeps the shape, with one more record per list. */
  lemma YearKeepsShape(st: SimState, n: nat, startYear: int, regions: seq<Region>, segments: seq<MarketSegment>)
    requires startYear >= 2025
    requires Shaped(st, n, startYear, regions, segments)
    ensures Shaped(YearTurns(st, startYear + n, regions, segments), n + 1, startYear, regions, segments)
  {
    if Distinct(regions) && Distinct(segments) {
      YearStart(st.results, n, regions, segments);
    }
    YearTurnsShape(st, startYear + n, startYear, regions, segments, |regions|);
    assert regions[..|regions|] == regions;
    if Distinct(regions) && Distinct(segments) {
      YearDone(YearTurns(st, startYear + n, regions, segments).results, n, regions, segments);
    }
  }

  /** The whole run from lists that start empty: after n years the presence
      table is still valid, there is exactly one list per requested cell,
      skipped lists stay empty and every share lies in [0, MaxShare]; for
      duplicate-free arguments every other list holds one record per year,
      entry i priced at year startYear + i. */
  lemma {:induction false} YearsRunShape(st: SimState, startYear: int, n: nat,
                                         regions: seq<Region>, segments: seq<MarketSegment>)
    requires startYear >= 2025
    requires PresenceValid(st.presence) && Covers(st.results, regions, segments)
    requires forall k :: k in st.results ==> st.results[k] == []
    ensures Shaped(YearsRun(st, startYear, n, regions, segments), n, startYear, regions, segments)
    decreases n
  {
    if n == 0 {
      EmptyShaped(st, startYear, regions, segments);
    } else {
      YearsRunShape(st, startYear, n - 1, regions, segments);
      YearsRunNextShape(st, startYear, n - 1, regions, segments);
    }
  }

  /** One more year of the run keeps its shape. */
  lemma YearsRunNextShape(st: SimState, startYear: int, n: nat, regions: seq<Region>, segments: seq<MarketSegment>)
    requires startYear >= 2025
    requires Shaped(YearsRun(st, startYear, n, regions, segments), n, startYear, regions, segments)
    ensures Shaped(YearsRun(st, startYear, n + 1, regions, segments), n + 1, startYear, regions, segments)
  {
    YearsRunStep(st, startYear, n, regions, segments);
    YearKeepsShape(YearsRun(st, startYear, n, regions, segments), n, startYear, regions, segments);
  }

  /** Empty lists are shaped for zero years. */
  lemma EmptyShaped(st: SimState, startYear: int, regions: seq<Region>, segments: seq<MarketSegment>)
    requires startYear >= 2025
    requires PresenceValid(st.presence) && Covers(st.results, regions, segments)
    requires forall k :: k in st.results ==> st.results[k] == []
    ensures Shaped(st, 0, startYear, regions, segments)
  {
    assert Bounded(st.results);
    assert YearAligned(st.results, startYear);
  }

  /** The run `simulate_expansion` performs, from a valid presence table and
      an empty list per requested cell: afterwards the presence table is
      still valid, there is exactly one list per configured manufacturer,
      requested region and requested segment, skipped lists are empty and
      every share lies in [0, MaxShare]; for duplicate-free arguments every
      other list holds one record per simulated year, entry i priced at
      year startYear + i. */
  lemma ExpansionShape(p0: map<Manufacturer, map<Region, real>>, startYear: int, endYear: int,
                       regions: seq<Region>, segments: seq<MarketSegment>)
    requires startYear >= 2025 && PresenceValid(p0)
    ensures var st := YearsRun(SimState(p0, EmptyResults(regions, segments)), startYear,
                               YearCount(startYear, endYear), regions, segments);
            && PresenceValid(st.presence)
            && Covers(st.results, regions, segments) && Bounded(st.results)
            && (Distinct(regions) && Distinct(segments) ==>
                  && (forall k :: k in st.results && !Skipped(k) ==> |st.results[k]| == YearCount(startYear, endYear))
                  && YearAligned(st.results, startYear))
  {
    var st0 := SimState(p0, EmptyResults(regions, segments));
    YearsRunShape(st0, startYear, YearCount(startYear, endYear), regions, segments);
    ShapedResults(YearsRun(st0, startYear, YearCount(startYear, endYear), regions, segments),
                  YearCount(startYear, endYear), startYear, regions, segments);
  }

  class ExpansionSimulator {
    /** Per-manufacturer, per-region market share, overwritten as the simulation runs. */
    var presence: map<Manufacturer, map<Region, real>>

    ghost predicate Valid()
      reads this
    {
      PresenceValid(presence)
    }

    constructor ()
      ensures Valid()
      ensures presence == map m | m in Roster :: InitialPresence(m)
    {
      presence := map m | m in Roster :: InitialPresence(m);
    }

    /** One manufacturer's update of one (region, segment) cell: choose the
        strategy, compute the capped share, overwrite the region's presence
        with it and price the revenue. */
    method UpdateCell(m: Manufacturer, region: Region, segment: MarketSegment,
                      year: int, marketSize: real) returns (rec: Record)
      requires Valid() && m in Roster
      modifies this
      ensures Valid()
      ensures rec == TurnRecord(m, old(presence[m]), region, segment, year, marketSize)
      ensures presence == old(presence)[m := old(presence[m])[region := rec.share]]
    {
      var p := Profile(m);
      var strategy := DetermineStrategy(p, presence[m], region, year);
      var share := MarketShare(p, presence[m], region, segment, strategy);
      TurnRecordInRange(m, presence[m], region, segment, year, marketSize);
      presence := presence[m := presence[m][region := share]];
      rec := Record(share, Revenue(marketSize, share, segment), strategy);
    }

    /** One manufacturer's turn in a (year, region, segment) cell: a
        manufacturer that skips the segment changes nothing, any other one
        updates its presence and appends the new record to its list. */
    method StepManufacturer(m: Manufacturer, year: int, region: Region, segment: MarketSegment,
                            marketSize: real, res: Results) returns (res': Results)
      requires Valid() && m in Roster && CellKey(m, region, segment) in res
      modifies this
      ensures SimState(presence, res') == Turn(SimState(old(presence), res), m, year, region, segment, marketSize)
      ensures Valid() && res'.Keys == res.Keys
    {
      var k := CellKey(m, region, segment);
      ghost var st := SimState(presence, res);
      if Skips(m, segment) {
        res' := res;
      } else {
        var rec := UpdateCell(m, region, segment, year, marketSize);
        res' := res[k := res[k] + [rec]];
        assert SimState(presence, res') == SimState(st.presence[m := st.presence[m][region := rec.share]],
                                                    st.results[k := st.results[k] + [rec]]);
      }
    }

    /** The manufacturer loop for one (year, region, segment), in roster order. */
    method SimulateCell(year: int, region: Region, segment: MarketSegment, marketSize: real, res: Results)
      returns (res': Results)
      requires Valid()
      requires forall m :: m in Roster ==> CellKey(m, region, segment) in res
      modifies this
      ensures SimState(presence, res') == CellTurns(SimState(old(presence), res), Roster, year, region, segment, marketSize)
      ensures Valid() && res'.Keys == res.Keys
    {
      res' := res;
      var q := 0;
      while q < |Roster|
        invariant 0 <= q <= |Roster|
        invariant Valid() && res'.Keys == res.Keys
        invariant SimState(presence, res') == CellTurns(SimState(old(presence), res), Roster[..q], year, region, segment, marketSize)
      {
        res' := StepManufacturer(Roster[q], year, region, segment, marketSize, res');
        CellTurnsStep(SimState(old(presence), res), Roster, q, year, region, segment, marketSize);
        q := q + 1;
      }
      assert Roster[..q] == Roster;
    }

    /** Runs every year, region, segment and manufacturer in that nesting
        order, from an empty list per configured manufacturer, requested
        region and requested segment. */
    method SimulateExpansion(startYear: int, endYear: int,
                             regionsArg: Option<seq<Region>>, segmentsArg: Option<seq<MarketSegment>>)
      returns (results: Results)
      requires Valid() && startYear >= 2025
      modifies this
      ensures Valid()
      ensures SimState(presence, results)
           == YearsRun(SimState(old(presence), EmptyResults(OrAll(regionsArg, AllRegions), OrAll(segmentsArg, AllSegments))),
                       startYear, YearCount(startYear, endYear),
                       OrAll(regionsArg, AllRegions), OrAll(segmentsArg, AllSegments))
    {
      var regions := OrAll(regionsArg, AllRegions);
      var segments := OrAll(segmentsArg, AllSegments);
      results := SimulateYears(startYear, endYear, regions, segments, EmptyResults(regions, segments));
    }

    /** The years from `startYear` through `endYear`, one after another. */
    method SimulateYears(startYear: int, endYear: int, regions: seq<Region>, segments: seq<MarketSegment>, res: Results)
      returns (res': Results)
      requires Valid() && startYear >= 2025
      requires ResultKeys(regions, segments) <= res.Keys
      modifies this
      ensures Valid()
      ensures SimState(presence, res') == YearsRun(SimState(old(presence), res), startYear, YearCount(startYear, endYear), regions, segments)
    {
      ghost var st0 := SimState(presence, res);
      res' := res;
      var year := startYear;
      ghost var done: nat := 0;
      while year <= endYear
        invariant Valid()
        invariant year == startYear + done && done <= YearCount(startYear, endYear)
        invariant res'.Keys == res.Keys
        invariant SimState(presence, res') == YearsRun(st0, startYear, done, regions, segments)
      {
        res' := SimulateYear(year, regions, segments, res');
        YearsRunStep(st0, startYear, done, regions, segments);
        year, done := year + 1, done + 1;
      }
    }

    /** One simulated year: every region in turn. */
    method SimulateYear(year: int, regions: seq<Region>, segments: seq<MarketSegment>, res: Results)
      returns (res': Results)
      requires Valid() && year >= 2025
      requires ResultKeys(regions, segments) <= res.Keys
      modifies this
      ensures SimState(presence, res') == YearTurns(SimState(old(presence), res), year, regions, segments)
      ensures Valid() && res'.Keys == res.Keys
    {
      res' := res;
      var i := 0;
      while i < |regions|
        invariant 0 <= i <= |regions|
        invariant Valid() && res'.Keys == res.Keys
        invariant SimState(presence, res') == YearTurns(SimState(old(presence), res), year, regions[..i], segments)
      {
        res' := SimulateRegion(year, regions[i], segments, res');
        YearTurnsStep(SimState(old(presence), res), year, regions, segments, i);
        i := i + 1;
      }
      assert regions[..i] == regions;
    }

    /** One region of one simulated year: every segment in turn, each at that
        year's market size. */
    method SimulateRegion(year: int, region: Region, segments: seq<MarketSegment>, res: Results)
      returns (res': Results)
      requires Valid() && year >= 2025
      requires forall m, s :: m in Roster && s in segments ==> CellKey(m, region, s) in res
      modifies this
      ensures SimState(presence, res') == RegionTurns(SimState(old(presence), res), year, region, segments)
      ensures Valid() && res'.Keys == res.Keys
    {
      res' := res;
      var j := 0;
      while j < |segments|
        invariant 0 <= j <= |segments|
        invariant Valid() && res'.Keys == res.Keys
        invariant SimState(presence, res') == RegionTurns(SimState(old(presence), res), year, region, segments[..j])
      {
        var marketSize := MarketSize(region, segments[j], year);
        res' := SimulateCell(year, region, segments[j], marketSize, res');
        RegionTurnsStep(SimState(old(presence), res), year, region, segments, j);
        j := j + 1;
      }
      assert segments[..j] == segments;
    }
  }

  /** The new list is the old one with one record appended whose revenue is
      its share times the given per-share price. */
  predicate Appended(before: seq<Record>, after: seq<Record>, marketSize: real, segment: MarketSegment)
  {
    && |after| == |before| + 1
    && after[..|before|] == before
    && PricedFrom(after, |before|, marketSize, segment)
  }

  /** Every record from index `from` on is priced at the given market size. */
  predicate PricedFrom(rs: seq<Record>, from: nat, marketSize: real, segment: MarketSegment)
  {
    forall i :: from <= i < |rs| ==> rs[i].revenue == Revenue(marketSize, rs[i].share, segment)
  }

  /** Appending an in-range share to a non-skipped list keeps the results bounded. */
  lemma AppendKeepsBounded(res: Results, k: CellKey, rec: Record)
    requires Bounded(res) && k in res && !Skipped(k)
    requires 0.0 <= rec.share <= MaxShare
    ensures Bounded(res[k := res[k] + [rec]])
  {
    assert SharesInRange(res[k] + [rec]) by {
      assert forall i :: 0 <= i < |res[k]| ==> (res[k] + [rec])[i] == res[k][i];
    }
  }

  /** Appending a record priced at the cell's market size is a turn of a
      non-skipped manufacturer. */
  lemma AppendSteps(k: CellKey, marketSize: real, before: seq<Record>, rec: Record)
    requires !Skipped(k)
    requires rec.revenue == Revenue(marketSize, rec.share, k.segment)
    ensures RecordsStepped(k, marketSize, before, before + [rec])
  {
    assert (before + [rec])[..|before|] == before;
  }

  /** A cell's list after its manufacturer's turn: unchanged when the
      manufacturer skips the segment, one priced record longer otherwise. */
  predicate RecordsStepped(k: CellKey, marketSize: real, before: seq<Record>, after: seq<Record>)
  {
    if Skipped(k) then after == before else Appended(before, after, marketSize, k.segment)
  }

  /** Whether cell k has had its turn in the current year once the loops
      reach region index i and segment index j. */
  predicate Done(k: CellKey, regions: seq<Region>, segments: seq<MarketSegment>, i: nat, j: nat)
    requires i <= |regions| && j <= |segments|
  {
    k.region in regions[..i] || (i < |regions| && k.region == regions[i] && k.segment in segments[..j])
  }

  /** Every non-skipped cell holds one record per completed year, plus one for
      the current year once it has had its turn. */
  predicate Progress(res: Results, years: int, regions: seq<Region>, segments: seq<MarketSegment>,
                     i: nat, j: nat)
    requires i <= |regions| && j <= |segments|
  {
    forall k :: k in res && !Skipped(k) ==>
      |res[k]| == years + (if Done(k, regions, segments, i, j) then 1 else 0)
  }

  /** Finishing the last segment of a region is starting the next region. */
  lemma RegionDone(res: Results, years: int, regions: seq<Region>, segments: seq<MarketSegment>, i: nat)
    requires i < |regions|
    requires Covers(res, regions, segments)
    requires Distinct(regions) && Distinct(segments) ==> Progress(res, years, regions, segments, i, |segments|)
    ensures Distinct(regions) && Distinct(segments) ==> Progress(res, years, regions, segments, i + 1, 0)
  {
    assert regions[..i + 1] == regions[..i] + [regions[i]];
    assert segments[..|segments|] == segments;
  }

  /** One cell step keeps the year-count and year-alignment invariants of the
      segment loop. */
  lemma CellStepKeepsShape(before: Results, after: Results, regions: seq<Region>,
                           segments: seq<MarketSegment>, i: nat, j: nat,
                           year: int, startYear: int, marketSize: real)
    requires startYear >= 2025 && year >= startYear
    requires i < |regions| && j < |segments|
    requires marketSize == MarketSize(regions[i], segments[j], year)
    requires before.Keys == after.Keys
    requires forall k :: k in before && !(k.region == regions[i] && k.segment == segments[j]) ==> after[k] == before[k]
    requires forall k :: k in before && k.region == regions[i] && k.segment == segments[j] ==>
               RecordsStepped(k, marketSize, before[k], after[k])
    requires Distinct(regions) && Distinct(segments) ==>
               Progress(before, year - startYear, regions, segments, i, j) && YearAligned(before, startYear)
    ensures Distinct(regions) && Distinct(segments) ==>
              Progress(after, year - startYear, regions, segments, i, j + 1) && YearAligned(after, startYear)
  {
    if Distinct(regions) && Distinct(segments) {
      CellStepKeepsCounts(before, after, regions, segments, i, j, year - startYear);
      CellStepKeepsAlignment(before, after, regions[i], segments[j], year, startYear);
    }
  }

  lemma CellStepKeepsCounts(before: Results, after: Results, regions: seq<Region>,
                            segments: seq<MarketSegment>, i: nat, j: nat, years: int)
    requires i < |regions| && j < |segments|
    requires Distinct(regions) && Distinct(segments)
    requires before.Keys == after.Keys
    requires forall k :: k in before && !(k.region == regions[i] && k.segment == segments[j]) ==> after[k] == before[k]
    requires forall k :: k in before && k.region == regions[i] && k.segment == segments[j] && !Skipped(k) ==>
               |after[k]| == |before[k]| + 1
    requires forall k :: k in before && Skipped(k) ==> after[k] == before[k]
    requires Progress(before, years, regions, segments, i, j)
    ensures Progress(after, years, regions, segments, i, j + 1)
  {
    assert segments[..j + 1] == segments[..j] + [segments[j]];
    assert regions[i] !in regions[..i];
    assert segments[j] !in segments[..j];
    forall k | k in after && !Skipped(k)
      ensures |after[k]| == years + (if Done(k, regions, segments, i, j + 1) then 1 else 0)
    {
      assert |before[k]| == years + (if Done(k, regions, segments, i, j) then 1 else 0);
    }
  }

  lemma CellStepKeepsAlignment(before: Results, after: Results, region: Region, segment: MarketSegment,
                               year: int, startYear: int)
    requires startYear >= 2025 && year >= startYear
    requires before.Keys == after.Keys
    requires forall k :: k in before && !(k.region == region && k.segment == segment) ==> after[k] == before[k]
    requires forall k :: k in before && k.region == region && k.segment == segment && Skipped(k) ==> after[k] == before[k]
    requires forall k :: k in before && k.region == region && k.segment == segment && !Skipped(k) ==>
               |before[k]| == year - startYear
               && Appended(before[k], after[k], MarketSize(region, segment, year), segment)
    requires YearAligned(before, startYear)
    ensures YearAligned(after, startYear)
  {
    forall k | k in after
      ensures CellAligned(k, after[k], startYear)
    {
      if k.region == region && k.segment == segment && !Skipped(k) {
        AppendKeepsAligned(k, before[k], after[k], year, startYear);
      }
    }
  }

  /** Appending the record of year startYear + |before| to an aligned list
      keeps it aligned. */
  lemma AppendKeepsAligned(k: CellKey, before: seq<Record>, after: seq<Record>, year: int, startYear: int)
    requires startYear >= 2025 && year == startYear + |before|
    requires CellAligned(k, before, startYear)
    requires Appended(before, after, MarketSize(k.region, k.segment, year), k.segment)
    ensures CellAligned(k, after, startYear)
  {
    forall n | 0 <= n < |after|
      ensures after[n].revenue == Revenue(MarketSize(k.region, k.segment, startYear + n), after[n].share, k.segment)
    {
      if n < |before| {
        assert after[n] == before[n];
      }
    }
  }
}
