/** The automotive consulting market: services keyed by their type, each
    with a market size that compounds at its growth rate, the market's
    total size, and its per-service forecast. */
module MarketDynamics {
  import opened Wrappers
  import opened Numeric

  datatype ServiceType = Strategy | Digital | Operations | EMobility | Autonomous | MobilityServices

  /** Every service type, in declaration order. */
  const AllServiceTypes: seq<ServiceType> := [Strategy, Digital, Operations, EMobility, Autonomous, MobilityServices]

  datatype ClientType = Oem | Tier1 | Tier2 | Mobility | Tech | Startup

  /** A consulting service: annual growth rate, market size in $M, and the
      intensity of competition on a 0-1 scale. */
  datatype ConsultingService = ConsultingService(
    serviceType: ServiceType,
    growthRate: real,
    marketSize: real,
    competitiveIntensity: real,
    keyCompetitors: seq<string>)

  /** The market size after the given number of years of growth. */
  function ForecastMarketSize(s: ConsultingService, years: nat): real
  {
    s.marketSize * Pow(1.0 + s.growthRate, years)
  }

  /** No years of growth leave the size as it is, and each further year
      multiplies it by one plus the growth rate. */
  lemma ForecastRecurrence(s: ConsultingService, years: nat)
    ensures ForecastMarketSize(s, 0) == s.marketSize
    ensures ForecastMarketSize(s, years + 1) == ForecastMarketSize(s, years) * (1.0 + s.growthRate)
  {
    assert Pow(1.0 + s.growthRate, years + 1) == (1.0 + s.growthRate) * Pow(1.0 + s.growthRate, years);
  }

  /** With a non-negative growth rate and size, a longer forecast is never
      smaller. */
  lemma ForecastMonotone(s: ConsultingService, m: nat, n: nat)
    requires s.growthRate >= 0.0 && s.marketSize >= 0.0 && m <= n
    ensures ForecastMarketSize(s, m) <= ForecastMarketSize(s, n)
  {
    PowMonotone(1.0 + s.growthRate, m, n);
    ProductMonotoneLeft(s.marketSize, Pow(1.0 + s.growthRate, m), Pow(1.0 + s.growthRate, n));
  }

  lemma ProductMonotoneLeft(a: real, x: real, y: real)
    requires a >= 0.0 && x <= y
    ensures a * x <= a * y
  {
  }

  /** The total of the sizes of the services present, in the order of
      the given types. */
  function SizeOver(types: seq<ServiceType>, services: map<ServiceType, ConsultingService>): real
  {
    if types == [] then 0.0
    else (if types[0] in services then services[types[0]].marketSize else 0.0) + SizeOver(types[1..], services)
  }

  /** The market's total size: the sum of every service's size. */
  function TotalSize(services: map<ServiceType, ConsultingService>): real
  {
    SizeOver(AllServiceTypes, services)
  }

  /** Adding or replacing one service changes the total by the difference
      of the sizes. */
  lemma {:induction false} SizeOverUpdate(types: seq<ServiceType>, services: map<ServiceType, ConsultingService>,
                                          s: ConsultingService)
    requires forall i, j :: 0 <= i < j < |types| ==> types[i] != types[j]
    ensures SizeOver(types, services[s.serviceType := s])
            == SizeOver(types, services) + (if s.serviceType in types then s.marketSize else 0.0)
               - (if s.serviceType in types && s.serviceType in services then services[s.serviceType].marketSize else 0.0)
  {
    if types != [] {
      SizeOverUpdate(types[1..], services, s);
      if types[0] == s.serviceType {
        assert s.serviceType !in types[1..] by {
          forall i | 0 <= i < |types[1..]|
            ensures types[1..][i] != s.serviceType
          {
            assert types[1..][i] == types[i + 1];
          }
        }
      } else {
        assert s.serviceType in types <==> s.serviceType in types[1..];
      }
    }
  }

  /** The market: services keyed by their type. */
  class ConsultingMarket {
    var services: map<ServiceType, ConsultingService>

    /** Every service is stored under its own type. */
    ghost predicate Valid()
      reads this
    {
      forall t :: t in services ==> services[t].serviceType == t
    }

    /** A market holding the given services (the program's default is
        none). It is valid exactly when each service is stored under its
        own type. */
    constructor (services: map<ServiceType, ConsultingService>)
      ensures this.services == services
      ensures Valid() <==> forall t :: t in services ==> services[t].serviceType == t
    {
      this.services := services;
    }

    /** Stores the service under its type, replacing any service of that
        type and leaving the others as they were. */
    method AddService(s: ConsultingService)
      modifies this
      ensures old(Valid()) ==> Valid()
      ensures services == old(services)[s.serviceType := s]
      ensures TotalSize(services) == old(TotalSize(services)) + s.marketSize
              - (if s.serviceType in old(services) then old(services)[s.serviceType].marketSize else 0.0)
    {
      SizeOverUpdate(AllServiceTypes, services, s);
      ghost var before := services;
      services := services[s.serviceType := s];
      assert forall t :: t in services ==> t == s.serviceType || (t in before && services[t] == before[t]);
    }

    /** The size of one service, or the total when no type is given; a
        type without a service is an error. */
    function GetMarketSize(serviceType: Option<ServiceType>): (r: Result<real, string>)
      reads this
      ensures serviceType.None? ==> r == Success(TotalSize(services))
      ensures serviceType.Some? ==> (r.Success? <==> serviceType.value in services)
      ensures serviceType.Some? && r.Success? ==> r.value == services[serviceType.value].marketSize
    {
      match serviceType
      case None => Success(TotalSize(services))
      case Some(t) => if t in services then Success(services[t].marketSize) else Failure("KeyError")
    }

    /** The forecast of every service after the given years. */
    function ForecastMarket(years: nat): (f: map<ServiceType, real>)
      reads this
      ensures f.Keys == services.Keys
      ensures forall t :: t in f ==> f[t] == ForecastMarketSize(services[t], years)
    {
      map t | t in services :: ForecastMarketSize(services[t], years)
    }
  }

  const SampleEMobility: ConsultingService :=
    ConsultingService(EMobility, 0.15, 3500.0, 0.7, ["McKinsey", "BCG", "Roland Berger", "PwC"])
  const SampleAutonomous: ConsultingService :=
    ConsultingService(Autonomous, 0.25, 2800.0, 0.8, ["McKinsey", "BCG", "Deloitte", "Accenture"])
  const SampleMobilityServices: ConsultingService :=
    ConsultingService(MobilityServices, 0.18, 2200.0, 0.65, ["BCG", "Roland Berger", "McKinsey", "EY"])

  /** A market holding the three sample services. */
  method CreateSampleMarket() returns (market: ConsultingMarket)
    ensures fresh(market) && market.Valid()
    ensures market.services ==
            map[EMobility := SampleEMobility, Autonomous := SampleAutonomous, MobilityServices := SampleMobilityServices]
    ensures TotalSize(market.services) == 8500.0
  {
    market := new ConsultingMarket(map[]);
    market.AddService(SampleEMobility);
    market.AddService(SampleAutonomous);
    market.AddService(SampleMobilityServices);
    SampleTotal();
  }

  /** The sample services total 8500 ($M). */
  lemma SampleTotal()
    ensures TotalSize(map[EMobility := SampleEMobility, Autonomous := SampleAutonomous,
                          MobilityServices := SampleMobilityServices]) == 8500.0
  {
    var m := map[EMobility := SampleEMobility, Autonomous := SampleAutonomous, MobilityServices := SampleMobilityServices];
    assert SizeOver(AllServiceTypes[5..], m) == 2200.0;
    assert SizeOver(AllServiceTypes[4..], m) == 5000.0;
    assert SizeOver(AllServiceTypes[3..], m) == 8500.0;
    assert SizeOver(AllServiceTypes[2..], m) == 8500.0;
    assert SizeOver(AllServiceTypes[1..], m) == 8500.0;
  }
}
