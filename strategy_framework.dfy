/** The consulting firm's strategy framework: capabilities with a gap to
    their target, objectives whose progress is derived from those gaps, a
    registry of objectives keyed by name, and initiatives with a clamped
    progress and an append-only risk list. */
module StrategyFramework {
  import opened Wrappers
  import opened Numeric

  datatype StrategicPillar = Technology | Talent | Client | Operations | Growth

  datatype MarketPosition = Leader | Challenger | Follower | Niche

  /** Strengths are on a 1-5 scale; priority 1 is the highest. */
  datatype Capability = Capability(name: string, currentStrength: real, targetStrength: real, priority: int)

  /** A key result: a metric and its target value. */
  datatype KeyResult = KeyResult(metric: string, target: real)

  datatype StrategicObjective = StrategicObjective(
    name: string,
    pillar: StrategicPillar,
    description: string,
    keyResults: seq<KeyResult>,
    capabilities: seq<Capability>)

  /** The top of the strength scale. */
  const MaxStrength: real := 5.0

  /** How far a capability still is from its target. */
  function Gap(c: Capability): (g: real)
    ensures g >= 0.0 <==> c.currentStrength <= c.targetStrength
    ensures c.currentStrength + g == c.targetStrength
  {
    c.targetStrength - c.currentStrength
  }

  /** Sum of the capabilities' gaps. */
  function TotalGap(caps: seq<Capability>): real
  {
    if caps == [] then 0.0 else Gap(caps[0]) + TotalGap(caps[1..])
  }

  /** Sum of the distances from each current strength to the top of the scale. */
  function MaxGap(caps: seq<Capability>): real
  {
    if caps == [] then 0.0 else (MaxStrength - caps[0].currentStrength) + MaxGap(caps[1..])
  }

  /** Every capability sits on the scale with its current strength at most its target. */
  predicate OnScale(caps: seq<Capability>)
  {
    forall i :: 0 <= i < |caps| ==> caps[i].currentStrength <= caps[i].targetStrength <= MaxStrength
  }

  /** On the scale, the total gap lies between 0 and the maximal gap. */
  lemma {:induction false} GapsBounded(caps: seq<Capability>)
    requires OnScale(caps)
    ensures 0.0 <= TotalGap(caps) <= MaxGap(caps)
  {
    if caps != [] {
      assert OnScale(caps[1..]) by {
        forall i | 0 <= i < |caps[1..]|
          ensures caps[1..][i].currentStrength <= caps[1..][i].targetStrength <= MaxStrength
        {
          assert caps[1..][i] == caps[i + 1];
        }
      }
      GapsBounded(caps[1..]);
    }
  }

  /** Progress toward an objective: none without capabilities, complete when
      nothing is left to gain, otherwise the share of the maximal gap closed. */
  function Progress(o: StrategicObjective): (p: real)
    ensures o.capabilities == [] ==> p == 0.0
    ensures OnScale(o.capabilities) ==> 0.0 <= p <= 1.0
    ensures o.capabilities != [] && MaxGap(o.capabilities) <= 0.0 ==> p == 1.0
    ensures o.capabilities != [] && OnScale(o.capabilities) ==> (p == 1.0 <==> TotalGap(o.capabilities) == 0.0)
  {
    var caps := o.capabilities;
    if caps == [] then 0.0
    else
      var maxGap := MaxGap(caps);
      if maxGap > 0.0 then
        ProgressFraction(caps);
        1.0 - TotalGap(caps) / maxGap
      else
        NoRoomNoGap(caps);
        1.0
  }

  lemma ProgressFraction(caps: seq<Capability>)
    requires MaxGap(caps) > 0.0
    ensures OnScale(caps) ==> 0.0 <= 1.0 - TotalGap(caps) / MaxGap(caps) <= 1.0
    ensures 1.0 - TotalGap(caps) / MaxGap(caps) == 1.0 <==> TotalGap(caps) == 0.0
  {
    if OnScale(caps) {
      GapsBounded(caps);
      FractionInUnit(TotalGap(caps), MaxGap(caps));
    }
  }

  /** On the scale, no room left to the top of the scale means no gap left. */
  lemma NoRoomNoGap(caps: seq<Capability>)
    requires MaxGap(caps) <= 0.0
    ensures OnScale(caps) ==> TotalGap(caps) == 0.0
  {
    if OnScale(caps) {
      GapsBounded(caps);
    }
  }

  /** The progress of each objective, in order. */
  function Progresses(objs: seq<StrategicObjective>): (ps: seq<real>)
    ensures |ps| == |objs|
    ensures forall i :: 0 <= i < |objs| ==> ps[i] == Progress(objs[i])
  {
    if objs == [] then [] else [Progress(objs[0])] + Progresses(objs[1..])
  }

  /** Mean progress over the objectives, 0 when there are none. */
  function MeanProgress(objs: seq<StrategicObjective>): (r: real)
    ensures objs == [] ==> r == 0.0
    ensures (forall i :: 0 <= i < |objs| ==> OnScale(objs[i].capabilities)) ==> 0.0 <= r <= 1.0
  {
    if objs == [] then 0.0
    else
      var ps := Progresses(objs);
      ProgressesInUnit(objs);
      Sum(ps) / |objs| as real
  }

  lemma ProgressesInUnit(objs: seq<StrategicObjective>)
    requires objs != []
    ensures (forall i :: 0 <= i < |objs| ==> OnScale(objs[i].capabilities)) ==>
              0.0 <= Sum(Progresses(objs)) / |objs| as real <= 1.0
  {
    if forall i :: 0 <= i < |objs| ==> OnScale(objs[i].capabilities) {
      var ps := Progresses(objs);
      forall i | 0 <= i < |ps|
        ensures 0.0 <= ps[i] <= 1.0
      {
        assert OnScale(objs[i].capabilities);
      }
      MeanInUnit(ps);
    }
  }

  /** The objectives whose pillar matches, in their original order. */
  function FilterPillar(objs: seq<StrategicObjective>, pillar: StrategicPillar): (r: seq<StrategicObjective>)
    ensures forall o :: o in r <==> o in objs && o.pillar == pillar
    ensures |r| <= |objs|
  {
    if objs == [] then []
    else if objs[0].pillar == pillar then [objs[0]] + FilterPillar(objs[1..], pillar)
    else FilterPillar(objs[1..], pillar)
  }

  /** The objectives stored under the given names, in that order. */
  function ValuesOf(names: seq<string>, objectives: map<string, StrategicObjective>): (vs: seq<StrategicObjective>)
    requires forall n :: n in names ==> n in objectives
    ensures |vs| == |names|
    ensures forall i :: 0 <= i < |names| ==> vs[i] == objectives[names[i]]
  {
    if names == [] then [] else [objectives[names[0]]] + ValuesOf(names[1..], objectives)
  }

  const TechObjective: StrategicObjective :=
    StrategicObjective(
      "Lead in Automotive Tech Consulting", Technology,
      "Become the go-to consulting firm for automotive technology transformation",
      [KeyResult("Market Share in Tech Consulting", 0.25),
       KeyResult("IP & Assets Developed", 15.0),
       KeyResult("Tech Talent Headcount", 200.0)],
      [Capability("Digital Twin Expertise", 2.0, 5.0, 1),
       Capability("AI/ML in Automotive", 3.0, 5.0, 1),
       Capability("Software-Defined Vehicle", 1.0, 4.0, 2)])

  const ClientObjective: StrategicObjective :=
    StrategicObjective(
      "Enhance Client Value Proposition", Client,
      "Develop industry-leading client solutions and delivery models",
      [KeyResult("Client Satisfaction Score", 4.5),
       KeyResult("Repeat Business Rate", 0.7),
       KeyResult("Solution Innovation Index", 4.0)],
      [Capability("Solution Development", 3.0, 5.0, 1),
       Capability("Client Relationship Management", 4.0, 5.0, 2),
       Capability("Industry-Specific Knowledge", 3.0, 4.0, 2)])

  /** The two default objectives are 1/9 and 1/5 of the way, 7/45 on average. */
  lemma DefaultProgress()
    ensures Progress(TechObjective) == 1.0 / 9.0
    ensures Progress(ClientObjective) == 1.0 / 5.0
    ensures MeanProgress([TechObjective, ClientObjective]) == 7.0 / 45.0
  {
    var t := TechObjective.capabilities;
    assert TotalGap(t[2..]) == 3.0;
    assert TotalGap(t[1..]) == 5.0;
    assert MaxGap(t[2..]) == 4.0;
    assert MaxGap(t[1..]) == 6.0;
    var c := ClientObjective.capabilities;
    assert TotalGap(c[2..]) == 1.0;
    assert TotalGap(c[1..]) == 2.0;
    assert MaxGap(c[2..]) == 2.0;
    assert MaxGap(c[1..]) == 3.0;
    var ps := Progresses([TechObjective, ClientObjective]);
    assert ps == [1.0 / 9.0, 1.0 / 5.0];
    assert Sum(ps[1..]) == 1.0 / 5.0;
  }

  /** The firm's strategy: objectives keyed by name, in insertion order. */
  class XyzStrategy {
    var names: seq<string>
    var objectives: map<string, StrategicObjective>

    ghost predicate Valid()
      reads this
    {
      && (forall i, j :: 0 <= i < j < |names| ==> names[i] != names[j])
      && (forall n :: n in objectives <==> n in names)
      && (forall n :: n in objectives ==> objectives[n].name == n)
    }

    /** Starts with the technology and the client objectives. */
    constructor ()
      ensures Valid()
      ensures names == [TechObjective.name, ClientObjective.name]
      ensures objectives == map[TechObjective.name := TechObjective, ClientObjective.name := ClientObjective]
    {
      names := [TechObjective.name, ClientObjective.name];
      objectives := map[TechObjective.name := TechObjective, ClientObjective.name := ClientObjective];
    }

    /** Stores the objective under its name, replacing any objective of that
        name in place and appending a new name at the end. */
    method AddObjective(o: StrategicObjective)
      requires Valid()
      modifies this
      ensures Valid()
      ensures objectives == old(objectives)[o.name := o]
      ensures names == if o.name in old(objectives) then old(names) else old(names) + [o.name]
      ensures GetObjective(o.name) == Some(o)
      ensures forall n :: n != o.name ==> GetObjective(n) == old(GetObjective(n))
    {
      if o.name !in objectives {
        names := names + [o.name];
      }
      objectives := objectives[o.name := o];
    }

    /** The objective stored under the name, if any. */
    function GetObjective(name: string): (r: Option<StrategicObjective>)
      reads this
      ensures r.None? <==> name !in objectives
      ensures r.Some? ==> r.value == objectives[name]
    {
      if name in objectives then Some(objectives[name]) else None
    }

    /** The stored objectives in insertion order. */
    function Values(): (vs: seq<StrategicObjective>)
      requires Valid()
      reads this
      ensures |vs| == |objectives|
      ensures forall o :: o in vs <==> o.name in objectives && objectives[o.name] == o
    {
      ValuesOfExact(names, objectives);
      ValuesOf(names, objectives)
    }

    /** Exactly the stored objectives of the given pillar. */
    function ObjectivesByPillar(pillar: StrategicPillar): (r: seq<StrategicObjective>)
      requires Valid()
      reads this
      ensures forall o :: o in r <==> o.name in objectives && objectives[o.name] == o && o.pillar == pillar
    {
      FilterPillar(Values(), pillar)
    }

    /** Mean progress of the stored objectives, 0 when there are none. */
    function OverallProgress(): (r: real)
      requires Valid()
      reads this
      ensures objectives == map[] ==> r == 0.0
      ensures (forall n :: n in objectives ==> OnScale(objectives[n].capabilities)) ==> 0.0 <= r <= 1.0
    {
      var vs := Values();
      assert objectives == map[] ==> vs == [];
      assert (forall n :: n in objectives ==> OnScale(objectives[n].capabilities)) ==>
               forall i :: 0 <= i < |vs| ==> OnScale(vs[i].capabilities) by {
        if forall n :: n in objectives ==> OnScale(objectives[n].capabilities) {
          forall i | 0 <= i < |vs|
            ensures OnScale(vs[i].capabilities)
          {
            assert vs[i] in vs;
          }
        }
      }
      MeanProgress(vs)
    }
  }

  /** Over a duplicate-free key order, the values are exactly the stored
      objectives, one per key. */
  lemma ValuesOfExact(names: seq<string>, objectives: map<string, StrategicObjective>)
    requires forall i, j :: 0 <= i < j < |names| ==> names[i] != names[j]
    requires forall n :: n in objectives <==> n in names
    requires forall n :: n in objectives ==> objectives[n].name == n
    ensures |ValuesOf(names, objectives)| == |objectives|
    ensures forall o :: o in ValuesOf(names, objectives) <==> o.name in objectives && objectives[o.name] == o
  {
    DistinctNamesCount(names, objectives.Keys);
    var vs := ValuesOf(names, objectives);
    forall o | o in vs
      ensures o.name in objectives && objectives[o.name] == o
    {
      var i :| 0 <= i < |vs| && vs[i] == o;
      assert objectives[names[i]] == o;
    }
    forall o: StrategicObjective | o.name in objectives && objectives[o.name] == o
      ensures o in vs
    {
      var i :| 0 <= i < |names| && names[i] == o.name;
      assert vs[i] == o;
    }
  }

  /** Distinct names covering exactly a key set are as many as its keys. */
  lemma {:induction false} DistinctNamesCount(names: seq<string>, keys: set<string>)
    requires forall i, j :: 0 <= i < j < |names| ==> names[i] != names[j]
    requires forall n :: n in keys <==> n in names
    ensures |names| == |keys|
  {
    if names != [] {
      var rest := keys - {names[0]};
      forall n | n in rest
        ensures n in names[1..]
      {
        var i :| 0 <= i < |names| && names[i] == n;
        assert i != 0;
        assert names[1..][i - 1] == n;
      }
      forall n | n in names[1..]
        ensures n in rest
      {
        var i :| 0 <= i < |names[1..]| && names[1..][i] == n;
        assert names[i + 1] == n;
        assert names[0] != names[i + 1];
      }
      DistinctNamesCount(names[1..], rest);
    }
  }

  datatype Risk = Risk(description: string, probability: real)

  /** An initiative working toward some objectives. */
  class StrategicInitiative {
    const name: string
    const objectives: seq<string>
    const budget: real
    const durationMonths: int
    var progress: real
    var risks: seq<Risk>

    /** A new initiative has made no progress and carries no risks. */
    constructor (name: string, objectives: seq<string>, budget: real, durationMonths: int)
      ensures this.name == name && this.objectives == objectives
      ensures this.budget == budget && this.durationMonths == durationMonths
      ensures progress == 0.0 && risks == []
    {
      this.name := name;
      this.objectives := objectives;
      this.budget := budget;
      this.durationMonths := durationMonths;
      progress := 0.0;
      risks := [];
    }

    /** Stores the progress clamped into [0, 1]. */
    method UpdateProgress(p: real)
      modifies this
      ensures progress == Clamp(p, 0.0, 1.0)
      ensures 0.0 <= progress <= 1.0
      ensures 0.0 <= p <= 1.0 ==> progress == p
      ensures risks == old(risks)
    {
      progress := Max(0.0, Min(1.0, p));
    }

    /** Appends a risk after the existing ones. */
    method AddRisk(description: string, probability: real)
      modifies this
      ensures risks == old(risks) + [Risk(description, probability)]
      ensures progress == old(progress)
    {
      risks := risks + [Risk(description, probability)];
    }
  }

  /** Updating the progress twice with the same value stores what one update
      stores: the stored value is already in [0, 1]. */
  lemma UpdateProgressIdempotent(p: real)
    ensures Clamp(Clamp(p, 0.0, 1.0), 0.0, 1.0) == Clamp(p, 0.0, 1.0)
  {
    ClampIdempotent(p, 0.0, 1.0);
  }
}
