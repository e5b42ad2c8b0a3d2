/**
 * SurvivorInfo: the triage record of one survivor, with the two classifications the triage engine
 * ranks by (injury level and age group) and the combined priority score (lower is more urgent).
 */
module Survivors {
  import opened Wrappers
  import opened JavaText

  /** InjuryLevel, in declaration order: values()[c] is the level with code c. */
  datatype InjuryLevel = NoInjury | Minor | Serious | Critical {

    function Code(): (c: nat)
      ensures c <= 3
    {
      match this
      case NoInjury => 0
      case Minor => 1
      case Serious => 2
      case Critical => 3
    }

    function Label(): (r: string)
      ensures |r| > 0
    {
      match this
      case NoInjury => "No injury"
      case Minor => "Minor injury"
      case Serious => "Serious injury"
      case Critical => "Critical"
    }

    /** The ARGB colour constant shown for the level. */
    function Color(): (c: bv32)
      ensures c >> 24 == 0xFF
    {
      match this
      case NoInjury => 0xFF00C853
      case Minor => 0xFFFFD600
      case Serious => 0xFFFF6F00
      case Critical => 0xFFD32F2F
    }
  }

  /** No two injury levels share a label or a colour. */
  lemma LevelLabelsAndColorsDiffer(a: InjuryLevel, b: InjuryLevel)
    requires a.Label() == b.Label() || a.Color() == b.Color()
    ensures a == b
  {
  }

  /** InjuryLevel.values()[c]: None where Java throws ArrayIndexOutOfBoundsException. */
  function LevelOfCode(c: int): (r: Option<InjuryLevel>)
    ensures r.Some? <==> 0 <= c <= 3
    ensures r.Some? ==> r.value.Code() == c
  {
    if c == 0 then Some(NoInjury)
    else if c == 1 then Some(Minor)
    else if c == 2 then Some(Serious)
    else if c == 3 then Some(Critical)
    else None
  }

  /** The codes are exactly the positions in values(): looking a level's code up gives the level back. */
  lemma LevelOfCodeRoundTrip(l: InjuryLevel)
    ensures LevelOfCode(l.Code()) == Some(l)
  {
    match l
    case NoInjury =>
    case Minor =>
    case Serious =>
    case Critical =>
  }

  datatype AgeGroup = Child | Adolescent | Adult | Elderly {

    function Code(): (c: nat)
      ensures c <= 3
    {
      match this
      case Child => 0
      case Adolescent => 1
      case Adult => 2
      case Elderly => 3
    }

    function Label(): string {
      match this
      case Child => "Child (0-12)"
      case Adolescent => "Teen (13-17)"
      case Adult => "Adult (18-64)"
      case Elderly => "Elderly (65+)"
    }

    /** The age part of the score: children and the elderly first (lower is more urgent). */
    function TriagePriority(): (p: int)
      ensures 1 <= p <= 3
      ensures p == 1 <==> this == Child || this == Elderly
    {
      match this
      case Child => 1
      case Adolescent => 2
      case Adult => 3
      case Elderly => 1
    }
  }

  /** AgeGroup.fromAge: total over int; every age up to 12, negative ones included, is a child's. */
  function FromAge(age: int): (g: AgeGroup)
    ensures g == Child <==> age <= 12
    ensures g == Adolescent <==> 13 <= age <= 17
    ensures g == Adult <==> 18 <= age <= 64
    ensures g == Elderly <==> 65 <= age
  {
    if age <= 12 then Child
    else if age <= 17 then Adolescent
    else if age <= 64 then Adult
    else Elderly
  }

  /** The bands are ordered: an older person is never in an earlier group. */
  lemma FromAgeMonotone(a: int, b: int)
    requires a <= b
    ensures FromAge(a).Code() <= FromAge(b).Code()
  {
  }

  /**
   * A survivor record. The age group is not stored apart from the age: it is always
   * FromAge(age), as the constructor computes it. lat and lng are the coordinate tokens; the
   * creation timestamp is not modelled, as nothing reads it.
   */
  datatype SurvivorInfo = SurvivorInfo(
    endpointId: JString,
    name: JString,
    location: JString,
    injuryLevel: InjuryLevel,
    age: int,
    peopleCount: int,
    description: JString,
    lat: string,
    lng: string
  ) {
    function AgeGroup(): AgeGroup {
      FromAge(age)
    }
  }

  /** The injury part of the score: CRITICAL 0, SERIOUS 1, MINOR 2, NONE 3. */
  function InjuryScore(l: InjuryLevel): (r: int)
    ensures r == 3 - l.Code()
  {
    if l == Critical then 0
    else if l == Serious then 1
    else if l == Minor then 2
    else 3
  }

  /**
   * getTriagePriority: 100 * injury score + age priority. The hundreds digit is 3 - injury code
   * and the remainder is the age priority, so the score lies in [1, 303].
   */
  function TriagePriority(s: SurvivorInfo): (r: int)
    ensures 1 <= r <= 303
    ensures r / 100 == 3 - s.injuryLevel.Code()
    ensures r % 100 == s.AgeGroup().TriagePriority()
  {
    InjuryScore(s.injuryLevel) * 100 + s.AgeGroup().TriagePriority()
  }

  /** Injury dominates age: a strictly more severe injury always ranks strictly earlier. */
  lemma InjuryDominates(a: SurvivorInfo, b: SurvivorInfo)
    requires a.injuryLevel.Code() > b.injuryLevel.Code()
    ensures TriagePriority(a) < TriagePriority(b)
  {
    var pa := TriagePriority(a);
    var pb := TriagePriority(b);
    assert pa == (pa / 100) * 100 + pa % 100;
    assert pb == (pb / 100) * 100 + pb % 100;
  }

  /** With the same injury level, the age priority decides. */
  lemma SameInjuryAgeDecides(a: SurvivorInfo, b: SurvivorInfo)
    requires a.injuryLevel == b.injuryLevel
    ensures TriagePriority(a) <= TriagePriority(b) <==> a.AgeGroup().TriagePriority() <= b.AgeGroup().TriagePriority()
  {
  }
}
