/**
 * The part of TriageActivity that feeds the triage engine: turning a survivor's peer profile (its
 * free-text situation string) and the device's own stored answers into SurvivorInfo records, and
 * assembling the list that is ranked. The mesh registry and the preferences are parameters.
 */
module TriageInput {
  import opened Wrappers
  import opened JavaText
  import opened Settings
  import opened Profile
  import opened Survivors

  const DEFAULT_AGE := 30
  const INJURY_TAG := "injury:"
  const AGE_TAG := "age:"

  /** The two locals the situation parser updates. */
  datatype Parsed = Parsed(level: InjuryLevel, age: int)

  /** Their values before the first part: no injury, age 30. */
  const START := Parsed(NoInjury, DEFAULT_AGE)

  /**
   * InjuryLevel.values()[Math.min(code, 3)]: codes of 3 and above are clamped to CRITICAL, and a
   * negative code indexes out of bounds (None).
   */
  function InjuryOfCode(code: int): (r: Option<InjuryLevel>)
    ensures r.Some? <==> code >= 0
    ensures code >= 3 ==> r == Some(Critical)
    ensures 0 <= code <= 3 ==> r == LevelOfCode(code)
  {
    LevelOfCode(if code < 3 then code else 3)
  }

  /** The level an "injury:" part sets, or None where parseInt or the array index throws. */
  function InjuryValue(part: string): Option<InjuryLevel>
    requires StartsWith(part, INJURY_TAG)
  {
    match ParseInt(part[|INJURY_TAG|..])
    case None => None
    case Some(code) => InjuryOfCode(code)
  }

  /** The age an "age:" part sets, or None where parseInt throws. */
  function AgeValue(part: string): Option<int>
    requires StartsWith(part, AGE_TAG)
  {
    ParseInt(part[|AGE_TAG|..])
  }

  /** A part that makes the conversion throw. */
  predicate BadPart(part: string) {
    if StartsWith(part, INJURY_TAG) then InjuryValue(part).None?
    else StartsWith(part, AGE_TAG) && AgeValue(part).None?
  }

  /** No part carries both tags. */
  lemma TagsExclusive(part: string)
    ensures StartsWith(part, INJURY_TAG) ==> !StartsWith(part, AGE_TAG)
  {
    if StartsWith(part, INJURY_TAG) {
      assert part[0] == part[..|INJURY_TAG|][0] == 'i';
    }
  }

  /** One iteration of the parse loop. */
  function ApplyPart(acc: Parsed, part: string): (r: Option<Parsed>)
    ensures r.None? <==> BadPart(part)
    ensures r.Some? && StartsWith(part, INJURY_TAG) ==> r.value == acc.(level := InjuryValue(part).value)
    ensures r.Some? && !StartsWith(part, INJURY_TAG) && StartsWith(part, AGE_TAG) ==> r.value == acc.(age := AgeValue(part).value)
    ensures !StartsWith(part, INJURY_TAG) && !StartsWith(part, AGE_TAG) ==> r == Some(acc)
  {
    TagsExclusive(part);
    if StartsWith(part, INJURY_TAG) then
      match InjuryValue(part)
      case None => None
      case Some(l) => Some(acc.(level := l))
    else if StartsWith(part, AGE_TAG) then
      match AgeValue(part)
      case None => None
      case Some(a) => Some(acc.(age := a))
    else Some(acc)
  }

  /** The loop over the parts from `acc`: None as soon as one part throws. */
  function FoldParts(acc: Parsed, parts: seq<string>): Option<Parsed> {
    if parts == [] then Some(acc)
    else
      match FoldParts(acc, parts[..|parts| - 1])
      case None => None
      case Some(a) => ApplyPart(a, parts[|parts| - 1])
  }

  /** Once a prefix of the parts has thrown, the whole loop has. */
  lemma {:induction false} FoldPrefixFails(acc: Parsed, parts: seq<string>, n: nat)
    requires n <= |parts|
    requires FoldParts(acc, parts[..n]).None?
    ensures FoldParts(acc, parts).None?
    decreases |parts| - n
  {
    if n < |parts| {
      var longer := parts[..n + 1];
      assert longer[..n] == parts[..n];
      assert FoldParts(acc, longer).None?;
      FoldPrefixFails(acc, parts, n + 1);
    } else {
      assert parts[..n] == parts;
    }
  }

  /** The conversion fails exactly when some part is a bad "injury:" or "age:" part. */
  lemma {:induction false} FoldFailsIff(acc: Parsed, parts: seq<string>)
    ensures FoldParts(acc, parts).None? <==> exists i :: 0 <= i < |parts| && BadPart(parts[i])
  {
    if parts != [] {
      var init := parts[..|parts| - 1];
      FoldFailsIff(acc, init);
      if exists i :: 0 <= i < |init| && BadPart(init[i]) {
        var i :| 0 <= i < |init| && BadPart(init[i]);
        assert parts[i] == init[i];
      }
      if exists i :: 0 <= i < |parts| && BadPart(parts[i]) {
        var i :| 0 <= i < |parts| && BadPart(parts[i]);
        if i < |init| {
          assert init[i] == parts[i];
        }
      }
    }
  }

  /** The index of the last part starting with `tag`, or -1. */
  function LastTagged(parts: seq<string>, tag: string): (j: int)
    ensures -1 <= j < |parts|
    ensures j >= 0 ==> StartsWith(parts[j], tag)
    ensures forall k :: j < k < |parts| ==> !StartsWith(parts[k], tag)
  {
    if parts == [] then -1
    else if StartsWith(parts[|parts| - 1], tag) then |parts| - 1
    else
      var j := LastTagged(parts[..|parts| - 1], tag);
      assert forall k :: j < k < |parts| - 1 ==> parts[k] == parts[..|parts| - 1][k];
      j
  }

  /** Later parts override earlier ones: the level comes from the last "injury:" part, if any. */
  lemma {:induction false} LastInjuryWins(acc: Parsed, parts: seq<string>)
    requires FoldParts(acc, parts).Some?
    ensures var j := LastTagged(parts, INJURY_TAG);
            if j < 0 then FoldParts(acc, parts).value.level == acc.level
            else InjuryValue(parts[j]) == Some(FoldParts(acc, parts).value.level)
  {
    if parts != [] {
      var init := parts[..|parts| - 1];
      var last := parts[|parts| - 1];
      LastInjuryWins(acc, init);
      if !StartsWith(last, INJURY_TAG) {
        assert LastTagged(parts, INJURY_TAG) == LastTagged(init, INJURY_TAG);
        var j := LastTagged(init, INJURY_TAG);
        if j >= 0 {
          assert parts[j] == init[j];
        }
      }
    }
  }

  /** Likewise the age comes from the last "age:" part, if any. */
  lemma {:induction false} LastAgeWins(acc: Parsed, parts: seq<string>)
    requires FoldParts(acc, parts).Some?
    ensures var j := LastTagged(parts, AGE_TAG);
            if j < 0 then FoldParts(acc, parts).value.age == acc.age
            else AgeValue(parts[j]) == Some(FoldParts(acc, parts).value.age)
  {
    if parts != [] {
      var init := parts[..|parts| - 1];
      var last := parts[|parts| - 1];
      LastAgeWins(acc, init);
      TagsExclusive(last);
      if !StartsWith(last, AGE_TAG) {
        assert LastTagged(parts, AGE_TAG) == LastTagged(init, AGE_TAG);
        var j := LastTagged(init, AGE_TAG);
        if j >= 0 {
          assert parts[j] == init[j];
        }
      }
    }
  }

  /** The situation string parsed: the defaults for a null or empty one, else the comma parts in order. */
  function ParseSituation(situation: JString): (r: Option<Parsed>)
    ensures situation.None? || situation == Some("") ==> r == Some(START)
  {
    if situation.None? || situation.value == "" then Some(START)
    else FoldParts(START, SplitDefault(situation.value, ','))
  }

  /** "injury:N" with N of 3 or more is CRITICAL; a negative N makes the conversion fail. */
  lemma InjuryPartClamped(n: int)
    requires INT_MIN <= n <= INT_MAX
    ensures var s := INJURY_TAG + IntToString(n);
            ParseSituation(Some(s)) == (if n < 0 then None else Some(START.(level := InjuryOfCode(n).value)))
  {
    var s := INJURY_TAG + IntToString(n);
    ParseIntToString(n);
    assert s[..|INJURY_TAG|] == INJURY_TAG;
    assert s[|INJURY_TAG|..] == IntToString(n);
    assert ',' !in s;
    var parts := SplitDefault(s, ',');
    assert parts == [s];
    assert parts[..0] == [];
    assert FoldParts(START, parts) == ApplyPart(START, s);
  }

  /**
   * createSurvivorInfoFromPeerProfile on a successful parse: the peer's identity and coordinates,
   * an empty location, one person, the situation as the description.
   */
  function PeerSurvivor(peer: PeerProfile, p: Parsed): SurvivorInfo {
    SurvivorInfo(peer.endpointId, peer.name, Some(""), p.level, p.age, 1, peer.situation, peer.lat, peer.lng)
  }

  /** The conversion of one peer, None where the Java code catches an exception and returns null. */
  function ConvertPeer(peer: PeerProfile): (r: Option<SurvivorInfo>)
    ensures r.Some? <==> ParseSituation(peer.situation).Some?
    ensures r.Some? ==>
              r.value.endpointId == peer.endpointId && r.value.name == peer.name &&
              r.value.location == Some("") && r.value.peopleCount == 1 &&
              r.value.description == peer.situation &&
              r.value.lat == peer.lat && r.value.lng == peer.lng &&
              r.value.injuryLevel == ParseSituation(peer.situation).value.level &&
              r.value.age == ParseSituation(peer.situation).value.age
  {
    match ParseSituation(peer.situation)
    case None => None
    case Some(p) => Some(PeerSurvivor(peer, p))
  }

  /** createSurvivorInfoFromPeerProfile: the parse loop over the comma-separated parts. */
  method CreateSurvivorInfoFromPeerProfile(peer: PeerProfile) returns (info: Option<SurvivorInfo>)
    ensures info == ConvertPeer(peer)
  {
    var injuryLevel := NoInjury;
    var age := DEFAULT_AGE;
    if peer.situation.Some? && peer.situation.value != "" {
      var parts := SplitDefault(peer.situation.value, ',');
      for i := 0 to |parts|
        invariant FoldParts(START, parts[..i]) == Some(Parsed(injuryLevel, age))
      {
        var part := parts[i];
        assert parts[..i + 1][..i] == parts[..i];
        TagsExclusive(part);
        if StartsWith(part, INJURY_TAG) {
          var code := ParseInt(part[|INJURY_TAG|..]);
          if code.None? || code.value < 0 {
            FoldPrefixFails(START, parts, i + 1);
            return None;
          }
          injuryLevel := InjuryOfCode(code.value).value;
        } else if StartsWith(part, AGE_TAG) {
          var n := ParseInt(part[|AGE_TAG|..]);
          if n.None? {
            FoldPrefixFails(START, parts, i + 1);
            return None;
          }
          age := n.value;
        }
      }
      assert parts[..|parts|] == parts;
    }
    info := Some(PeerSurvivor(peer, Parsed(injuryLevel, age)));
  }

  /**
   * createSelfSurvivorInfo: the device's own stored answers, each with its default; the stored
   * injury code is clamped with min(code, 3), and a negative one makes it return null.
   */
  function CreateSelfSurvivorInfo(prefs: Prefs): (r: Option<SurvivorInfo>)
    ensures r.Some? <==> prefs.survivorInjury.GetOr(0) >= 0
    ensures r.Some? ==>
              r.value.endpointId == Some("self") &&
              r.value.injuryLevel == InjuryOfCode(prefs.survivorInjury.GetOr(0)).value &&
              r.value.age == prefs.survivorAge.GetOr(DEFAULT_AGE) &&
              r.value.peopleCount == prefs.survivorPeople.GetOr(1)
  {
    match InjuryOfCode(prefs.survivorInjury.GetOr(0))
    case None => None
    case Some(level) =>
      Some(SurvivorInfo(
        Some("self"),
        Some(prefs.userName.GetOr("Self")),
        Some(prefs.survivorLocation.GetOr("Unknown")),
        level,
        prefs.survivorAge.GetOr(DEFAULT_AGE),
        prefs.survivorPeople.GetOr(1),
        Some(prefs.survivorDescription.GetOr("")),
        ZERO,
        ZERO))
  }

  /** The conversions of the mesh survivors in order, the failed ones dropped. */
  function ConvertAll(mesh: seq<PeerProfile>): (r: seq<SurvivorInfo>)
    ensures |r| <= |mesh|
  {
    if mesh == [] then []
    else
      var last := ConvertPeer(mesh[|mesh| - 1]);
      ConvertAll(mesh[..|mesh| - 1]) + (if last.Some? then [last.value] else [])
  }

  /** Every converted record comes from a mesh survivor. */
  lemma {:induction false} ConvertAllFromMesh(mesh: seq<PeerProfile>)
    ensures forall i :: 0 <= i < |ConvertAll(mesh)| ==>
              exists j :: 0 <= j < |mesh| && ConvertPeer(mesh[j]) == Some(ConvertAll(mesh)[i])
  {
    if mesh != [] {
      var init := mesh[..|mesh| - 1];
      var last := ConvertPeer(mesh[|mesh| - 1]);
      var prev := ConvertAll(init);
      ConvertAllFromMesh(init);
      var r := ConvertAll(mesh);
      assert r == prev + (if last.Some? then [last.value] else []);
      forall i | 0 <= i < |r| ensures exists j :: 0 <= j < |mesh| && ConvertPeer(mesh[j]) == Some(r[i]) {
        if i < |prev| {
          assert r[i] == prev[i];
          var j :| 0 <= j < |init| && ConvertPeer(init[j]) == Some(prev[i]);
          assert mesh[j] == init[j];
        } else {
          assert ConvertPeer(mesh[|mesh| - 1]) == Some(r[i]);
        }
      }
    } else {
      assert ConvertAll(mesh) == [];
    }
  }

  /** When no conversion fails, the list is the mesh survivors one for one, in order. */
  lemma {:induction false} ConvertAllTotal(mesh: seq<PeerProfile>)
    requires forall j :: 0 <= j < |mesh| ==> ConvertPeer(mesh[j]).Some?
    ensures |ConvertAll(mesh)| == |mesh|
    ensures forall j :: 0 <= j < |mesh| ==> ConvertAll(mesh)[j] == ConvertPeer(mesh[j]).value
  {
    if mesh != [] {
      var init := mesh[..|mesh| - 1];
      var last := ConvertPeer(mesh[|mesh| - 1]);
      assert forall j :: 0 <= j < |init| ==> init[j] == mesh[j];
      ConvertAllTotal(init);
      var prev := ConvertAll(init);
      assert last.Some?;
      assert ConvertAll(mesh) == prev + [last.value];
    }
  }

  /** buildSurvivorList: the converted mesh survivors, then self when the stored role is SURVIVOR. */
  function SurvivorList(mesh: seq<PeerProfile>, prefs: Prefs): (r: seq<SurvivorInfo>)
    ensures ConvertAll(mesh) <= r && |r| <= |ConvertAll(mesh)| + 1
  {
    var self := CreateSelfSurvivorInfo(prefs);
    ConvertAll(mesh) +
    (if prefs.userRole.GetOr(ROLE_VOLUNTEER) == ROLE_SURVIVOR && self.Some? then [self.value] else [])
  }

  /** Self is listed, last, exactly when the role is SURVIVOR and its stored injury code is not negative. */
  lemma SelfListedIff(mesh: seq<PeerProfile>, prefs: Prefs)
    ensures var l := SurvivorList(mesh, prefs);
            (|l| == |ConvertAll(mesh)| + 1 <==>
              prefs.userRole == Some(ROLE_SURVIVOR) && prefs.survivorInjury.GetOr(0) >= 0) &&
            (|l| == |ConvertAll(mesh)| + 1 ==> l[|l| - 1].endpointId == Some("self")) &&
            l[..|ConvertAll(mesh)|] == ConvertAll(mesh)
  {
    var l := SurvivorList(mesh, prefs);
    assert l[..|ConvertAll(mesh)|] == ConvertAll(mesh);
  }

  /** The list assembly of buildSurvivorList, one conversion per mesh survivor. */
  method BuildSurvivorList(mesh: seq<PeerProfile>, prefs: Prefs) returns (survivors: seq<SurvivorInfo>)
    ensures survivors == SurvivorList(mesh, prefs)
  {
    survivors := [];
    for i := 0 to |mesh|
      invariant survivors == ConvertAll(mesh[..i])
    {
      var info := CreateSurvivorInfoFromPeerProfile(mesh[i]);
      assert mesh[..i + 1][..i] == mesh[..i];
      if info.Some? {
        survivors := survivors + [info.value];
      }
    }
    assert mesh[..|mesh|] == mesh;
    var userRole := prefs.userRole.GetOr(ROLE_VOLUNTEER);
    if ROLE_SURVIVOR == userRole {
      var selfInfo := CreateSelfSurvivorInfo(prefs);
      if selfInfo.Some? {
        survivors := survivors + [selfInfo.value];
      }
    }
  }
}
