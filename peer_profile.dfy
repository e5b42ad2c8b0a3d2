/**
 * PeerProfile: the record a mesh participant announces, and its compact pipe-separated wire format
 * "PROFILE|role|name|skills|equipment|lat|lng|situation" (no device-id field).
 */
module Profile {
  import opened Wrappers
  import opened Seqs
  import opened JavaText
  import opened Settings

  const TYPE := "PROFILE"

  /**
   * The profile's fields. Text fields may be null (None). lat and lng are kept as the text that
   * Double.toString gives for them; the coordinates themselves are not modelled. The timestamp
   * the constructor reads from the clock is not modelled either: nothing compares it.
   */
  datatype PeerProfile = PeerProfile(
    endpointId: JString,
    role: JString,
    name: JString,
    skills: JString,
    equipment: JString,
    lat: string,
    lng: string,
    situation: JString,
    age: int,
    injurySeverity: int,
    location: JString
  )

  /** The eight-argument constructor: no age, no injury severity, empty location. */
  function Legacy(endpointId: JString, role: JString, name: JString, skills: JString,
                  equipment: JString, lat: string, lng: string, situation: JString): (p: PeerProfile)
    ensures p.age == 0 && p.injurySeverity == 0 && p.location == Some("")
    ensures p.endpointId == endpointId && p.role == role && p.situation == situation
  {
    PeerProfile(endpointId, role, name, skills, equipment, lat, lng, situation, 0, 0, Some(""))
  }

  predicate IsVolunteer(p: PeerProfile)
    ensures IsVolunteer(p) ==> !IsSurvivor(p)
  {
    p.role == Some(ROLE_VOLUNTEER)
  }

  predicate IsSurvivor(p: PeerProfile)
    ensures IsSurvivor(p) ==> p.role.Some? && p.role.value != ROLE_VOLUNTEER
  {
    p.role == Some(ROLE_SURVIVOR)
  }

  /** Sanitises user text for the wire format: null becomes "", every '|' becomes '/'. */
  function Safe(s: JString): (r: string)
    ensures '|' !in r
    ensures s == None ==> r == ""
    ensures s.Some? && '|' !in s.value ==> r == s.value
    ensures s.Some? ==> |r| == |s.value|
  {
    match s
    case None => ""
    case Some(t) =>
      var r := ReplaceChar(t, '|', '/');
      assert forall i :: 0 <= i < |r| ==> r[i] != '|';
      r
  }

  lemma SafeIdempotent(s: JString)
    ensures Safe(Some(Safe(s))) == Safe(s)
  {
  }

  /** The substitution is not reversible: two different names go on the wire alike. */
  lemma SafeIsLossy()
    ensures Safe(Some("a|b")) == Safe(Some("a/b"))
  {
    assert Safe(Some("a|b")) == "a/b";
  }

  /** The eight fields in wire order. Java's `+` writes a null role as "null". */
  function WireFields(p: PeerProfile): seq<string> {
    [TYPE, Text(p.role), Safe(p.name), Safe(p.skills), Safe(p.equipment), p.lat, p.lng, Safe(p.situation)]
  }

  /** PeerProfile.toWireFormat: the eight fields joined by '|'. */
  function ToWireFormat(p: PeerProfile): (r: string)
    ensures StartsWith(r, TYPE + "|")
  {
    var r := TYPE + "|" + Text(p.role) + "|" + Safe(p.name) + "|" + Safe(p.skills) + "|" +
             Safe(p.equipment) + "|" + p.lat + "|" + p.lng + "|" + Safe(p.situation);
    assert r[..|TYPE + "|"|] == TYPE + "|";
    r
  }

  /** A field without a separator splits into itself. */
  lemma SplitSingle(f: string)
    requires '|' !in f
    ensures SplitAll(f, '|') == [f]
  {
    assert IndexOf(f, '|') == -1;
  }

  /** Splitting `a|f` with a pipe-free last field `f` appends `f` to the split of `a`. */
  lemma SplitAppendField(a: string, f: string)
    requires '|' !in f
    ensures SplitAll(a + "|" + f, '|') == SplitAll(a, '|') + [f]
  {
    SplitAllConcat(a, f, '|');
    SplitSingle(f);
    assert a + "|" + f == a + ['|'] + f;
  }

  /** Fields joined left to right by '|', as a chain of `+` builds them. */
  function JoinLeft(f: seq<string>): string
    requires |f| >= 1
  {
    if |f| == 1 then f[0] else JoinLeft(f[..|f| - 1]) + "|" + f[|f| - 1]
  }

  lemma {:induction false} SplitJoinLeft(f: seq<string>)
    requires |f| >= 1
    requires forall i :: 0 <= i < |f| ==> '|' !in f[i]
    ensures SplitAll(JoinLeft(f), '|') == f
  {
    if |f| == 1 {
      SplitSingle(f[0]);
    } else {
      var init := f[..|f| - 1];
      SplitJoinLeft(init);
      SplitJoinLeftStep(f);
    }
  }

  /** The step of SplitJoinLeft: one more pipe-free field at the end. */
  lemma SplitJoinLeftStep(f: seq<string>)
    requires |f| >= 2
    requires '|' !in f[|f| - 1]
    requires SplitAll(JoinLeft(f[..|f| - 1]), '|') == f[..|f| - 1]
    ensures SplitAll(JoinLeft(f), '|') == f
  {
    var init := f[..|f| - 1];
    var last := f[|f| - 1];
    var a := JoinLeft(init);
    assert JoinLeft(f) == a + "|" + last;
    SplitAppendField(a, last);
    InitLast(f);
  }

  lemma WireIsJoinLeft(p: PeerProfile)
    ensures ToWireFormat(p) == JoinLeft(WireFields(p))
  {
    var f := WireFields(p);
    var j1 := TYPE;
    var j2 := j1 + "|" + Text(p.role);
    var j3 := j2 + "|" + Safe(p.name);
    var j4 := j3 + "|" + Safe(p.skills);
    var j5 := j4 + "|" + Safe(p.equipment);
    var j6 := j5 + "|" + p.lat;
    var j7 := j6 + "|" + p.lng;
    var j8 := j7 + "|" + Safe(p.situation);
    assert ToWireFormat(p) == j8;
    assert JoinLeft(f[..1]) == j1;
    assert f[..2][..1] == f[..1];
    assert JoinLeft(f[..2]) == j2;
    assert f[..3][..2] == f[..2];
    assert JoinLeft(f[..3]) == j3;
    assert f[..4][..3] == f[..3];
    assert JoinLeft(f[..4]) == j4;
    assert f[..5][..4] == f[..4];
    assert JoinLeft(f[..5]) == j5;
    assert f[..6][..5] == f[..5];
    assert JoinLeft(f[..6]) == j6;
    assert f[..7][..6] == f[..6];
    assert JoinLeft(f[..7]) == j7;
    assert f[..8][..7] == f[..7];
    assert JoinLeft(f[..8]) == j8;
    assert f[..8] == f;
  }

  /** With a pipe-free role and coordinates, the wire text splits into exactly its eight fields. */
  lemma WireFieldCount(p: PeerProfile)
    requires '|' !in Text(p.role) && '|' !in p.lat && '|' !in p.lng
    ensures SplitAll(ToWireFormat(p), '|') == WireFields(p)
    ensures |SplitAll(ToWireFormat(p), '|')| == 8
  {
    WireIsJoinLeft(p);
    SplitJoinLeft(WireFields(p));
  }

  /**
   * PeerProfile.fromWireFormat: None (Java's null) when there are fewer than eight fields, the first
   * is not PROFILE, or lat/lng do not parse; fields beyond the eighth are ignored.
   */
  function FromWireFormat(endpointId: string, raw: string): (r: Option<PeerProfile>)
    ensures r.Some? ==> r.value.endpointId == Some(endpointId)
    ensures r.Some? ==> r.value.age == 0 && r.value.injurySeverity == 0 && r.value.location == Some("")
    ensures r.Some? ==> r.value.role.Some? && r.value.name.Some? && r.value.situation.Some?
    ensures |SplitAll(raw, '|')| < 8 || SplitAll(raw, '|')[0] != TYPE ==> r == None
    ensures var p := SplitAll(raw, '|');
            r.Some? <==> |p| >= 8 && p[0] == TYPE && ParsesAsDouble(p[5]) && ParsesAsDouble(p[6])
    ensures var p := SplitAll(raw, '|');
            r.Some? ==> r.value.role == Some(p[1]) && r.value.name == Some(p[2]) && r.value.skills == Some(p[3]) &&
                        r.value.equipment == Some(p[4]) && r.value.lat == p[5] && r.value.lng == p[6] &&
                        r.value.situation == Some(p[7])
  {
    var p := SplitAll(raw, '|');
    if |p| < 8 || p[0] != TYPE then None
    else if !ParsesAsDouble(p[5]) || !ParsesAsDouble(p[6]) then None
    else Some(Legacy(Some(endpointId), Some(p[1]), Some(p[2]), Some(p[3]), Some(p[4]), p[5], p[6], Some(p[7])))
  }

  /** A numeric field that does not parse makes the whole decode fail. */
  lemma FromWireBadNumber(endpointId: string, raw: string)
    requires |SplitAll(raw, '|')| >= 8
    requires !ParsesAsDouble(SplitAll(raw, '|')[5]) || !ParsesAsDouble(SplitAll(raw, '|')[6])
    ensures FromWireFormat(endpointId, raw) == None
  {
  }

  /** Appending further fields does not change the decoded profile. */
  lemma FromWireIgnoresExtra(endpointId: string, raw: string, extra: string)
    requires |SplitAll(raw, '|')| >= 8
    ensures FromWireFormat(endpointId, raw + "|" + extra) == FromWireFormat(endpointId, raw)
  {
    SplitAllConcat(raw, extra, '|');
    assert raw + "|" + extra == raw + ['|'] + extra;
  }

  /**
   * Round trip: decoding the wire text gives back the role, the sanitised text fields and the
   * coordinate tokens, with the receiving session's endpoint id and no triage data.
   */
  lemma WireRoundTrip(endpointId: string, p: PeerProfile)
    requires '|' !in Text(p.role)
    requires '|' !in p.lat && '|' !in p.lng
    requires ParsesAsDouble(p.lat) && ParsesAsDouble(p.lng)
    ensures FromWireFormat(endpointId, ToWireFormat(p)) ==
            Some(PeerProfile(Some(endpointId), Some(Text(p.role)), Some(Safe(p.name)), Some(Safe(p.skills)),
                             Some(Safe(p.equipment)), p.lat, p.lng, Some(Safe(p.situation)), 0, 0, Some("")))
  {
    WireFieldCount(p);
  }

  /** The token Double.toString prints for 0.0. */
  const ZERO := "0.0"

  lemma ZeroParses()
    ensures ParsesAsDouble(ZERO)
  {
    assert TrimStart(ZERO) == ZERO && TrimEnd(ZERO) == ZERO;
    assert IndexOf(ZERO, 'e') == -1 && IndexOf(ZERO, 'E') == -1 && IndexOf(ZERO, '.') == 1;
  }

  /** The profile MeshManager.sendProfileTo builds from the preferences. */
  function OwnProfile(prefs: Prefs): (p: PeerProfile)
    ensures p.endpointId == Some("self") && p.lat == ZERO && p.lng == ZERO
    ensures p.role == Some(prefs.userRole.GetOr(ROLE_SURVIVOR)) && p.name == Some(prefs.userName.GetOr("Unknown"))
    ensures p.age == 0 && p.injurySeverity == 0 && p.location == Some("")
  {
    Legacy(Some("self"), Some(prefs.userRole.GetOr(ROLE_SURVIVOR)), Some(prefs.userName.GetOr("Unknown")),
           Some(prefs.medicalSkills.GetOr("")), Some(prefs.equipment.GetOr("")), ZERO, ZERO,
           Some(prefs.survivorDescription.GetOr("")))
  }

  /** The profile MeshManager.broadcastProfileAsJson builds, triage fields included. */
  function FullOwnProfile(prefs: Prefs, selfId: string): (p: PeerProfile)
    ensures p == OwnProfile(prefs).(endpointId := Some(selfId), age := prefs.userAge.GetOr(30),
                                    injurySeverity := prefs.userInjurySeverity.GetOr(0),
                                    location := Some(prefs.userLocation.GetOr("")))
  {
    PeerProfile(Some(selfId), Some(prefs.userRole.GetOr(ROLE_SURVIVOR)), Some(prefs.userName.GetOr("Unknown")),
                Some(prefs.medicalSkills.GetOr("")), Some(prefs.equipment.GetOr("")), ZERO, ZERO,
                Some(prefs.survivorDescription.GetOr("")), prefs.userAge.GetOr(30),
                prefs.userInjurySeverity.GetOr(0), Some(prefs.userLocation.GetOr("")))
  }

  /** What a newly connected peer learns from our own profile: our role and sanitised name and skills. */
  lemma OwnProfileDecodes(endpointId: string, prefs: Prefs)
    requires '|' !in prefs.userRole.GetOr(ROLE_SURVIVOR)
    ensures var r := FromWireFormat(endpointId, ToWireFormat(OwnProfile(prefs)));
            r.Some? && r.value.endpointId == Some(endpointId) &&
            r.value.role == Some(prefs.userRole.GetOr(ROLE_SURVIVOR)) &&
            r.value.name == Some(Safe(Some(prefs.userName.GetOr("Unknown")))) &&
            r.value.skills == Some(Safe(Some(prefs.medicalSkills.GetOr(""))))
  {
    ZeroParses();
    WireRoundTrip(endpointId, OwnProfile(prefs));
  }
}
