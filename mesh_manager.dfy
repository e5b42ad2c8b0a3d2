/**
 * MeshManager: the application-wide registry around the one mesh session. It owns the session,
 * keeps the latest profile heard from each peer (keyed by endpoint id), answers role queries over
 * them, and relays every session event to the registered listeners.
 */
module Registry {
  import opened Wrappers
  import opened Seqs
  import opened JavaText
  import opened Settings
  import opened Profile
  import opened Session

  /** A registered ConnectionStatusListener, by identity. */
  type ListenerId = int

  /** One delivery of an event to one listener. */
  datatype Notification = Notification(listener: ListenerId, event: StatusEvent)

  /** One delivery of `e` to each listener, in list order. */
  ghost function Deliveries(ls: seq<ListenerId>, e: StatusEvent): seq<Notification> {
    if ls == [] then [] else Deliveries(ls[..|ls| - 1], e) + [Notification(ls[|ls| - 1], e)]
  }

  /** Every profile is stored under its own endpoint id. */
  ghost predicate KeyedById(store: map<string, PeerProfile>) {
    forall k :: k in store ==> store[k].endpointId == Some(k)
  }

  ghost predicate DistinctIds(r: seq<PeerProfile>) {
    forall i, j :: 0 <= i < j < |r| ==> r[i].endpointId != r[j].endpointId
  }

  /**
   * `r` lists, once each and in some order, exactly the stored profiles that satisfy `f`.
   */
  ghost predicate ListsExactly(r: seq<PeerProfile>, store: map<string, PeerProfile>, f: PeerProfile -> bool) {
    (forall i :: 0 <= i < |r| ==>
       r[i].endpointId.Some? && r[i].endpointId.value in store && store[r[i].endpointId.value] == r[i] && f(r[i]))
    && DistinctIds(r)
    && (forall k :: k in store && f(store[k]) ==> store[k] in r)
  }

  lemma {:induction false} FilterDistinctIds(f: PeerProfile -> bool, r: seq<PeerProfile>)
    requires DistinctIds(r)
    ensures DistinctIds(Filter(f, r))
  {
    if r != [] {
      assert DistinctIds(r[1..]) by {
        forall i, j | 0 <= i < j < |r[1..]| ensures r[1..][i].endpointId != r[1..][j].endpointId {
          assert r[1..][i] == r[i + 1] && r[1..][j] == r[j + 1];
        }
      }
      FilterDistinctIds(f, r[1..]);
      var rest := Filter(f, r[1..]);
      FilterMembers(f, r[1..]);
      forall i | 0 <= i < |rest| ensures rest[i].endpointId != r[0].endpointId {
        var j :| 0 <= j < |r[1..]| && r[1..][j] == rest[i];
        assert r[j + 1] == rest[i];
      }
    }
  }

  /** Filtering a listing of the whole store lists exactly the stored profiles the filter keeps. */
  lemma FilterListsExactly(all: seq<PeerProfile>, store: map<string, PeerProfile>, f: PeerProfile -> bool)
    requires ListsExactly(all, store, _ => true)
    ensures ListsExactly(Filter(f, all), store, f)
  {
    FilterMembers(f, all);
    FilterDistinctIds(f, all);
  }

  /** The filter getPeerProfilesExcludingSelf applies: the endpoint id is not `selfId`. */
  function NotSelf(selfId: string): PeerProfile -> bool {
    (p: PeerProfile) => p.endpointId != Some(selfId)
  }

  /** The filter getSurvivorsExcludingSelf applies. */
  function SurvivorNotSelf(selfId: string): PeerProfile -> bool {
    (p: PeerProfile) => IsSurvivor(p) && p.endpointId != Some(selfId)
  }

  /** The survivor list without self is the survivor list with self's entry dropped. */
  lemma SurvivorsExcludingSelfIsFiltered(all: seq<PeerProfile>, selfId: string)
    ensures Filter(SurvivorNotSelf(selfId), all) == Filter(NotSelf(selfId), Filter(IsSurvivor, all))
  {
    forall i | 0 <= i < |all|
      ensures SurvivorNotSelf(selfId)(all[i]) == (IsSurvivor(all[i]) && NotSelf(selfId)(all[i]))
    {
      var p := all[i];
      assert SurvivorNotSelf(selfId)(p) == (IsSurvivor(p) && p.endpointId != Some(selfId));
      assert NotSelf(selfId)(p) == (p.endpointId != Some(selfId));
    }
    FilterFilter(IsSurvivor, NotSelf(selfId), SurvivorNotSelf(selfId), all);
  }

  /** No stored profile is listed both as a volunteer and as a survivor. */
  lemma RoleQueriesDisjoint(vs: seq<PeerProfile>, ss: seq<PeerProfile>, store: map<string, PeerProfile>)
    requires ListsExactly(vs, store, IsVolunteer) && ListsExactly(ss, store, IsSurvivor)
    ensures forall i, j :: 0 <= i < |vs| && 0 <= j < |ss| ==> vs[i] != ss[j]
  {
    forall i, j | 0 <= i < |vs| && 0 <= j < |ss| ensures vs[i] != ss[j] {
      assert IsVolunteer(vs[i]) && IsSurvivor(ss[j]);
    }
  }

  /**
   * onJsonProfileReceived's decision: the profile Gson decodes is stored unless decoding fails, its
   * endpoint id is null (the equals call throws and the handler swallows it) or it is our own.
   */
  function AcceptJson(json: string, selfId: string, fromJson: string -> Option<PeerProfile>): (r: Option<PeerProfile>)
    ensures r.Some? <==>
              fromJson(json).Some? && fromJson(json).value.endpointId.Some? &&
              fromJson(json).value.endpointId.value != selfId
    ensures r.Some? ==> r == fromJson(json)
  {
    match fromJson(json)
    case None => None
    case Some(p) => if p.endpointId.Some? && p.endpointId.value != selfId then Some(p) else None
  }

  /**
   * What broadcastProfileAsJson sends reaches a receiver's registry as the sender's full profile,
   * provided the JSON encoding round-trips, except at a receiver whose self id is the sender's.
   */
  lemma JsonProfileDelivered(prefs: Prefs, senderId: string, receiverId: string,
                             toJson: PeerProfile -> string, fromJson: string -> Option<PeerProfile>)
    requires fromJson(toJson(FullOwnProfile(prefs, senderId))) == Some(FullOwnProfile(prefs, senderId))
    ensures var p := FullOwnProfile(prefs, senderId);
            var pkt := Packet(PROFILE_JSON_TYPE, toJson(p));
            Classify(pkt) == ProfileJson && JsonPayloadOf(pkt) == Some(toJson(p)) &&
            (AcceptJson(toJson(p), receiverId, fromJson) == if senderId != receiverId then Some(p) else None)
  {
    JsonPacketRoundTrip(toJson(FullOwnProfile(prefs, senderId)));
  }

  class MeshManager {
    /** The session; null until init. */
    var helper: ConnectionHelper?
    /** The latest profile heard from each peer, keyed by endpoint id. */
    var peerProfiles: map<string, PeerProfile>
    var listeners: seq<ListenerId>
    /** Every delivery to a registered listener, oldest first. */
    ghost var notified: seq<Notification>

    ghost predicate Valid()
      reads this, helper
    {
      (helper != null ==> helper.Valid()) && KeyedById(peerProfiles) && NoDuplicates(listeners)
    }

    constructor()
      ensures Valid()
      ensures helper == null && peerProfiles == map[] && listeners == [] && notified == []
    {
      helper := null;
      peerProfiles := map[];
      listeners := [];
      notified := [];
    }

    /** The session's endpoint tables are as they were. */
    twostate predicate TablesKept()
      reads this, helper
      requires helper != null && old(helper) == helper
    {
      helper.connectedPeers == old(helper.connectedPeers) && helper.pendingEndpoints == old(helper.pendingEndpoints) &&
      helper.pendingEndpointNames == old(helper.pendingEndpointNames)
    }

    /** The session's tables, role and posted events are as they were. */
    twostate predicate SessionKept()
      reads this, helper
      requires helper != null && old(helper) == helper
    {
      TablesKept() && helper.currentRole == old(helper.currentRole) && helper.posted == old(helper.posted)
    }

    /** init: creates the session once; a second call changes nothing. */
    method Init(initialRole: string)
      requires Valid()
      modifies this`helper
      ensures Valid()
      ensures old(helper) != null ==> helper == old(helper)
      ensures old(helper) == null ==>
                fresh(helper) && helper.connectedPeers == map[] && helper.pendingEndpoints == {} &&
                helper.pendingEndpointNames == map[] && helper.currentRole == Some(initialRole) &&
                !helper.isRunning && helper.calls == [] && helper.posted == []
    {
      if helper != null { return; }
      helper := new ConnectionHelper(initialRole);
    }

    /** getPeerCount: the session's connected count, 0 before init. */
    function GetPeerCount(): (n: nat)
      reads this, helper
      ensures helper == null ==> n == 0
      ensures helper != null ==> n == |helper.connectedPeers|
    {
      if helper != null then helper.GetPeerCount() else 0
    }

    /** getSelfId: the session's stable node id, "self" before init. */
    function GetSelfId(prefs: Prefs): (r: string)
      reads this
      ensures helper == null ==> r == "self"
      ensures helper != null ==> r == prefs.stableNodeId.GetOr("UNKNOWN")
    {
      if helper != null then LocalEndpointId(prefs) else "self"
    }

    method StartMesh(prefs: Prefs)
      requires Valid()
      modifies helper
      ensures Valid()
      ensures helper != null ==> (helper.isRunning && SessionKept() &&
                helper.calls == old(helper.calls) + [StartAdvertising(BuildEndpointName(old(helper.currentRole), prefs)), StartDiscovery])
    {
      if helper != null { helper.StartMesh(prefs); }
    }

    method StopMesh()
      requires Valid()
      modifies helper
      ensures Valid()
      ensures helper != null ==> (!helper.isRunning && helper.connectedPeers == map[] &&
                helper.pendingEndpoints == {} && helper.pendingEndpointNames == map[] &&
                helper.currentRole == old(helper.currentRole) && helper.posted == old(helper.posted) &&
                helper.calls == old(helper.calls) + [StopAdvertising, StopDiscovery, StopAllEndpoints])
    {
      if helper != null { helper.StopMesh(); }
    }

    /** updateRole: the session's role changes, and a running session re-advertises under it. */
    method UpdateRole(role: JString, prefs: Prefs)
      requires Valid()
      modifies helper
      ensures Valid()
      ensures helper != null ==> (helper.currentRole == role && TablesKept() &&
                helper.isRunning == old(helper.isRunning) && helper.posted == old(helper.posted) &&
                helper.calls == old(helper.calls) +
                  (if helper.isRunning then [StopAdvertising, StartAdvertising(BuildEndpointName(role, prefs))] else []))
    {
      if helper != null { helper.UpdateRoleAndRestart(role, prefs); }
    }

    /** One delivery of `e` to every registered listener, in list order. */
    method Notify(e: StatusEvent)
      modifies this`notified
      ensures notified == old(notified) + Deliveries(listeners, e)
    {
      for i := 0 to |listeners|
        invariant notified == old(notified) + Deliveries(listeners[..i], e)
      {
        assert listeners[..i + 1][..i] == listeners[..i];
        notified := notified + [Notification(listeners[i], e)];
      }
      assert listeners[..|listeners|] == listeners;
    }

    /**
     * getPeerProfiles: a copy of the stored profiles (the ArrayList copy constructor's walk of
     * values(), in some order). A sequence is a value, so later changes to the store cannot reach it.
     */
    method GetPeerProfiles() returns (r: seq<PeerProfile>)
      requires Valid()
      ensures ListsExactly(r, peerProfiles, _ => true)
    {
      var remaining := peerProfiles.Keys;
      r := [];
      while remaining != {}
        invariant remaining <= peerProfiles.Keys
        invariant forall i :: 0 <= i < |r| ==>
                    r[i].endpointId.Some? && r[i].endpointId.value in peerProfiles.Keys - remaining &&
                    peerProfiles[r[i].endpointId.value] == r[i]
        invariant DistinctIds(r)
        invariant forall k :: k in peerProfiles.Keys - remaining ==> peerProfiles[k] in r
        decreases remaining
      {
        var k :| k in remaining;
        r := r + [peerProfiles[k]];
        remaining := remaining - {k};
      }
    }

    /** getVolunteers: exactly the stored VOLUNTEER profiles. */
    method GetVolunteers() returns (r: seq<PeerProfile>)
      requires Valid()
      ensures ListsExactly(r, peerProfiles, IsVolunteer)
    {
      var all := GetPeerProfiles();
      FilterListsExactly(all, peerProfiles, IsVolunteer);
      r := Filter(IsVolunteer, all);
    }

    /** getSurvivors: exactly the stored SURVIVOR profiles. */
    method GetSurvivors() returns (r: seq<PeerProfile>)
      requires Valid()
      ensures ListsExactly(r, peerProfiles, IsSurvivor)
    {
      var all := GetPeerProfiles();
      FilterListsExactly(all, peerProfiles, IsSurvivor);
      r := Filter(IsSurvivor, all);
    }

    /** getSurvivorsExcludingSelf: the stored SURVIVOR profiles but the one under our own id. */
    method GetSurvivorsExcludingSelf(prefs: Prefs) returns (r: seq<PeerProfile>)
      requires Valid()
      ensures var selfId := GetSelfId(prefs);
              ListsExactly(r, peerProfiles, SurvivorNotSelf(selfId))
    {
      var selfId := GetSelfId(prefs);
      var all := GetPeerProfiles();
      FilterListsExactly(all, peerProfiles, SurvivorNotSelf(selfId));
      r := Filter(SurvivorNotSelf(selfId), all);
    }

    /** getPeerProfilesExcludingSelf: every stored profile but the one under our own id. */
    method GetPeerProfilesExcludingSelf(prefs: Prefs) returns (r: seq<PeerProfile>)
      requires Valid()
      ensures var selfId := GetSelfId(prefs);
              ListsExactly(r, peerProfiles, NotSelf(selfId))
    {
      var selfId := GetSelfId(prefs);
      var all := GetPeerProfiles();
      FilterListsExactly(all, peerProfiles, NotSelf(selfId));
      r := Filter(NotSelf(selfId), all);
    }

    /**
     * onJsonProfileReceived: an accepted profile overwrites whatever was stored under its id (no
     * timestamp is compared) and every listener hears of it once; otherwise nothing changes.
     */
    method OnJsonProfileReceived(json: string, prefs: Prefs, fromJson: string -> Option<PeerProfile>)
      requires Valid()
      modifies this`peerProfiles, this`notified
      ensures Valid()
      ensures var p := AcceptJson(json, GetSelfId(prefs), fromJson);
              if p.Some? then
                peerProfiles == old(peerProfiles)[p.value.endpointId.value := p.value] &&
                notified == old(notified) + Deliveries(listeners, ProfileReceived(p.value))
              else
                peerProfiles == old(peerProfiles) && notified == old(notified)
    {
      var profile := fromJson(json);
      if profile.None? { return; }
      var p := profile.value;
      if p.endpointId.None? { return; }
      if p.endpointId.value == GetSelfId(prefs) { return; }
      peerProfiles := peerProfiles[p.endpointId.value := p];
      Notify(ProfileReceived(p));
    }

    /**
     * masterListener.onProfileReceived: store the profile under its id, overwriting, and relay it.
     * ConcurrentHashMap refuses a null key, so the profile must carry an id (every decoded compact
     * profile does).
     */
    method OnProfileReceived(profile: PeerProfile)
      requires Valid() && profile.endpointId.Some?
      modifies this`peerProfiles, this`notified
      ensures Valid()
      ensures peerProfiles == old(peerProfiles)[profile.endpointId.value := profile]
      ensures notified == old(notified) + Deliveries(listeners, ProfileReceived(profile))
    {
      peerProfiles := peerProfiles[profile.endpointId.value := profile];
      Notify(ProfileReceived(profile));
    }

    /** masterListener.onPeerDisconnected: forget that peer's profile and relay the event. */
    method OnPeerDisconnected(endpointId: string)
      requires Valid()
      modifies this`peerProfiles, this`notified
      ensures Valid()
      ensures peerProfiles == old(peerProfiles) - {endpointId}
      ensures notified == old(notified) + Deliveries(listeners, PeerDisconnected(endpointId))
    {
      peerProfiles := peerProfiles - {endpointId};
      Notify(PeerDisconnected(endpointId));
    }

    /**
     * The master listener: the session's posted events arrive here on the main thread. Profile and
     * disconnect events update the store; every event is relayed to every listener.
     */
    method Deliver(e: StatusEvent)
      requires Valid()
      requires e.ProfileReceived? ==> e.profile.endpointId.Some?
      modifies this`peerProfiles, this`notified
      ensures Valid()
      ensures peerProfiles == match e
                              case ProfileReceived(p) => old(peerProfiles)[p.endpointId.value := p]
                              case PeerDisconnected(id) => old(peerProfiles) - {id}
                              case _ => old(peerProfiles)
      ensures notified == old(notified) + Deliveries(listeners, e)
    {
      match e
      case ProfileReceived(p) => OnProfileReceived(p);
      case PeerDisconnected(id) => OnPeerDisconnected(id);
      case _ => Notify(e);
    }

    /** addListener: registers `l` unless it already is. */
    method AddListener(l: ListenerId)
      requires Valid()
      modifies this`listeners
      ensures Valid()
      ensures l in listeners
      ensures listeners == if l in old(listeners) then old(listeners) else old(listeners) + [l]
    {
      if l !in listeners {
        listeners := listeners + [l];
      }
    }

    /** removeListener: `l` is no longer registered; the others keep their order. */
    method RemoveListener(l: ListenerId)
      requires Valid()
      modifies this`listeners
      ensures Valid()
      ensures l !in listeners
      ensures listeners == RemoveFirst(old(listeners), l)
    {
      RemoveFirstUnique(listeners, l);
      listeners := RemoveFirst(listeners, l);
    }

    /** sendProfileTo: our compact profile to one endpoint; nothing before init. */
    method SendProfileTo(endpointId: string, prefs: Prefs)
      requires Valid()
      modifies helper
      ensures Valid()
      ensures helper != null ==> (SessionKept() && helper.isRunning == old(helper.isRunning) &&
                helper.calls == old(helper.calls) + [SendPayload(endpointId, ToWireFormat(OwnProfile(prefs)))])
    {
      if helper == null { return; }
      helper.SendProfilePayload(endpointId, ToWireFormat(OwnProfile(prefs)));
    }

    /** broadcastSOS: the session's SOS broadcast; nothing before init. */
    method BroadcastSOS(prefs: Prefs, nowMillis: int) returns (ghost order: seq<string>)
      requires Valid()
      modifies helper
      ensures Valid()
      ensures helper != null ==> (Enumerates(order, old(helper.connectedPeers).Keys) &&
                SessionKept() && helper.isRunning == old(helper.isRunning) &&
                helper.calls == old(helper.calls) + SendsTo(order, SosPacket(LocalEndpointId(prefs), nowMillis)))
    {
      order := [];
      if helper != null {
        order := helper.BroadcastSOS(prefs, nowMillis);
      }
    }

    /**
     * broadcastProfileAsJson: our full profile (with the triage fields and our self id), encoded
     * by `toJson`, as a PROFILE_JSON message to every connected peer; nothing before init.
     */
    method BroadcastProfileAsJson(prefs: Prefs, toJson: PeerProfile -> string) returns (ghost order: seq<string>)
      requires Valid()
      modifies helper
      ensures Valid()
      ensures helper != null ==> (Enumerates(order, old(helper.connectedPeers).Keys) &&
                SessionKept() && helper.isRunning == old(helper.isRunning) &&
                helper.calls == old(helper.calls) +
                  SendsTo(order, Packet(PROFILE_JSON_TYPE, toJson(FullOwnProfile(prefs, LocalEndpointId(prefs))))))
    {
      order := [];
      if helper == null { return; }
      var json := toJson(FullOwnProfile(prefs, GetSelfId(prefs)));
      order := helper.BroadcastMessage(PROFILE_JSON_TYPE, json);
    }

    /**
     * A payload arriving at the session: the session dispatches and relays it, and a PROFILE_JSON
     * message's JSON goes straight on to onJsonProfileReceived.
     */
    method OnPayloadReceived(fromId: string, payload: Option<string>, prefs: Prefs,
                             fromJson: string -> Option<PeerProfile>)
      requires Valid() && helper != null
      modifies helper, this`peerProfiles, this`notified
      ensures Valid()
      ensures var json := if payload.Some? && Classify(payload.value) == ProfileJson
                          then JsonPayloadOf(payload.value) else None;
              var p := if json.Some? then AcceptJson(json.value, GetSelfId(prefs), fromJson) else None;
              if p.Some? then
                peerProfiles == old(peerProfiles)[p.value.endpointId.value := p.value] &&
                notified == old(notified) + Deliveries(listeners, ProfileReceived(p.value))
              else
                peerProfiles == old(peerProfiles) && notified == old(notified)
      ensures TablesKept() && helper.currentRole == old(helper.currentRole) && helper.isRunning == old(helper.isRunning)
      ensures PayloadHandled(fromId, payload, old(helper.connectedPeers).Keys,
                             old(helper.posted), old(helper.calls), helper.posted, helper.calls)
    {
      var handoff := helper.OnPayloadReceived(fromId, payload);
      if handoff.Some? {
        OnJsonProfileReceived(handoff.value, prefs, fromJson);
      }
    }
  }
}
