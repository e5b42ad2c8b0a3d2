/**
 * ConnectionHelper: one device's mesh session over the Nearby Connections API. It tracks which
 * endpoints are connected, which have a connection request in flight and which advertised names
 * were captured at initiation; it builds and parses advertised names, dispatches incoming
 * payloads by prefix and floods SOS and JSON-profile messages to the other connected peers.
 */
module Session {
  import opened Wrappers
  import opened Seqs
  import opened JavaText
  import opened Settings
  import opened Profile

  /** Every advertised endpoint name of the app starts with this. */
  const PREFIX := "RESQNET"
  /** ConnectionsStatusCodes.STATUS_OK. */
  const STATUS_OK := 0
  const SOS_TYPE := "SOS"
  const PROFILE_JSON_TYPE := "PROFILE_JSON"

  /** The callbacks of ConnectionStatusListener, as the events posted to the main thread. */
  datatype StatusEvent =
    | PeerCountChanged(count: int)
    | PeerConnected(endpointName: string)
    | PeerDisconnected(endpointId: string)
    | SosReceived(fromNodeId: string)
    | ProfileReceived(profile: PeerProfile)

  /** The requests the session issues to the Nearby Connections client. */
  datatype ClientCall =
    | StartAdvertising(endpointName: string)
    | StopAdvertising
    | StartDiscovery
    | StopDiscovery
    | StopAllEndpoints
    | RequestConnection(localName: string, endpointId: string)
    | AcceptConnection(endpointId: string)
    | SendPayload(endpointId: string, message: string)

  // ── Endpoint names ──────────────────────────────────────────────────────────

  /** buildEndpointName: "RESQNET|role|name", the user name defaulting to "Unknown". */
  function BuildEndpointName(role: JString, prefs: Prefs): (r: string)
    ensures StartsWith(r, PREFIX + "|")
  {
    var r := PREFIX + "|" + Text(role) + "|" + prefs.userName.GetOr("Unknown");
    assert r[..|PREFIX + "|"|] == PREFIX + "|";
    r
  }

  /** parseRoleFromEndpointName: the second '|'-field, "SURVIVOR" for null or fewer than two fields. */
  function ParseRoleFromEndpointName(n: JString): (r: string)
    ensures n == None ==> r == ROLE_SURVIVOR
    ensures n.Some? && '|' !in n.value ==> r == ROLE_SURVIVOR
    ensures n.Some? && |SplitDefault(n.value, '|')| >= 2 ==> r == SplitDefault(n.value, '|')[1]
    ensures n.Some? && |SplitDefault(n.value, '|')| < 2 ==> r == ROLE_SURVIVOR
  {
    match n
    case None => ROLE_SURVIVOR
    case Some(s) =>
      var p := SplitDefault(s, '|');
      if |p| >= 2 then p[1] else ROLE_SURVIVOR
  }

  /** parseNameFromEndpointName: the third '|'-field, "Unknown" for null or fewer than three fields. */
  function ParseNameFromEndpointName(n: JString): (r: string)
    ensures n == None ==> r == "Unknown"
    ensures n.Some? && '|' !in n.value ==> r == "Unknown"
    ensures n.Some? && |SplitDefault(n.value, '|')| >= 3 ==> r == SplitDefault(n.value, '|')[2]
    ensures n.Some? && |SplitDefault(n.value, '|')| < 3 ==> r == "Unknown"
  {
    match n
    case None => "Unknown"
    case Some(s) =>
      var p := SplitDefault(s, '|');
      if |p| >= 3 then p[2] else "Unknown"
  }

  /** isVolunteer(endpointName): whether the advertised role is VOLUNTEER. */
  predicate IsVolunteerName(n: JString)
    ensures IsVolunteerName(n) ==> n.Some? && '|' in n.value
  {
    ParseRoleFromEndpointName(n) == ROLE_VOLUNTEER
  }

  /** The three fields of "a|b|c" when none of them contains '|'. */
  lemma SplitThree(a: string, b: string, c: string)
    requires '|' !in a && '|' !in b && '|' !in c
    ensures SplitAll(a + "|" + b + "|" + c, '|') == [a, b, c]
  {
    SplitSingle(a);
    SplitAppendField(a, b);
    SplitAppendField(a + "|" + b, c);
  }

  /**
   * Parsing what buildEndpointName advertises gives back the role and the name. The default split
   * drops trailing empty fields, so an empty name reads as "Unknown", and an empty role with an
   * empty name reads as SURVIVOR.
   */
  lemma EndpointNameRoundTrip(role: JString, prefs: Prefs)
    requires '|' !in Text(role) && '|' !in prefs.userName.GetOr("Unknown")
    ensures var r := Text(role); var n := prefs.userName.GetOr("Unknown");
            ParseRoleFromEndpointName(Some(BuildEndpointName(role, prefs))) ==
              (if r == "" && n == "" then ROLE_SURVIVOR else r) &&
            ParseNameFromEndpointName(Some(BuildEndpointName(role, prefs))) ==
              (if n == "" then "Unknown" else n)
  {
    var r := Text(role);
    var n := prefs.userName.GetOr("Unknown");
    var s := BuildEndpointName(role, prefs);
    SplitThree(PREFIX, r, n);
    assert s[0] == '|' || s[7] == '|';
    var all := [PREFIX, r, n];
    assert SplitAll(s, '|') == all;
    if n != "" {
      assert SplitDefault(s, '|') == all;
    } else if r != "" {
      assert DropTrailingEmpty(all) == DropTrailingEmpty([PREFIX, r]);
      assert SplitDefault(s, '|') == [PREFIX, r];
    } else {
      assert DropTrailingEmpty(all) == DropTrailingEmpty([PREFIX, r]);
      assert DropTrailingEmpty([PREFIX, r]) == DropTrailingEmpty([PREFIX]);
      assert SplitDefault(s, '|') == [PREFIX];
    }
  }

  /** A volunteer's advertised name is recognised as a volunteer's. */
  lemma VolunteerNameRecognised(prefs: Prefs)
    requires '|' !in prefs.userName.GetOr("Unknown")
    ensures IsVolunteerName(Some(BuildEndpointName(Some(ROLE_VOLUNTEER), prefs)))
    ensures !IsVolunteerName(Some(BuildEndpointName(Some(ROLE_SURVIVOR), prefs)))
  {
    EndpointNameRoundTrip(Some(ROLE_VOLUNTEER), prefs);
    EndpointNameRoundTrip(Some(ROLE_SURVIVOR), prefs);
  }

  // ── Payload dispatch ────────────────────────────────────────────────────────

  datatype PayloadKind = Sos | ProfileJson | CompactProfile | Ignored

  /** The handler onPayloadReceived picks: SOS, then PROFILE_JSON, then PROFILE; anything else is dropped. */
  function Classify(msg: string): (k: PayloadKind)
    ensures k == Sos <==> StartsWith(msg, SOS_TYPE)
    ensures k == ProfileJson <==> !StartsWith(msg, SOS_TYPE) && StartsWith(msg, PROFILE_JSON_TYPE)
    ensures k == CompactProfile <==>
              !StartsWith(msg, SOS_TYPE) && !StartsWith(msg, PROFILE_JSON_TYPE) && StartsWith(msg, TYPE)
  {
    if StartsWith(msg, SOS_TYPE) then Sos
    else if StartsWith(msg, PROFILE_JSON_TYPE) then ProfileJson
    else if StartsWith(msg, TYPE) then CompactProfile
    else Ignored
  }

  /**
   * Every PROFILE_JSON message also starts with PROFILE, so the order of the tests matters: such a
   * message goes to the JSON handler, never to the compact decoder.
   */
  lemma ProfileJsonShadowsProfile(msg: string)
    requires StartsWith(msg, PROFILE_JSON_TYPE)
    ensures StartsWith(msg, TYPE)
    ensures Classify(msg) == ProfileJson
  {
    assert msg[..|TYPE|] == msg[..|PROFILE_JSON_TYPE|][..|TYPE|];
    assert msg[0] == 'P';
  }

  /** The compact wire text of any profile reaches the compact decoder. */
  lemma WireTextIsCompactProfile(p: PeerProfile)
    ensures Classify(ToWireFormat(p)) == CompactProfile
  {
    var s := ToWireFormat(p);
    assert s[..|TYPE + "|"|] == TYPE + "|";
    assert s[0] == 'P';
    assert s[7] == '|';
    assert s[..|PROFILE_JSON_TYPE|][7] == '|';
  }

  // ── SOS packets ─────────────────────────────────────────────────────────────

  /** broadcastSOS's packet: "SOS|nodeId|millis". */
  function SosPacket(nodeId: string, millis: int): (r: string)
    ensures StartsWith(r, SOS_TYPE + "|")
  {
    var r := SOS_TYPE + "|" + nodeId + "|" + IntToString(millis);
    assert r[..|SOS_TYPE + "|"|] == SOS_TYPE + "|";
    r
  }

  /** handleSos's origin: the second field of the default split, else the sending endpoint. */
  function SosOrigin(fromId: string, msg: string): (r: string)
    ensures '|' !in msg ==> r == fromId
    ensures |SplitDefault(msg, '|')| >= 2 ==> r == SplitDefault(msg, '|')[1]
    ensures |SplitDefault(msg, '|')| < 2 ==> r == fromId
  {
    var parts := SplitDefault(msg, '|');
    if |parts| >= 2 then parts[1] else fromId
  }

  /** A relayed SOS reports the node that raised it, not the neighbour that forwarded it. */
  lemma SosPacketOrigin(fromId: string, nodeId: string, millis: int)
    requires '|' !in nodeId
    ensures Classify(SosPacket(nodeId, millis)) == Sos
    ensures SosOrigin(fromId, SosPacket(nodeId, millis)) == nodeId
  {
    var m := IntToString(millis);
    var s := SosPacket(nodeId, millis);
    assert s[..|SOS_TYPE|] == SOS_TYPE;
    SplitThree(SOS_TYPE, nodeId, m);
    assert s == SOS_TYPE + "|" + nodeId + "|" + m;
    assert s[3] == '|';
    assert SplitDefault(s, '|') == [SOS_TYPE, nodeId, m];
  }

  // ── JSON-profile packets ────────────────────────────────────────────────────

  /** broadcastMessage's packet: the message type, '|', the payload. */
  function Packet(messageType: string, payload: string): (r: string)
    ensures StartsWith(r, messageType + "|")
    ensures r[|messageType| + 1..] == payload
  {
    var r := messageType + "|" + payload;
    assert r[..|messageType| + 1] == messageType + "|";
    r
  }

  /** handleJsonProfile's extraction: everything after the first '|'; None when there is none. */
  function JsonPayloadOf(msg: string): (r: Option<string>)
    ensures r.None? <==> '|' !in msg
    ensures r.Some? ==> var k := |msg| - |r.value| - 1;
              0 <= k && msg[k] == '|' && '|' !in msg[..k] && msg[k + 1..] == r.value
  {
    var k := IndexOf(msg, '|');
    if k < 0 then None else Some(msg[k + 1..])
  }

  /** The registry receives exactly the JSON that broadcastProfileAsJson sent. */
  lemma JsonPacketRoundTrip(json: string)
    ensures Classify(Packet(PROFILE_JSON_TYPE, json)) == ProfileJson
    ensures JsonPayloadOf(Packet(PROFILE_JSON_TYPE, json)) == Some(json)
  {
    var s := Packet(PROFILE_JSON_TYPE, json);
    assert s[..|PROFILE_JSON_TYPE|] == PROFILE_JSON_TYPE;
    assert s[0] == 'P';
    IndexOfAfter(PROFILE_JSON_TYPE, "|" + json, '|');
    assert s == PROFILE_JSON_TYPE + ("|" + json);
    assert s[|PROFILE_JSON_TYPE| + 1..] == json;
  }

  // ── Send batches ────────────────────────────────────────────────────────────

  /** One send of `message` to each id of `ids`, in that order. */
  ghost function SendsTo(ids: seq<string>, message: string): seq<ClientCall> {
    if ids == [] then [] else SendsTo(ids[..|ids| - 1], message) + [SendPayload(ids[|ids| - 1], message)]
  }

  lemma SendsToSnoc(ids: seq<string>, id: string, message: string)
    ensures SendsTo(ids + [id], message) == SendsTo(ids, message) + [SendPayload(id, message)]
  {
    assert (ids + [id])[..|ids|] == ids;
  }

  /** After visiting `targets - remaining`, `order` holds the visited ids other than `skip`, once each. */
  ghost predicate VisitedExcept(order: seq<string>, targets: set<string>, remaining: set<string>, skip: Option<string>) {
    NoDuplicates(order) && forall t :: t in order <==> t in targets - remaining && Some(t) != skip
  }

  /** One visit of the send loop keeps VisitedExcept. */
  lemma VisitStep(order: seq<string>, targets: set<string>, remaining: set<string>, skip: Option<string>, id: string)
    requires id in remaining && remaining <= targets && VisitedExcept(order, targets, remaining, skip)
    ensures Some(id) != skip ==> id !in order && VisitedExcept(order + [id], targets, remaining - {id}, skip)
    ensures Some(id) == skip ==> VisitedExcept(order, targets, remaining - {id}, skip)
  {
    if Some(id) != skip {
      assert NoDuplicates(order + [id]);
    }
  }

  /** `ids` names each endpoint of `targets` once: an enumeration of the set in some order. */
  ghost predicate Enumerates(ids: seq<string>, targets: set<string>) {
    NoDuplicates(ids) && (forall t :: t in targets <==> t in ids)
  }

  /** Every send of the batch goes to a target, carries `message`, and no endpoint gets two. */
  lemma SendsToExactlyOnce(ids: seq<string>, targets: set<string>, message: string)
    requires Enumerates(ids, targets)
    ensures |SendsTo(ids, message)| == |ids|
    ensures forall i :: 0 <= i < |ids| ==> SendsTo(ids, message)[i] == SendPayload(ids[i], message)
  {
    if ids != [] {
      var init := ids[..|ids| - 1];
      assert Enumerates(init, set t | t in init :: t) by {
        forall i, j | 0 <= i < j < |init| ensures init[i] != init[j] {
          assert init[i] == ids[i] && init[j] == ids[j];
        }
      }
      SendsToExactlyOnce(init, set t | t in init :: t, message);
    }
  }

  /** The JSON text onPayloadReceived hands on to the registry: that of a PROFILE_JSON message. */
  function JsonHandoff(payload: Option<string>): Option<string> {
    if payload.Some? && Classify(payload.value) == ProfileJson then JsonPayloadOf(payload.value) else None
  }

  /**
   * What onPayloadReceived does to the posted events and the client calls, given the connected
   * ids: nothing for a non-byte payload or an unknown prefix; a compact profile posts its decode;
   * an SOS posts its origin; SOS and well-formed PROFILE_JSON messages are relayed once to every
   * connected id but the sender.
   */
  ghost predicate PayloadHandled(fromId: string, payload: Option<string>, peers: set<string>,
                                 posted0: seq<StatusEvent>, calls0: seq<ClientCall>,
                                 posted1: seq<StatusEvent>, calls1: seq<ClientCall>)
  {
    (payload.None? || Classify(payload.value) == Ignored ==> posted1 == posted0 && calls1 == calls0) &&
    (payload.Some? && Classify(payload.value) == CompactProfile ==>
       calls1 == calls0 &&
       posted1 == posted0 + (var p := FromWireFormat(fromId, payload.value);
                             if p.Some? then [ProfileReceived(p.value)] else [])) &&
    (payload.Some? && Classify(payload.value) == Sos ==>
       posted1 == posted0 + [SosReceived(SosOrigin(fromId, payload.value))]) &&
    (payload.Some? && Classify(payload.value) == ProfileJson ==> posted1 == posted0) &&
    (payload.Some? && Classify(payload.value) == ProfileJson && JsonHandoff(payload).None? ==> calls1 == calls0) &&
    (payload.Some? && (Classify(payload.value) == Sos || JsonHandoff(payload).Some?) ==>
       exists order :: Enumerates(order, peers - {fromId}) && calls1 == calls0 + SendsTo(order, payload.value))
  }

  // ── The session ─────────────────────────────────────────────────────────────

  class ConnectionHelper {
    /** Connected endpoint id -> the name it advertised at initiation ("" if none was captured). */
    var connectedPeers: map<string, string>
    /** Endpoints with a connection request of ours still in flight. */
    var pendingEndpoints: set<string>
    /** Endpoint id -> advertised name, captured in onConnectionInitiated. */
    var pendingEndpointNames: map<string, string>
    var currentRole: JString
    var isRunning: bool
    /** The requests issued to the Nearby Connections client, oldest first. */
    ghost var calls: seq<ClientCall>
    /** The listener events posted to the main thread, oldest first. */
    ghost var posted: seq<StatusEvent>

    /** No endpoint is both connected and pending. */
    ghost predicate Valid()
      reads this
    {
      connectedPeers.Keys !! pendingEndpoints
    }

    constructor(initialRole: string)
      ensures Valid()
      ensures connectedPeers == map[] && pendingEndpoints == {} && pendingEndpointNames == map[]
      ensures currentRole == Some(initialRole) && !isRunning
      ensures calls == [] && posted == []
    {
      connectedPeers := map[];
      pendingEndpoints := {};
      pendingEndpointNames := map[];
      currentRole := Some(initialRole);
      isRunning := false;
      calls := [];
      posted := [];
    }

    /** getPeerCount: the number of connected endpoints. */
    function GetPeerCount(): (n: nat)
      reads this
      ensures n == 0 <==> connectedPeers == map[]
    {
      |connectedPeers|
    }

    /** startMesh: advertise under the current role and discover. */
    method StartMesh(prefs: Prefs)
      modifies this`isRunning, this`calls
      ensures isRunning
      ensures calls == old(calls) + [StartAdvertising(BuildEndpointName(currentRole, prefs)), StartDiscovery]
    {
      isRunning := true;
      calls := calls + [StartAdvertising(BuildEndpointName(currentRole, prefs)), StartDiscovery];
    }

    /** stopMesh: stop everything and forget every endpoint. */
    method StopMesh()
      modifies this
      ensures Valid()
      ensures !isRunning
      ensures connectedPeers == map[] && pendingEndpoints == {} && pendingEndpointNames == map[]
      ensures currentRole == old(currentRole) && posted == old(posted)
      ensures calls == old(calls) + [StopAdvertising, StopDiscovery, StopAllEndpoints]
    {
      isRunning := false;
      calls := calls + [StopAdvertising, StopDiscovery, StopAllEndpoints];
      connectedPeers := map[];
      pendingEndpoints := {};
      pendingEndpointNames := map[];
    }

    /** updateRoleAndRestart: a new role; a running session re-advertises under it. */
    method UpdateRoleAndRestart(newRole: JString, prefs: Prefs)
      modifies this`currentRole, this`calls
      ensures currentRole == newRole
      ensures calls == old(calls) +
                (if isRunning then [StopAdvertising, StartAdvertising(BuildEndpointName(newRole, prefs))] else [])
    {
      currentRole := newRole;
      if isRunning {
        calls := calls + [StopAdvertising, StartAdvertising(BuildEndpointName(currentRole, prefs))];
      }
    }

    /**
     * The loop over connectedPeers.keySet() that sends `message` to every id but `skip`. HashMap
     * order is not modelled: each step takes any id not yet visited.
     */
    method SendToEachExcept(targets: set<string>, skip: Option<string>, message: string)
      returns (ghost order: seq<string>)
      modifies this`calls
      ensures Enumerates(order, if skip.Some? then targets - {skip.value} else targets)
      ensures calls == old(calls) + SendsTo(order, message)
    {
      var remaining := targets;
      order := [];
      while remaining != {}
        invariant remaining <= targets
        invariant VisitedExcept(order, targets, remaining, skip)
        invariant calls == old(calls) + SendsTo(order, message)
        decreases remaining
      {
        var id :| id in remaining;
        VisitStep(order, targets, remaining, skip, id);
        if Some(id) != skip {
          SendsToSnoc(order, id, message);
          calls := calls + [SendPayload(id, message)];
          order := order + [id];
        }
        remaining := remaining - {id};
      }
    }

    /** broadcastSOS: nothing without peers, else "SOS|nodeId|millis" once to every connected id. */
    method BroadcastSOS(prefs: Prefs, nowMillis: int) returns (ghost order: seq<string>)
      modifies this`calls
      ensures connectedPeers == map[] ==> calls == old(calls) && order == []
      ensures Enumerates(order, connectedPeers.Keys)
      ensures calls == old(calls) + SendsTo(order, SosPacket(LocalEndpointId(prefs), nowMillis))
    {
      if connectedPeers == map[] {
        order := [];
        return;
      }
      order := SendToEachExcept(connectedPeers.Keys, None, SosPacket(LocalEndpointId(prefs), nowMillis));
    }

    /** sendProfilePayload: one send of the wire text to one endpoint. */
    method SendProfilePayload(endpointId: string, profileWire: string)
      modifies this`calls
      ensures calls == old(calls) + [SendPayload(endpointId, profileWire)]
    {
      calls := calls + [SendPayload(endpointId, profileWire)];
    }

    /** broadcastMessage: nothing without peers, else "type|payload" once to every connected id. */
    method BroadcastMessage(messageType: string, payload: string) returns (ghost order: seq<string>)
      modifies this`calls
      ensures connectedPeers == map[] ==> calls == old(calls) && order == []
      ensures Enumerates(order, connectedPeers.Keys)
      ensures calls == old(calls) + SendsTo(order, Packet(messageType, payload))
    {
      if connectedPeers == map[] {
        order := [];
        return;
      }
      order := SendToEachExcept(connectedPeers.Keys, None, Packet(messageType, payload));
    }

    /**
     * onEndpointFound: ignore names without the app prefix and endpoints already connected or
     * pending; otherwise mark the endpoint pending and request a connection under our own name.
     */
    method OnEndpointFound(endpointId: string, endpointName: string, prefs: Prefs)
      requires Valid()
      modifies this`pendingEndpoints, this`calls
      ensures Valid()
      ensures var ignored := !StartsWith(endpointName, PREFIX) || endpointId in connectedPeers ||
                             endpointId in old(pendingEndpoints);
              if ignored then pendingEndpoints == old(pendingEndpoints) && calls == old(calls)
              else pendingEndpoints == old(pendingEndpoints) + {endpointId} &&
                   calls == old(calls) + [RequestConnection(BuildEndpointName(currentRole, prefs), endpointId)]
    {
      if !StartsWith(endpointName, PREFIX) { return; }
      if endpointId in connectedPeers { return; }
      if endpointId in pendingEndpoints { return; }
      pendingEndpoints := pendingEndpoints + {endpointId};
      calls := calls + [RequestConnection(BuildEndpointName(currentRole, prefs), endpointId)];
    }

    /** The failure listener of requestConnection: the endpoint is no longer pending. */
    method OnConnectionRequestFailed(endpointId: string)
      requires Valid()
      modifies this`pendingEndpoints
      ensures Valid()
      ensures pendingEndpoints == old(pendingEndpoints) - {endpointId}
    {
      pendingEndpoints := pendingEndpoints - {endpointId};
    }

    /** onEndpointLost: the endpoint is no longer pending; connections are untouched. */
    method OnEndpointLost(endpointId: string)
      requires Valid()
      modifies this`pendingEndpoints
      ensures Valid()
      ensures pendingEndpoints == old(pendingEndpoints) - {endpointId}
    {
      pendingEndpoints := pendingEndpoints - {endpointId};
    }

    /** onConnectionInitiated: remember the advertised name and accept. */
    method OnConnectionInitiated(endpointId: string, endpointName: string)
      requires Valid()
      modifies this`pendingEndpointNames, this`calls
      ensures Valid()
      ensures pendingEndpointNames == old(pendingEndpointNames)[endpointId := endpointName]
      ensures calls == old(calls) + [AcceptConnection(endpointId)]
    {
      pendingEndpointNames := pendingEndpointNames[endpointId := endpointName];
      calls := calls + [AcceptConnection(endpointId)];
    }

    /**
     * onConnectionResult: the endpoint stops being pending and its captured name is taken. On
     * STATUS_OK it becomes connected under that name ("" if none was captured), the listener hears
     * of the connection and the new count, and our own compact profile (MeshManager.sendProfileTo)
     * is sent to it. The count is the one at the time of the call; the posted runnable reads it
     * later, on the main thread.
     */
    method OnConnectionResult(endpointId: string, statusCode: int, prefs: Prefs)
      requires Valid()
      modifies this`pendingEndpoints, this`pendingEndpointNames, this`connectedPeers, this`posted, this`calls
      ensures Valid()
      ensures pendingEndpoints == old(pendingEndpoints) - {endpointId}
      ensures pendingEndpointNames == old(pendingEndpointNames) - {endpointId}
      ensures var name := if endpointId in old(pendingEndpointNames) then old(pendingEndpointNames)[endpointId] else "";
              if statusCode == STATUS_OK then
                connectedPeers == old(connectedPeers)[endpointId := name] &&
                posted == old(posted) + [PeerConnected(name), PeerCountChanged(|connectedPeers|)] &&
                calls == old(calls) + [SendPayload(endpointId, ToWireFormat(OwnProfile(prefs)))]
              else
                connectedPeers == old(connectedPeers) && posted == old(posted) && calls == old(calls)
    {
      pendingEndpoints := pendingEndpoints - {endpointId};
      var name := if endpointId in pendingEndpointNames then pendingEndpointNames[endpointId] else "";
      pendingEndpointNames := pendingEndpointNames - {endpointId};
      if statusCode == STATUS_OK {
        connectedPeers := connectedPeers[endpointId := name];
        posted := posted + [PeerConnected(name), PeerCountChanged(|connectedPeers|)];
        SendProfilePayload(endpointId, ToWireFormat(OwnProfile(prefs)));
      }
    }

    /** onDisconnected: forget the connection and its captured name; tell the listener. */
    method OnDisconnected(endpointId: string)
      requires Valid()
      modifies this`connectedPeers, this`pendingEndpointNames, this`posted
      ensures Valid()
      ensures connectedPeers == old(connectedPeers) - {endpointId}
      ensures pendingEndpointNames == old(pendingEndpointNames) - {endpointId}
      ensures posted == old(posted) + [PeerDisconnected(endpointId), PeerCountChanged(|connectedPeers|)]
    {
      connectedPeers := connectedPeers - {endpointId};
      pendingEndpointNames := pendingEndpointNames - {endpointId};
      posted := posted + [PeerDisconnected(endpointId), PeerCountChanged(|connectedPeers|)];
    }

    /** handleSos: report the origin, then relay the bytes to every connected id but the sender. */
    method HandleSos(fromId: string, msg: string) returns (ghost order: seq<string>)
      modifies this`posted, this`calls
      ensures posted == old(posted) + [SosReceived(SosOrigin(fromId, msg))]
      ensures Enumerates(order, connectedPeers.Keys - {fromId})
      ensures calls == old(calls) + SendsTo(order, msg)
    {
      posted := posted + [SosReceived(SosOrigin(fromId, msg))];
      order := SendToEachExcept(connectedPeers.Keys, Some(fromId), msg);
    }

    /**
     * handleJsonProfile: a message without '|' is dropped; otherwise the text after the first '|'
     * goes to the registry (returned here) and the message is relayed to every connected id but the
     * sender.
     */
    method HandleJsonProfile(fromId: string, msg: string) returns (json: Option<string>, ghost order: seq<string>)
      modifies this`calls
      ensures json == JsonPayloadOf(msg)
      ensures json.None? ==> calls == old(calls) && order == []
      ensures json.Some? ==> Enumerates(order, connectedPeers.Keys - {fromId})
      ensures calls == old(calls) + SendsTo(order, msg)
    {
      var k := IndexOf(msg, '|');
      if k < 0 {
        json, order := None, [];
        return;
      }
      json := Some(msg[k + 1..]);
      order := SendToEachExcept(connectedPeers.Keys, Some(fromId), msg);
    }

    /** handleProfile: a compact profile that decodes is posted to the listener; others are dropped. */
    method HandleProfile(fromId: string, msg: string)
      modifies this`posted
      ensures var p := FromWireFormat(fromId, msg);
              posted == old(posted) + (if p.Some? then [ProfileReceived(p.value)] else [])
    {
      var profile := FromWireFormat(fromId, msg);
      if profile.None? { return; }
      posted := posted + [ProfileReceived(profile.value)];
    }

    /**
     * onPayloadReceived: anything but a byte payload (None) is ignored; the text goes to the handler
     * Classify picks. Returns the JSON text handed to MeshManager.onJsonProfileReceived, if any.
     * Only the log of sends and of posted events changes.
     */
    method OnPayloadReceived(fromId: string, payload: Option<string>) returns (handoff: Option<string>)
      requires Valid()
      modifies this`posted, this`calls
      ensures Valid()
      ensures handoff == JsonHandoff(payload)
      ensures PayloadHandled(fromId, payload, connectedPeers.Keys, old(posted), old(calls), posted, calls)
    {
      handoff := None;
      if payload.None? { return; }
      var msg := payload.value;
      match Classify(msg)
      case Sos =>
        ghost var order := HandleSos(fromId, msg);
        assert Enumerates(order, connectedPeers.Keys - {fromId});
      case ProfileJson =>
        ghost var order;
        handoff, order := HandleJsonProfile(fromId, msg);
        assert handoff.Some? ==> Enumerates(order, connectedPeers.Keys - {fromId});
      case CompactProfile =>
        HandleProfile(fromId, msg);
      case Ignored =>
    }
  }
}
