# RESQNET mesh and triage core, modelled in Dafny

RESQNET is an offline disaster-response app. Phones running it form a mesh over the Nearby
Connections API, and each phone is either a SURVIVOR or a VOLUNTEER. This project models five parts of it:

- **the session** (`ConnectionHelper`, module `Session`, file `session.dfy`):
  - builds and parses the advertised endpoint names `RESQNET|role|name`;
  - tracks pending, named and connected endpoints;
  - dispatches incoming byte payloads by prefix (`SOS`, then `PROFILE_JSON`, then `PROFILE`);
  - floods SOS and JSON-profile messages to every other connected peer.
- **the registry** (`MeshManager`, module `Registry`, file `mesh_manager.dfy`):
  - keeps the latest profile heard from each peer, keyed by endpoint id;
  - answers the role and "excluding self" queries;
  - relays every session event to the registered listeners.
- **the profile record** (`PeerProfile`, module `Profile`, file `peer_profile.dfy`) and its compact
  wire format `PROFILE|role|name|skills|equipment|lat|lng|situation`.
- **the triage engine**:
  - `SurvivorInfo` (module `Survivors`, file `survivor_info.dfy`) holds the injury levels, the age
    groups and the priority score `100 * injuryScore + agePriority`;
  - `TriageCalculator` (module `Triage`, file `triage_calculator.dfy`) does the stable ranking, the
    four-way grouping, the rescue-order text and the recommendations.
- **the triage input** (the part of `TriageActivity` that builds the survivor list, module
  `TriageInput`, file `triage_activity.dfy`):
  - parses the `age:N,injury:N` situation string;
  - clamps the injury code;
  - appends the device's own record.

Supporting modules model the Java library behaviour the core relies on:
- `JavaText` (`java_text.dfy`):
  - `String.split` with limit -1 and with the default limit, which drops trailing empty fields;
  - `indexOf`, `replace` and `trim`;
  - `Integer.parseInt`, with 32-bit bounds;
  - `Integer.toString`;
  - an acceptance test for `Double.parseDouble`.
- `Seqs`: filtering and list removal.
- `StableSort`: `Collections.sort` as a stable insertion sort.
- `Settings`: the SharedPreferences values. Each is `None` when unset, and each read site applies
  its own default, as the Java code does.
- `Wrappers`: `Option`, which stands for Java `null` and for "returns null on error".

How the Java behaviour is represented:
- Null strings are `Option<string>`. `Text` renders them as string concatenation does (`"null"`).
- Calls into the Nearby client are recorded in a ghost log `calls`.
- Events posted to the main thread go into a ghost log `posted`.
- Deliveries to registered listeners go into a ghost log `notified`.
- Hash-map iteration picks any key not yet visited. The send loops are proved to send to each
  target exactly once, in whatever order they visit them.
- Gson's `toJson` and `fromJson`, the clock and the preferences are parameters.

## Model

| member | source | states |
|---|---|---|
| `JavaText.IndexOf` | app/src/main/java/com/example/myapplication/ConnectionHelper.java:326 | Result is -1 exactly when the character is absent; otherwise it is the index of its first occurrence. |
| `JavaText.ReplaceChar` | app/src/main/java/com/example/myapplication/PeerProfile.java:119 | Same length; every `a` becomes `b`; every other character is kept. |
| `JavaText.SplitAll` | app/src/main/java/com/example/myapplication/PeerProfile.java:100 | `split("\\|", -1)`: at least one field; no field contains the separator; joining the fields with it rebuilds the input. |
| `JavaText.DropTrailingEmpty` | app/src/main/java/com/example/myapplication/ConnectionHelper.java:165 | Result is a prefix of the fields; it does not end in an empty field; everything dropped is empty. |
| `JavaText.SplitDefault` | app/src/main/java/com/example/myapplication/ConnectionHelper.java:165 | Default-limit split: a string without the separator comes back whole; fields are separator-free; once the separator occurs, the last field kept is non-empty. |
| `JavaText.SplitAllJoin` | app/src/main/java/com/example/myapplication/PeerProfile.java:100 | Splitting a join of separator-free fields gives back exactly those fields. |
| `JavaText.SplitAllConcat` | app/src/main/java/com/example/myapplication/PeerProfile.java:100-101 | The split of `a|b` is the split of `a` followed by the split of `b`. |
| `JavaText.SplitDefaultPrefix` | app/src/main/java/com/example/myapplication/ConnectionHelper.java:165 | The default split is a prefix of the full split, and equals it when the last field is not empty. |
| `JavaText.ParseInt` | app/src/main/java/com/example/myapplication/TriageActivity.java:165 | `Integer.parseInt`: a value is produced only within the 32-bit range. |
| `JavaText.IntToString` | app/src/main/java/com/example/myapplication/TriageCalculator.java:152 | At least one character; only digits and '-'; therefore no '\|' or ','. |
| `JavaText.ParseIntToString` | app/src/main/java/com/example/myapplication/TriageActivity.java:165 | Parsing the decimal text of any 32-bit integer gives it back. |
| `JavaText.NatToString` | app/src/main/java/com/example/myapplication/TriageCalculator.java:152 | At least one character, all decimal digits. |
| `JavaText.DigitsValueOfNat` | app/src/main/java/com/example/myapplication/TriageActivity.java:165 | Reading back the digits of any natural number gives that number. |
| `JavaText.Trim` | app/src/main/java/com/example/myapplication/PeerProfile.java:108-109 | `String.trim` as `parseDouble` applies it: the result is empty or starts and ends above U+0020. |
| `JavaText.TrimStart` | app/src/main/java/com/example/myapplication/PeerProfile.java:108-109 | A suffix of the input; every character removed is at most U+0020; the result is empty or starts above U+0020. |
| `JavaText.TrimEnd` | app/src/main/java/com/example/myapplication/PeerProfile.java:108-109 | A prefix of the input; every character removed is at most U+0020; the result is empty or ends above U+0020. |
| `JavaText.TrimSlice` | app/src/main/java/com/example/myapplication/PeerProfile.java:108-109 | Trim keeps one contiguous piece of the input and removes only characters up to U+0020 on either side. |
| `JavaText.TrimIdempotent` | app/src/main/java/com/example/myapplication/PeerProfile.java:108-109 | Trimming twice is trimming once. |
| `JavaText.ParsesAsDoubleTrimmed` | app/src/main/java/com/example/myapplication/PeerProfile.java:108-109 | Whether `Double.parseDouble` accepts a token does not depend on the padding up to U+0020 around it. |
| `Profile.Legacy` | app/src/main/java/com/example/myapplication/PeerProfile.java:57-61 | The eight-argument constructor: age 0, injury severity 0, location "", and the given identity, role and situation. |
| `Profile.IsVolunteer` | app/src/main/java/com/example/myapplication/PeerProfile.java:63-69 | A volunteer is never also a survivor. |
| `Profile.IsSurvivor` | app/src/main/java/com/example/myapplication/PeerProfile.java:67-69 | A survivor has a non-null role, and that role is not VOLUNTEER. |
| `Profile.Safe` | app/src/main/java/com/example/myapplication/PeerProfile.java:118-120 | Output never contains '\|'; null gives ""; pipe-free text is unchanged; the length is kept. |
| `Profile.SafeIdempotent` | app/src/main/java/com/example/myapplication/PeerProfile.java:118-120 | Sanitising twice is sanitising once. |
| `Profile.SafeIsLossy` | app/src/main/java/com/example/myapplication/PeerProfile.java:118-120 | "a\|b" and "a/b" go on the wire alike, so the substitution cannot be undone. |
| `Profile.ToWireFormat` | app/src/main/java/com/example/myapplication/PeerProfile.java:72-81 | The wire text starts with "PROFILE\|". |
| `Profile.SplitJoinLeft` | app/src/main/java/com/example/myapplication/PeerProfile.java:72-81 | Splitting a left-to-right `+` chain of pipe-free fields gives the fields back. |
| `Profile.WireIsJoinLeft` | app/src/main/java/com/example/myapplication/PeerProfile.java:72-81 | The wire text is the eight wire fields joined by '\|'. |
| `Profile.WireFieldCount` | app/src/main/java/com/example/myapplication/PeerProfile.java:72-81 | With a pipe-free role and coordinates, the wire text splits into exactly its eight fields. |
| `Profile.FromWireFormat` | app/src/main/java/com/example/myapplication/PeerProfile.java:98-115 | A profile is produced exactly when the full split has at least eight fields, the first is PROFILE and fields 6 and 7 parse as doubles. It then carries the receiving endpoint id, fields 2-8 as role, name, skills, equipment, lat, lng and situation, and no triage data. |
| `Profile.FromWireBadNumber` | app/src/main/java/com/example/myapplication/PeerProfile.java:108-113 | A lat or lng field that `parseDouble` rejects makes the decode return null. |
| `Profile.FromWireIgnoresExtra` | app/src/main/java/com/example/myapplication/PeerProfile.java:100-111 | Fields after the eighth do not change the decoded profile. |
| `Profile.WireRoundTrip` | app/src/main/java/com/example/myapplication/PeerProfile.java:72-115 | Decoding the wire text restores the role, the sanitised text fields and the coordinate tokens; the id is the receiver's and the triage data is dropped. |
| `Profile.ZeroParses` | app/src/main/java/com/example/myapplication/MeshManager.java:139 | The coordinate text "0.0" that is sent is accepted by the decoder. |
| `Profile.OwnProfile` | app/src/main/java/com/example/myapplication/MeshManager.java:132-139 | The compact profile we send: id "self", coordinates "0.0", role defaulting to SURVIVOR, name to "Unknown", and no triage data. |
| `Profile.FullOwnProfile` | app/src/main/java/com/example/myapplication/MeshManager.java:154-165 | The JSON profile we broadcast is the compact one with our self id and the stored age (default 30), injury severity (default 0) and location (default ""). |
| `Profile.OwnProfileDecodes` | app/src/main/java/com/example/myapplication/MeshManager.java:127-142 | A peer decoding our compact profile learns our stored role and our sanitised name and skills. |
| `Session.BuildEndpointName` | app/src/main/java/com/example/myapplication/ConnectionHelper.java:158-161 | The advertised name starts with "RESQNET\|". |
| `Session.ParseRoleFromEndpointName` | app/src/main/java/com/example/myapplication/ConnectionHelper.java:163-167 | SURVIVOR for null or when the default split has fewer than two fields (so also for a name such as "RESQNET\|" whose trailing empty field is dropped); otherwise the second field. |
| `Session.ParseNameFromEndpointName` | app/src/main/java/com/example/myapplication/ConnectionHelper.java:169-173 | "Unknown" for null or when the default split has fewer than three fields; otherwise the third field. |
| `Session.SplitThree` | app/src/main/java/com/example/myapplication/ConnectionHelper.java:158-173 | `a\|b\|c` splits into `[a, b, c]` when no part contains '\|'. |
| `Session.EndpointNameRoundTrip` | app/src/main/java/com/example/myapplication/ConnectionHelper.java:158-173 | Parsing an advertised name gives back its role and name. The exceptions come from trailing empty fields: an empty name reads as "Unknown", and an empty role with an empty name reads as SURVIVOR. |
| `Session.VolunteerNameRecognised` | app/src/main/java/com/example/myapplication/ConnectionHelper.java:175-177 | `isVolunteer` holds of a volunteer's advertised name and fails for a survivor's. |
| `Session.IsVolunteerName` | app/src/main/java/com/example/myapplication/ConnectionHelper.java:175-177 | Only a non-null name containing '\|' can be a volunteer's. |
| `Session.Classify` | app/src/main/java/com/example/myapplication/ConnectionHelper.java:282-287 | SOS exactly for an "SOS" prefix; PROFILE_JSON exactly for that prefix when not SOS; PROFILE exactly for that prefix when neither of the others holds. |
| `Session.ProfileJsonShadowsProfile` | app/src/main/java/com/example/myapplication/ConnectionHelper.java:284-287 | Every PROFILE_JSON message also starts with PROFILE, yet it goes to the JSON handler. |
| `Session.WireTextIsCompactProfile` | app/src/main/java/com/example/myapplication/ConnectionHelper.java:282-287 | Any profile's wire text reaches the compact decoder. |
| `Session.SosPacket` | app/src/main/java/com/example/myapplication/ConnectionHelper.java:116-117 | The packet starts with "SOS\|". |
| `Session.SosOrigin` | app/src/main/java/com/example/myapplication/ConnectionHelper.java:298-299 | The second field when the default split has at least two; otherwise the sender's id (also for "SOS\|", whose trailing empty field is dropped). |
| `Session.SosPacketOrigin` | app/src/main/java/com/example/myapplication/ConnectionHelper.java:111-123 | A relayed SOS is classified as SOS and reports the node that raised it, not the neighbour that forwarded it. |
| `Session.JsonPayloadOf` | app/src/main/java/com/example/myapplication/ConnectionHelper.java:326-328 | None exactly when there is no '\|'; otherwise the text after the first '\|'. |
| `Session.Packet` | app/src/main/java/com/example/myapplication/ConnectionHelper.java:146 | The packet starts with the message type and '\|', and everything after that is the payload. |
| `Session.JsonPacketRoundTrip` | app/src/main/java/com/example/myapplication/ConnectionHelper.java:323-343 | The receiver classifies a "PROFILE_JSON\|json" packet as JSON and extracts exactly `json`. |
| `Session.SendsToSnoc` | app/src/main/java/com/example/myapplication/ConnectionHelper.java:119-121 | Adding one more target adds one send to it, at the end. |
| `Session.VisitStep` | app/src/main/java/com/example/myapplication/ConnectionHelper.java:301-306 | One iteration of the relay loop keeps the visited ids, other than the skipped sender, exactly once each. |
| `Session.SendsToExactlyOnce` | app/src/main/java/com/example/myapplication/ConnectionHelper.java:119-121 | A batch has one send per enumerated id, in order, each carrying the message. |
| `Session.ConnectionHelper.constructor` | app/src/main/java/com/example/myapplication/ConnectionHelper.java:61-70 | No endpoints, the initial role, not running, nothing issued or posted. |
| `Session.ConnectionHelper.GetPeerCount` | app/src/main/java/com/example/myapplication/ConnectionHelper.java:99-101 | Zero exactly when no endpoint is connected. |
| `Session.ConnectionHelper.StartMesh` | app/src/main/java/com/example/myapplication/ConnectionHelper.java:74-79 | Running; starts advertising under the current role's name, then starts discovery. |
| `Session.ConnectionHelper.StopMesh` | app/src/main/java/com/example/myapplication/ConnectionHelper.java:81-89 | Stopped; the three stop calls are issued; all three endpoint tables are emptied. |
| `Session.ConnectionHelper.UpdateRoleAndRestart` | app/src/main/java/com/example/myapplication/ConnectionHelper.java:91-97 | The new role is set; a running session stops advertising and re-advertises under the new name. |
| `Session.ConnectionHelper.SendToEachExcept` | app/src/main/java/com/example/myapplication/ConnectionHelper.java:302-306 | Every target other than the skipped one gets the message exactly once, and nobody else gets it. |
| `Session.ConnectionHelper.BroadcastSOS` | app/src/main/java/com/example/myapplication/ConnectionHelper.java:111-123 | Nothing is sent without peers; otherwise "SOS\|nodeId\|millis" goes once to every connected id. |
| `Session.ConnectionHelper.SendProfilePayload` | app/src/main/java/com/example/myapplication/ConnectionHelper.java:129-135 | Exactly one send of the given text to the given endpoint. |
| `Session.ConnectionHelper.BroadcastMessage` | app/src/main/java/com/example/myapplication/ConnectionHelper.java:141-154 | Nothing is sent without peers; otherwise "type\|payload" goes once to every connected id. |
| `Session.ConnectionHelper.OnEndpointFound` | app/src/main/java/com/example/myapplication/ConnectionHelper.java:207-215 | A foreign name, or an already connected or pending id, changes nothing. Otherwise the id becomes pending and a connection is requested under our name. |
| `Session.ConnectionHelper.OnConnectionRequestFailed` | app/src/main/java/com/example/myapplication/ConnectionHelper.java:216-219 | The id is no longer pending. |
| `Session.ConnectionHelper.OnEndpointLost` | app/src/main/java/com/example/myapplication/ConnectionHelper.java:222-224 | The id is no longer pending; connections are untouched. |
| `Session.ConnectionHelper.OnConnectionInitiated` | app/src/main/java/com/example/myapplication/ConnectionHelper.java:230-234 | The advertised name is recorded and the connection is accepted. |
| `Session.ConnectionHelper.OnConnectionResult` | app/src/main/java/com/example/myapplication/ConnectionHelper.java:237-259 | The id stops being pending and its captured name is removed. On success: the id is connected under that name ("" if none was captured); the connect event and the count are posted; our compact profile is sent. Otherwise no connection, post or send. |
| `Session.ConnectionHelper.OnDisconnected` | app/src/main/java/com/example/myapplication/ConnectionHelper.java:262-269 | The connection and its name are forgotten; the disconnect event and the new count are posted. |
| `Session.ConnectionHelper.HandleSos` | app/src/main/java/com/example/myapplication/ConnectionHelper.java:297-307 | The SOS origin is posted; the raw message is relayed once to every connected id except the sender. |
| `Session.ConnectionHelper.HandleJsonProfile` | app/src/main/java/com/example/myapplication/ConnectionHelper.java:323-343 | A message without '\|' is dropped. Otherwise the text after the first '\|' is handed on for the registry, and the message is relayed once to every other connected id. |
| `Session.ConnectionHelper.HandleProfile` | app/src/main/java/com/example/myapplication/ConnectionHelper.java:309-317 | A profile that decodes is posted; one that does not changes nothing. |
| `Session.ConnectionHelper.OnPayloadReceived` | app/src/main/java/com/example/myapplication/ConnectionHelper.java:274-288 | Non-byte payloads and unrecognised prefixes change nothing. A compact profile posts its decode; an SOS posts its origin; SOS and well-formed PROFILE_JSON messages are relayed once to every connected id but the sender; the PROFILE_JSON text is handed on. |
| `Registry.FilterDistinctIds` | app/src/main/java/com/example/myapplication/MeshManager.java:90-105 | Filtering keeps endpoint ids distinct. |
| `Registry.FilterListsExactly` | app/src/main/java/com/example/myapplication/MeshManager.java:90-105 | Filtering a full listing of the store lists exactly the stored profiles the filter keeps. |
| `Registry.SurvivorsExcludingSelfIsFiltered` | app/src/main/java/com/example/myapplication/MeshManager.java:244-254 | The survivors-without-self list is the survivor list with the self entry dropped. |
| `Registry.RoleQueriesDisjoint` | app/src/main/java/com/example/myapplication/MeshManager.java:90-105 | No profile is listed both as a volunteer and as a survivor. |
| `Registry.AcceptJson` | app/src/main/java/com/example/myapplication/MeshManager.java:192-196 | A decoded profile is accepted exactly when it decodes, has an endpoint id, and that id is not ours. |
| `Registry.JsonProfileDelivered` | app/src/main/java/com/example/myapplication/MeshManager.java:149-196 | If the JSON encoding round-trips, a broadcast profile reaches every receiver's registry except one sharing the sender's self id. |
| `Registry.MeshManager.constructor` | app/src/main/java/com/example/myapplication/MeshManager.java:52 | No session, no profiles, no listeners. |
| `Registry.MeshManager.Init` | app/src/main/java/com/example/myapplication/MeshManager.java:60-68 | A fresh idle session is created once; a second call changes nothing. |
| `Registry.MeshManager.GetPeerCount` | app/src/main/java/com/example/myapplication/MeshManager.java:107-109 | 0 before init; otherwise the session's connected count. |
| `Registry.MeshManager.GetSelfId` | app/src/main/java/com/example/myapplication/MeshManager.java:115-117 | "self" before init; otherwise the stored node id, defaulting to "UNKNOWN". |
| `Settings.LocalEndpointId` | app/src/main/java/com/example/myapplication/ConnectionHelper.java:107-109 | The stored stable node id when there is one; otherwise "UNKNOWN". |
| `Registry.MeshManager.StartMesh` | app/src/main/java/com/example/myapplication/MeshManager.java:70-72 | Once initialised, the session runs and issues start-advertising under its role, then start-discovery; its endpoint tables, role and posted events stay as they were. |
| `Registry.MeshManager.StopMesh` | app/src/main/java/com/example/myapplication/MeshManager.java:74-76 | Once initialised, the session stops, issues the three stop calls and forgets every endpoint; its role and posted events stay as they were. |
| `Registry.MeshManager.UpdateRole` | app/src/main/java/com/example/myapplication/MeshManager.java:78-80 | Once initialised, the session takes the new role and, when running, stops advertising and re-advertises under the new name; its tables, running state and posts stay as they were. |
| `Registry.MeshManager.Notify` | app/src/main/java/com/example/myapplication/MeshManager.java:285-289 | One delivery of the event to each registered listener, in list order. |
| `Registry.MeshManager.GetPeerProfiles` | app/src/main/java/com/example/myapplication/MeshManager.java:85-87 | Every stored profile exactly once; nothing else. |
| `Registry.MeshManager.GetVolunteers` | app/src/main/java/com/example/myapplication/MeshManager.java:90-96 | Exactly the stored VOLUNTEER profiles, each once. |
| `Registry.MeshManager.GetSurvivors` | app/src/main/java/com/example/myapplication/MeshManager.java:99-105 | Exactly the stored SURVIVOR profiles, each once. |
| `Registry.MeshManager.GetSurvivorsExcludingSelf` | app/src/main/java/com/example/myapplication/MeshManager.java:244-254 | Exactly the stored SURVIVOR profiles whose id is not ours, each once. |
| `Registry.MeshManager.GetPeerProfilesExcludingSelf` | app/src/main/java/com/example/myapplication/MeshManager.java:258-263 | Exactly the stored profiles whose id is not ours, each once. |
| `Registry.MeshManager.OnJsonProfileReceived` | app/src/main/java/com/example/myapplication/MeshManager.java:192-239 | An accepted profile overwrites the entry under its id and is delivered to every listener. A rejected one changes nothing. |
| `Registry.MeshManager.OnProfileReceived` | app/src/main/java/com/example/myapplication/MeshManager.java:314-344 | The profile overwrites the entry under its id and is delivered to every listener. |
| `Registry.MeshManager.OnPeerDisconnected` | app/src/main/java/com/example/myapplication/MeshManager.java:299-304 | The peer's profile is forgotten and the event is delivered to every listener. |
| `Registry.MeshManager.Deliver` | app/src/main/java/com/example/myapplication/MeshManager.java:281-345 | Profile events store the profile, disconnect events remove one, and every event reaches every listener. |
| `Registry.MeshManager.AddListener` | app/src/main/java/com/example/myapplication/MeshManager.java:271-273 | The listener is registered afterwards, and never twice. |
| `Registry.MeshManager.RemoveListener` | app/src/main/java/com/example/myapplication/MeshManager.java:275-277 | The listener is no longer registered; the others keep their order. |
| `Registry.MeshManager.SendProfileTo` | app/src/main/java/com/example/myapplication/MeshManager.java:127-142 | Once initialised, exactly one send of our compact profile, built from the preferences with their defaults; the session's tables, role, running state and posts are unchanged. |
| `Registry.MeshManager.BroadcastSOS` | app/src/main/java/com/example/myapplication/MeshManager.java:119-121 | Once initialised, the SOS packet goes once to every peer connected at the call; the session's tables, role, running state and posts are unchanged. |
| `Registry.MeshManager.BroadcastProfileAsJson` | app/src/main/java/com/example/myapplication/MeshManager.java:149-185 | Once initialised, our full profile, including the triage fields and our self id, goes as PROFILE_JSON once to every peer connected at the call; the session's tables, role, running state and posts are unchanged. |
| `Registry.MeshManager.OnPayloadReceived` | app/src/main/java/com/example/myapplication/ConnectionHelper.java:274-343 | The session's posts and relays are exactly those of its own payload dispatch, and its tables are unchanged; a PROFILE_JSON payload's JSON is then stored and delivered when accepted, and no other payload changes the registry. |
| `Survivors.InjuryLevel.Code` | app/src/main/java/com/example/myapplication/SurvivorInfo.java:17-20 | Codes lie in 0..3. |
| `Survivors.InjuryLevel.Label` | app/src/main/java/com/example/myapplication/SurvivorInfo.java:17-20 | Every level has a non-empty label; it is what getTriageCategoryLabel returns. |
| `Survivors.InjuryLevel.Color` | app/src/main/java/com/example/myapplication/SurvivorInfo.java:17-20 | Every colour is opaque (alpha 0xFF); it is what getTriageCategoryColor returns. |
| `Survivors.LevelLabelsAndColorsDiffer` | app/src/main/java/com/example/myapplication/TriageCalculator.java:109-118 | Two levels with the same label, or the same colour, are the same level. |
| `Survivors.LevelOfCode` | app/src/main/java/com/example/myapplication/TriageActivity.java:166 | `values()[c]` exists exactly for c in 0..3 and has code c. |
| `Survivors.LevelOfCodeRoundTrip` | app/src/main/java/com/example/myapplication/SurvivorInfo.java:17-20 | Looking up a level's code gives the level back. |
| `Survivors.AgeGroup.TriagePriority` | app/src/main/java/com/example/myapplication/SurvivorInfo.java:34-37 | The priority lies in 1..3 and is 1 exactly for children and the elderly. |
| `Survivors.FromAge` | app/src/main/java/com/example/myapplication/SurvivorInfo.java:49-54 | Each group is exactly its age band: at most 12 (negative ages included), 13-17, 18-64, 65 and over. |
| `Survivors.FromAgeMonotone` | app/src/main/java/com/example/myapplication/SurvivorInfo.java:49-54 | An older person is never in an earlier group. |
| `Survivors.InjuryScore` | app/src/main/java/com/example/myapplication/SurvivorInfo.java:89-98 | The injury score is 3 minus the injury code. |
| `Survivors.TriagePriority` | app/src/main/java/com/example/myapplication/SurvivorInfo.java:86-105 | The score lies in [1, 303]; its hundreds are 3 minus the injury code; its remainder is the age priority. |
| `Survivors.InjuryDominates` | app/src/main/java/com/example/myapplication/SurvivorInfo.java:86-105 | A strictly more severe injury always ranks strictly earlier, whatever the ages. |
| `Survivors.SameInjuryAgeDecides` | app/src/main/java/com/example/myapplication/SurvivorInfo.java:86-105 | At equal injury, the age priority decides the order. |
| `StableSort.SortBySorted` | app/src/main/java/com/example/myapplication/TriageCalculator.java:31-36 | The sorted list is ordered by the key. |
| `StableSort.SortByPermutes` | app/src/main/java/com/example/myapplication/TriageCalculator.java:30-36 | The sorted list is a permutation of the input. |
| `StableSort.SortByStable` | app/src/main/java/com/example/myapplication/TriageCalculator.java:31-36 | Elements with equal keys keep their input order. |
| `StableSort.SortByFirstIsLeast` | app/src/main/java/com/example/myapplication/TriageCalculator.java:31-36 | The first element has the least key of the input. |
| `StableSort.InsertFilter` | app/src/main/java/com/example/myapplication/TriageCalculator.java:31-36 | Inserting an element puts it in front of the elements of its own key and touches no other key. |
| `Triage.CalculateTriage` | app/src/main/java/com/example/myapplication/TriageCalculator.java:29-38 | The result is ordered by triage score, is a permutation of the input, and keeps survivors with equal scores in input order. |
| `Triage.LevelsPartition` | app/src/main/java/com/example/myapplication/TriageCalculator.java:55-70 | Every survivor falls into exactly one of the four level lists. |
| `Triage.CategoryProperties` | app/src/main/java/com/example/myapplication/TriageCalculator.java:72-96 | Each group holds only its level; it is ordered by age priority; it is a permutation of that level's survivors; it is stable. |
| `Triage.SplitByLevel` | app/src/main/java/com/example/myapplication/TriageCalculator.java:47-70 | Each of the four lists is exactly that level's survivors, in input order. |
| `Triage.CategoriesPermute` | app/src/main/java/com/example/myapplication/TriageCalculator.java:43-104 | Together, the four groups are a permutation of the input. |
| `Triage.GroupByTriageCategory` | app/src/main/java/com/example/myapplication/TriageCalculator.java:43-104 | Four groups in the order IMMEDIATE, URGENT, DELAYED, MINOR. Each holds exactly its level's survivors, sorted by age priority, and together they are a permutation of the input. |
| `Triage.ChildBeforeAdult` | app/src/main/java/com/example/myapplication/TriageCalculator.java:72-78 | Within a group ordered by age priority, a child comes before an adult. |
| `Triage.NumberedLinesSnoc` | app/src/main/java/com/example/myapplication/TriageCalculator.java:151-157 | One more survivor adds one more line, numbered after the others. |
| `Triage.RescueLine` | app/src/main/java/com/example/myapplication/TriageCalculator.java:152-155 | A rescue line opens with its number and ". " and ends with a line break. |
| `Triage.RenderRescueSequence` | app/src/main/java/com/example/myapplication/TriageCalculator.java:147-159 | The header, then one numbered line per survivor starting at 1. |
| `Triage.GetRescueSequence` | app/src/main/java/com/example/myapplication/TriageCalculator.java:145-160 | The header, then the lines for the survivors in triage order. |
| `Triage.RescueLineIsOneLine` | app/src/main/java/com/example/myapplication/TriageCalculator.java:152-155 | A survivor's line holds exactly one line break. |
| `Triage.NumberedLinesCount` | app/src/main/java/com/example/myapplication/TriageCalculator.java:151-157 | The rescue order has exactly one line per survivor. |
| `Triage.RescueSequenceOpensWithMostUrgent` | app/src/main/java/com/example/myapplication/TriageCalculator.java:145-157 | The first line names, as number 1, a survivor with the lowest score. |
| `Triage.TriageRecommendation` | app/src/main/java/com/example/myapplication/TriageCalculator.java:123-139 | The recommendation opens with its level's headline. |
| `Triage.Symbol` | app/src/main/java/com/example/myapplication/TriageCalculator.java:126-135 | Each level's mark is a non-empty pictograph at or above U+2600. |
| `Triage.Advice` | app/src/main/java/com/example/myapplication/TriageCalculator.java:126-135 | Each level's advice ends with a space, before the "Age: " that follows. |
| `Triage.Headline` | app/src/main/java/com/example/myapplication/TriageCalculator.java:126-135 | A headline opens with its level's symbol and a space. |
| `Triage.HeadlineMarksDiffer` | app/src/main/java/com/example/myapplication/TriageCalculator.java:126-135 | The four headlines open with four different symbols. |
| `Triage.RecommendationDeterminesLevel` | app/src/main/java/com/example/myapplication/TriageCalculator.java:123-139 | A recommendation opens with a level's headline exactly when that level is the survivor's. |
| `TriageInput.InjuryOfCode` | app/src/main/java/com/example/myapplication/TriageActivity.java:166 | `values()[min(code,3)]` exists exactly for non-negative codes; 3 and above give CRITICAL; 0..3 give their own level. |
| `TriageInput.ApplyPart` | app/src/main/java/com/example/myapplication/TriageActivity.java:163-169 | A part fails exactly when it is bad. "injury:" sets only the level and "age:" sets only the age. Any other part changes nothing. |
| `TriageInput.FoldPrefixFails` | app/src/main/java/com/example/myapplication/TriageActivity.java:163-169 | Once a part has thrown, the whole conversion returns null. |
| `TriageInput.FoldFailsIff` | app/src/main/java/com/example/myapplication/TriageActivity.java:163-169 | The conversion fails exactly when some part is an "injury:" part with a bad number or negative code, or an "age:" part with a bad number. |
| `TriageInput.LastTagged` | app/src/main/java/com/example/myapplication/TriageActivity.java:163-169 | The result is the index of the last part with the tag, or -1 when no part carries it. |
| `TriageInput.LastInjuryWins` | app/src/main/java/com/example/myapplication/TriageActivity.java:164-166 | The level comes from the last "injury:" part, or stays NONE when there is none. |
| `TriageInput.LastAgeWins` | app/src/main/java/com/example/myapplication/TriageActivity.java:167-168 | The age comes from the last "age:" part, or stays 30 when there is none. |
| `TriageInput.ParseSituation` | app/src/main/java/com/example/myapplication/TriageActivity.java:157-170 | A null or empty situation gives injury NONE and age 30. |
| `TriageInput.InjuryPartClamped` | app/src/main/java/com/example/myapplication/TriageActivity.java:162-169 | "injury:N" alone gives `values()[min(N,3)]`, so N of 3 or more gives CRITICAL; a negative N gives null. |
| `TriageInput.ConvertPeer` | app/src/main/java/com/example/myapplication/TriageActivity.java:173-186 | A converted peer keeps the peer's id, name and coordinates. Its location is "", its people count 1, its description the situation, and its level and age are the parsed ones. It is null exactly when the parse fails. |
| `TriageInput.CreateSurvivorInfoFromPeerProfile` | app/src/main/java/com/example/myapplication/TriageActivity.java:153-187 | The loop computes the conversion the lemmas above describe, returning null at the first bad part. |
| `TriageInput.CreateSelfSurvivorInfo` | app/src/main/java/com/example/myapplication/TriageActivity.java:189-214 | Null exactly for a negative stored injury code. Otherwise the id is "self", the level is the clamped code's, and the age and people count are the stored ones or 30 and 1. |
| `TriageInput.ConvertAllFromMesh` | app/src/main/java/com/example/myapplication/TriageActivity.java:133-138 | Every listed record is the conversion of some mesh survivor. |
| `TriageInput.ConvertAllTotal` | app/src/main/java/com/example/myapplication/TriageActivity.java:133-138 | When no conversion fails, the list is the mesh survivors converted one for one, in order. |
| `TriageInput.ConvertAll` | app/src/main/java/com/example/myapplication/TriageActivity.java:133-139 | No more records than mesh survivors: a failed conversion is dropped. |
| `TriageInput.SurvivorList` | app/src/main/java/com/example/myapplication/TriageActivity.java:130-151 | The converted mesh survivors come first, and at most one record follows them. |
| `TriageInput.SelfListedIff` | app/src/main/java/com/example/myapplication/TriageActivity.java:141-147 | The converted mesh survivors come first. Self is added, last, exactly when the stored role is SURVIVOR and its injury code is not negative. |
| `TriageInput.BuildSurvivorList` | app/src/main/java/com/example/myapplication/TriageActivity.java:130-151 | The loop and the append compute the survivor list the lemmas above describe. |

## Left out

- The Nearby Connections client is foreign code, so its calls are only logged. Nothing models its
  asynchronous callbacks, threads or delivery order. The failure listener of `requestConnection` is
  a separate operation.
- `mainHandler.post`, which runs later on the main thread, is modelled as an event appended to the
  `posted` log. `MeshManager.Deliver` is where such an event later arrives.
- OnConnectionResult posts the peer count as it is at the time of the call. Java reads
  `connectedPeers.size()` later, inside the posted runnable, and could see a different count.
- MeshManager.OnPayloadReceived performs the session's relay before the registry update; Java stores
  the JSON profile first and then relays. Neither step reads what the other writes.
- HandleSos relays the message as text; Java relays the received bytes (`raw`). The two differ only
  for byte sequences that are not valid UTF-8, which are not modelled. HandleJsonProfile re-encodes
  the decoded text in Java too, so it is exact.
- Gson's `toJson` and `fromJson` are function parameters. The JSON encoding is not modelled, so
  the delivery lemma assumes the encoding round-trips.
- A peer may never send a profile whose endpoint id is null. That profile would throw inside
  `ConcurrentHashMap.put`, so OnProfileReceived and Deliver require an id, which every decoded
  compact profile has.
- Doubles are the text tokens `Double.toString` prints. ParsesAsDouble accepts decimal forms and
  NaN/Infinity; hexadecimal floating literals are not modelled.
- JavaText.ParseInt accepts ASCII digits only; Java also accepts other Unicode decimal digits.
- Strings are sequences of Unicode scalar values, not UTF-16 units. For example, the emoji opening
  each headline counts as one character.
- Timestamps (`System.currentTimeMillis`, the `timestamp` fields) are left out. The SOS send takes
  the clock reading as a parameter; nothing else compares timestamps.
- Hash-map iteration order is left open: each loop picks any key not yet visited.
- Collections.sort is modelled by a stable insertion sort. Any stable sort must give the same
  result, because a sorted, stable permutation is unique.
- `MainActivity.ROLE_SURVIVOR` and `ROLE_VOLUNTEER` are not defined in the source files modelled
  here. They are assumed to be "SURVIVOR" and "VOLUNTEER", the literals PeerProfile compares against.
- Where a class header comment and the code disagree, the code is followed:
  - the compact wire format carries eight fields and no device id;
  - a received profile overwrites the stored one, whatever the timestamps.
- A null injury level in a SurvivorInfo is not modelled; every conversion produces a level.
- SOS messages are relayed with no de-duplication, so a cycle of peers relays forever; the model
  describes one relay step.
- The logging, UI building and activity lifecycle of TriageActivity and the other Android classes
  are left out.
- `toJsonString`, `fromJsonString` and `toString` on PeerProfile and SurvivorInfo are left out,
  because they are Gson or logging text.
