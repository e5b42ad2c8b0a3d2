/**
 * The SharedPreferences values the core reads. Each is None when the key was never stored; every
 * read site applies its own default, as the Java code passes a different default at each call.
 */
module Settings {
  import opened Wrappers

  const ROLE_SURVIVOR := "SURVIVOR"
  const ROLE_VOLUNTEER := "VOLUNTEER"

  datatype Prefs = Prefs(
    userRole: Option<string>,            // KEY_USER_ROLE
    userName: Option<string>,            // KEY_USER_NAME
    stableNodeId: Option<string>,        // "stable_node_id"
    medicalSkills: Option<string>,       // "vol_medical_skills"
    equipment: Option<string>,           // "vol_equipment"
    survivorDescription: Option<string>, // "survivor_description"
    userAge: Option<int>,                // "user_age"
    userInjurySeverity: Option<int>,     // "user_injury_severity"
    userLocation: Option<string>,        // "user_location"
    survivorLocation: Option<string>,    // "survivor_location"
    survivorInjury: Option<int>,         // "survivor_injury_level"
    survivorAge: Option<int>,            // "survivor_age"
    survivorPeople: Option<int>          // "survivor_people_count"
  )

  /** ConnectionHelper.getLocalEndpointId: the stable node id, "UNKNOWN" when none is stored. */
  function LocalEndpointId(prefs: Prefs): (r: string)
    ensures prefs.stableNodeId.Some? ==> r == prefs.stableNodeId.value
    ensures prefs.stableNodeId.None? ==> r == "UNKNOWN"
  {
    prefs.stableNodeId.GetOr("UNKNOWN")
  }
}
