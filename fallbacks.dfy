/** The static content the integration layer falls back on, keyed by user role
    (agent/health_agent_integration.py, lines 216-262). A role the tables do not
    know is served the 'Public Health Staff' entry, as `dict.get` with that
    entry as its default does. */
module Fallbacks {
  const Staff := "Public Health Staff"
  const Organizations := "Community Organizations"
  const Residents := "Residents"

  /** The roles both tables are keyed by. */
  const KnownRoles: set<string> := {Staff, Organizations, Residents}

  const StaffInsights: seq<string> := [
    "Monitor chronic disease prevalence trends in your jurisdiction",
    "Assess resource capacity gaps in mental health services",
    "Evaluate community health worker program effectiveness",
    "Review preventive care program coverage and outcomes"
  ]

  const OrganizationInsights: seq<string> := [
    "Identify underserved populations in your service area",
    "Assess transportation barriers to healthcare access",
    "Evaluate food security and nutrition program needs",
    "Review social isolation and community engagement opportunities"
  ]

  const ResidentInsights: seq<string> := [
    "Schedule regular health screenings and checkups",
    "Access community health programs for chronic disease management",
    "Utilize preventive care services available in your area",
    "Connect with local health resources and support groups"
  ]

  const StaffResponses: seq<string> := [
    "I can help you analyze health data and identify intervention opportunities in your area.",
    "Based on current health indicators, I recommend focusing on preventive care programs.",
    "Consider implementing community health worker programs to improve outreach."
  ]

  const OrganizationResponses: seq<string> := [
    "I can help you identify community health needs and available resources.",
    "Consider partnering with local health departments for screening programs.",
    "Community engagement programs can help address social determinants of health."
  ]

  const ResidentResponses: seq<string> := [
    "I can help you find local health resources and preventive care options.",
    "Regular health screenings are important for early detection of health issues.",
    "Community health programs can help you manage chronic conditions."
  ]

  /** `_get_fallback_insights(role)`: four substantial insights for the role, the
      staff list for an unknown role. */
  function FallbackInsights(role: string): (r: seq<string>)
    ensures |r| == 4
    ensures forall i :: 0 <= i < |r| ==> |r[i]| > 20
    ensures role == Organizations ==> r == OrganizationInsights
    ensures role == Residents ==> r == ResidentInsights
    ensures role !in {Organizations, Residents} ==> r == StaffInsights
  {
    var table := map[Staff := StaffInsights,
                     Organizations := OrganizationInsights,
                     Residents := ResidentInsights];
    assert Staff != Organizations && Staff != Residents && Organizations != Residents;
    if role in table then table[role] else table[Staff]
  }

  /** The three canned replies `_get_fallback_response` chooses from. */
  function ResponseChoices(role: string): (r: seq<string>)
    ensures |r| == 3
    ensures forall i :: 0 <= i < |r| ==> |r[i]| > 20
    ensures role == Organizations ==> r == OrganizationResponses
    ensures role == Residents ==> r == ResidentResponses
    ensures role !in {Organizations, Residents} ==> r == StaffResponses
  {
    var table := map[Staff := StaffResponses,
                     Organizations := OrganizationResponses,
                     Residents := ResidentResponses];
    assert Staff != Organizations && Staff != Residents && Organizations != Residents;
    if role in table then table[role] else table[Staff]
  }

  /** `_get_fallback_response(user_input, role)`: `random.choice` over the role's
      three replies, with the random index `pick` given as a parameter. The user
      input does not influence the reply (`FallbackIgnoresInput`). */
  function FallbackResponse(userInput: string, role: string, pick: nat): (r: string)
    requires pick < 3
    ensures r in ResponseChoices(role)
    ensures role !in KnownRoles ==> r in StaffResponses
  {
    ResponseChoices(role)[pick]
  }

  /** The canned reply depends on the role and the random pick only, never on
      what the user asked. */
  lemma FallbackIgnoresInput(u1: string, u2: string, role: string, pick: nat)
    requires pick < 3
    ensures FallbackResponse(u1, role, pick) == FallbackResponse(u2, role, pick)
  {
  }
}
