/** The four public operations of `HealthAgentIntegration`
    (agent/health_agent_integration.py, lines 24-214). Each agent is a function
    parameter: a blocking agent maps a prompt to a reply or to the text of the
    exception it raised, and a streaming agent maps a prompt to the chunks it
    produced and how the stream ended. The timestamp is a parameter. */
module HealthAgentIntegration {
  import opened Wrappers
  import opened Replies
  import opened PyText
  import opened InsightParser
  import opened Fallbacks

  const RoleLabel := "User Role: "
  const LocationLabel := "\nLocation: "
  const Gap := "\n\n"
  const ChatInstruction := "\n\nPlease provide a helpful, specific response tailored to this user's role and location. Include actionable insights and recommendations."

  /** Lines 38-43: the contextualised chat prompt. */
  function ChatPrompt(userInput: string, role: string, location: string): (p: string)
    ensures RoleLabel + role + LocationLabel + location <= p
  {
    RoleLabel + (role + (LocationLabel + (location + (Gap + (userInput + ChatInstruction)))))
  }

  /** The chat prompt keeps its three inputs apart: for roles and locations
      without a newline, two equal prompts were built from the same role, the
      same location and the same user input. */
  lemma ChatPromptInjective(u1: string, r1: string, l1: string, u2: string, r2: string, l2: string)
    requires '\n' !in r1 && '\n' !in l1 && '\n' !in r2 && '\n' !in l2
    requires ChatPrompt(u1, r1, l1) == ChatPrompt(u2, r2, l2)
    ensures u1 == u2 && r1 == r2 && l1 == l2
  {
    var y1, y2 := Gap + (u1 + ChatInstruction), Gap + (u2 + ChatInstruction);
    var x1, x2 := LocationLabel + (l1 + y1), LocationLabel + (l2 + y2);
    var p1, p2 := RoleLabel + (r1 + x1), RoleLabel + (r2 + x2);
    assert r1 + x1 == p1[|RoleLabel|..] && r2 + x2 == p2[|RoleLabel|..];
    NewlineSplitUnique(r1, x1, r2, x2);
    assert l1 + y1 == x1[|LocationLabel|..] && l2 + y2 == x2[|LocationLabel|..];
    NewlineSplitUnique(l1, y1, l2, y2);
    assert u1 + ChatInstruction == y1[|Gap|..] && u2 + ChatInstruction == y2[|Gap|..];
    assert u1 == (u1 + ChatInstruction)[..|u1|] && u2 == (u2 + ChatInstruction)[..|u2|];
  }

  const FallbackLead := "I'm experiencing connectivity issues with the health intelligence system. However, I can tell you that for "
  const FallbackTail := ", I can help answer questions about health data and provide recommendations. Please try asking your question in a different way or check back later."

  /** Line 61: the message a failed chat returns; it names the caller's role and
      location right after its fixed opening. */
  function ChatFallback(role: string, location: string): (m: string)
    ensures FallbackLead + role + " in " + location <= m
  {
    FallbackLead + (role + (" in " + (location + FallbackTail)))
  }

  /** `chat_with_health_agent` (lines 24-61): the agent's reply is read through
      `ExtractText`, and any `Exception` the call raises yields `ChatFallback`. */
  function ChatWithHealthAgent(userInput: string, role: string, location: string,
                               healthAgent: string -> CallOutcome): (answer: string)
    ensures healthAgent(ChatPrompt(userInput, role, location)).Replied? ==>
      answer == ExtractText(healthAgent(ChatPrompt(userInput, role, location)).reply)
    ensures healthAgent(ChatPrompt(userInput, role, location)).Raised? ==>
      answer == ChatFallback(role, location)
  {
    match healthAgent(ChatPrompt(userInput, role, location))
    case Replied(reply) => ExtractText(reply)
    case Raised(_) => ChatFallback(role, location)
  }

  /** Whatever the agent does, a failed chat names the caller's role and location
      and does not depend on what was asked. */
  lemma ChatFailureIgnoresQuestion(u1: string, u2: string, role: string, location: string,
                                   agent: string -> CallOutcome)
    requires agent(ChatPrompt(u1, role, location)).Raised?
    requires agent(ChatPrompt(u2, role, location)).Raised?
    ensures ChatWithHealthAgent(u1, role, location, agent) == ChatWithHealthAgent(u2, role, location, agent)
    ensures FallbackLead + role <= ChatWithHealthAgent(u1, role, location, agent)
  {
  }

  const InsightsLead := "Generate 4 specific, actionable health insights for "
  const InsightsRoleLabel := " tailored for "
  const InsightsBody := ".\n\nFocus on:\n1. Key health indicators and current trends\n2. Resource gaps and opportunities\n3. Actionable recommendations\n4. Risk factors and mitigation strategies\n\nFormat each insight as a brief, clear statement starting with an action word or key finding. Each insight should be on a new line."

  /** Lines 75-83: the insights prompt names the location right after its fixed
      opening. */
  function InsightsPrompt(location: string, role: string): (p: string)
    ensures InsightsLead + location + InsightsRoleLabel <= p
  {
    InsightsLead + (location + (InsightsRoleLabel + (role + InsightsBody)))
  }

  /** `get_health_insights` (lines 63-113): the agent's reply is parsed line by
      line; the first four survivors are returned, or the role's fallback list when
      none survive or the agent raised. The result always holds one to four
      insights longer than 20 characters, and parsed insights are trimmed. */
  method GetHealthInsights(location: string, role: string, insightsAgent: string -> CallOutcome)
    returns (insights: seq<string>)
    ensures insightsAgent(InsightsPrompt(location, role)).Raised? ==>
      insights == FallbackInsights(role)
    ensures insightsAgent(InsightsPrompt(location, role)).Replied? ==>
      var parsed := Survivors(Lines(ExtractText(insightsAgent(InsightsPrompt(location, role)).reply)));
      (parsed == [] ==> insights == FallbackInsights(role)) &&
      (parsed != [] ==> insights == FirstInsights(parsed) &&
                        forall i :: 0 <= i < |insights| ==> IsTrimmed(insights[i]))
    ensures 1 <= |insights| <= MaxInsights
    ensures forall i :: 0 <= i < |insights| ==> |insights[i]| > MinLength
  {
    var outcome := insightsAgent(InsightsPrompt(location, role));
    match outcome {
      case Raised(_) =>
        insights := FallbackInsights(role);
      case Replied(reply) =>
        var text := ExtractText(reply);
        var parsed := ParseInsights(text);
        if parsed != [] {
          insights := FirstInsights(parsed);
          FirstInsightsKeepBounds(parsed);
        } else {
          insights := FallbackInsights(role);
        }
    }
  }

  /** The first four of a non-empty list of trimmed, long insights are between
      one and four trimmed, long insights. */
  lemma FirstInsightsKeepBounds(parsed: seq<string>)
    requires parsed != []
    requires forall i :: 0 <= i < |parsed| ==> IsTrimmed(parsed[i]) && |parsed[i]| > MinLength
    ensures 1 <= |FirstInsights(parsed)| <= MaxInsights
    ensures forall i :: 0 <= i < |FirstInsights(parsed)| ==>
      IsTrimmed(FirstInsights(parsed)[i]) && |FirstInsights(parsed)[i]| > MinLength
  {
    var r := FirstInsights(parsed);
    assert forall i :: 0 <= i < |r| ==> r[i] == parsed[i];
  }

  /** Lines 139-147 (and 190-198): append each chunk's text to the accumulated
      text in stream order. A `content` or `text` attribute that is not a string
      makes `+=` raise, which ends the loop; so does an exception from the stream
      itself once its chunks are consumed. */
  method CollectStream(st: Stream) returns (r: Result<string>)
    ensures r == StreamResult(st)
  {
    var chunks := st.chunks;
    var text := "";
    for i := 0 to |chunks|
      invariant Accumulated(chunks[..i]) == Ok(text)
    {
      var chunk := chunks[i];
      assert chunks[..i + 1][..i] == chunks[..i];
      if chunk.content.Some? {
        match chunk.content.value {
          case Str(s) => text := text + s;
          case Other(t, _) =>
            ErrorEndsAccumulation(chunks, i + 1);
            return Err(ConcatError(t));
        }
      } else if chunk.text.Some? {
        match chunk.text.value {
          case Str(s) => text := text + s;
          case Other(t, _) =>
            ErrorEndsAccumulation(chunks, i + 1);
            return Err(ConcatError(t));
        }
      } else {
        text := text + chunk.shown;
      }
    }
    assert chunks[..|chunks|] == chunks;
    if st.raised.Some? {
      r := Err(st.raised.value);
    } else {
      r := Ok(text);
    }
  }

  const AnalysisLead := "\n            Analyze health data for "
  const QueryLabel := " based on this query: "
  const AnalysisBody := "\n            \n            Provide:\n            1. Key findings\n            2. Data trends\n            3. Statistical insights\n            4. Recommendations\n            "

  /** Lines 127-135: the analysis prompt names the location right after its fixed
      opening. */
  function AnalysisPrompt(location: string, query: string): (p: string)
    ensures AnalysisLead + location + QueryLabel <= p
  {
    AnalysisLead + (location + (QueryLabel + (query + AnalysisBody)))
  }

  const AnalysisUnavailable := "Unable to retrieve data analysis at this time."

  /** `get_data_analysis` (lines 115-163). A stream that completes gives a record
      of the accumulated text, the inputs and the timestamp `now`; a failure
      gives the fixed message, the inputs and the exception's text, and no
      timestamp. When every chunk appends a string and the stream ends normally,
      the analysis is the in-order concatenation of the chunks' texts. */
  method GetDataAnalysis(query: string, location: string, dataAgent: string -> Stream, now: string)
    returns (record: map<string, string>)
    ensures StreamResult(dataAgent(AnalysisPrompt(location, query))).Ok? ==>
      record == map["analysis" := StreamResult(dataAgent(AnalysisPrompt(location, query))).value,
                    "location" := location, "query" := query, "timestamp" := now]
    ensures StreamResult(dataAgent(AnalysisPrompt(location, query))).Err? ==>
      record == map["analysis" := AnalysisUnavailable, "location" := location, "query" := query,
                    "error" := StreamResult(dataAgent(AnalysisPrompt(location, query))).error]
    ensures "timestamp" in record <==> "error" !in record
    ensures "location" in record && record["location"] == location
    ensures "query" in record && record["query"] == query
    ensures var st := dataAgent(AnalysisPrompt(location, query));
      st.raised.None? && (forall i :: 0 <= i < |st.chunks| ==> ChunkPiece(st.chunks[i]).Ok?) ==>
        record == map["analysis" := ConcatTexts(st.chunks), "location" := location,
                      "query" := query, "timestamp" := now]
  {
    var st := dataAgent(AnalysisPrompt(location, query));
    var outcome := CollectStream(st);
    AccumulatedOk(st.chunks);
    match outcome {
      case Ok(text) =>
        record := map["analysis" := text, "location" := location, "query" := query, "timestamp" := now];
      case Err(e) =>
        record := map["analysis" := AnalysisUnavailable, "location" := location, "query" := query, "error" := e];
    }
  }

  const RecommendationsLead := "\n            Provide resource allocation recommendations for "
  const RecommendationsRoleLabel := " for "
  const RecommendationsBody := ".\n            \n            Include:\n            1. Priority resource needs\n            2. Capacity gaps\n            3. Budget recommendations\n            4. Implementation timeline\n            5. Expected outcomes\n            "

  /** Lines 177-186: the recommendations prompt names the location right after
      its fixed opening. */
  function RecommendationsPrompt(location: string, role: string): (p: string)
    ensures RecommendationsLead + location + RecommendationsRoleLabel <= p
  {
    RecommendationsLead + (location + (RecommendationsRoleLabel + (role + RecommendationsBody)))
  }

  const RecommendationsUnavailable := "Unable to generate recommendations at this time."

  /** `get_resource_recommendations` (lines 165-214), streamed from the insights
      agent: the same record shape as `GetDataAnalysis`, keyed by
      "recommendations" and "user_role". */
  method GetResourceRecommendations(location: string, role: string,
                                    insightsStream: string -> Stream, now: string)
    returns (record: map<string, string>)
    ensures StreamResult(insightsStream(RecommendationsPrompt(location, role))).Ok? ==>
      record == map["recommendations" := StreamResult(insightsStream(RecommendationsPrompt(location, role))).value,
                    "location" := location, "user_role" := role, "timestamp" := now]
    ensures StreamResult(insightsStream(RecommendationsPrompt(location, role))).Err? ==>
      record == map["recommendations" := RecommendationsUnavailable, "location" := location,
                    "user_role" := role,
                    "error" := StreamResult(insightsStream(RecommendationsPrompt(location, role))).error]
    ensures "timestamp" in record <==> "error" !in record
    ensures "location" in record && record["location"] == location
    ensures "user_role" in record && record["user_role"] == role
    ensures var st := insightsStream(RecommendationsPrompt(location, role));
      st.raised.None? && (forall i :: 0 <= i < |st.chunks| ==> ChunkPiece(st.chunks[i]).Ok?) ==>
        record == map["recommendations" := ConcatTexts(st.chunks), "location" := location,
                      "user_role" := role, "timestamp" := now]
  {
    var st := insightsStream(RecommendationsPrompt(location, role));
    var outcome := CollectStream(st);
    AccumulatedOk(st.chunks);
    match outcome {
      case Ok(text) =>
        record := map["recommendations" := text, "location" := location, "user_role" := role,
                      "timestamp" := now];
      case Err(e) =>
        record := map["recommendations" := RecommendationsUnavailable, "location" := location,
                      "user_role" := role, "error" := e];
    }
  }
}
