/**
 * The SDG agent (class `SDGAgent` of src/backend/kernel_agents/sdg_agent.py):
 * its construction, the three analysis entry points that build a prompt and
 * wrap the completion in a one-key record, and the keyword router
 * `process_message`.
 *
 * The agent's completion call (`completion_with_retry`, inherited from a base
 * class that is not part of this model) is a parameter of type `Completion`:
 * a prompt goes in; the answer text or the raised error comes out.
 */
module SdgAgent {

  import opened Wrappers
  import opened Text

  /** The agent's completion call; `Failure` stands for the exception it raises. */
  type Completion = string -> Result<string>

  // ---------------------------------------------------------------------------
  // Construction

  /** The built-in system message (`default_system_message`). */
  const DefaultSystemMessage: string :=
    "You are the UN Sustainable Development Goals (SDG) Agent, specialized in analyzing how tasks, projects, and initiatives align with the 17 SDGs.\n\n"
    + "Your responsibilities include:\n"
    + "1. Analyzing content for alignment with specific SDGs and their targets\n"
    + "2. Providing SDG impact assessments for proposals and projects\n"
    + "3. Suggesting modifications to better align initiatives with SDG frameworks\n"
    + "4. Identifying potential SDG indicators for measuring progress\n"
    + "5. Connecting initiatives to relevant UN agencies working on specific SDGs\n\n"
    + "The 17 SDGs are:\n"
    + "1. No Poverty\n"
    + "2. Zero Hunger\n"
    + "3. Good Health and Well-being\n"
    + "4. Quality Education\n"
    + "5. Gender Equality\n"
    + "6. Clean Water and Sanitation\n"
    + "7. Affordable and Clean Energy\n"
    + "8. Decent Work and Economic Growth\n"
    + "9. Industry, Innovation and Infrastructure\n"
    + "10. Reduced Inequalities\n"
    + "11. Sustainable Cities and Communities\n"
    + "12. Responsible Consumption and Production\n"
    + "13. Climate Action\n"
    + "14. Life Below Water\n"
    + "15. Life on Land\n"
    + "16. Peace, Justice and Strong Institutions\n"
    + "17. Partnerships for the Goals\n\n"
    + "Always frame your analysis using the official UN SDG framework, targets, and indicators. Provide specific references to relevant targets and indicators when possible. Consider interlinkages between SDGs, as progress in one area often affects others."

  /** The configuration the agent hands to its base class. */
  datatype Agent = Agent(agentName: string, sessionId: string, userId: string, systemMessage: string)

  /** `SDGAgent(...)`: the default system message replaces a missing one (`None`)
      and nothing else; every supplied message, the empty one included, is kept. */
  function NewAgent(agentName: string := "SDGAgent", sessionId: string := "", userId: string := "",
                    systemMessage: Option<string> := None): (a: Agent)
    ensures a.agentName == agentName && a.sessionId == sessionId && a.userId == userId
    ensures systemMessage.Some? ==> a.systemMessage == systemMessage.value
    ensures systemMessage.None? ==> a.systemMessage == DefaultSystemMessage
  {
    var message := if systemMessage.None? then DefaultSystemMessage else systemMessage.value;
    Agent(agentName, sessionId, userId, message)
  }

  /** The agent's system message is empty exactly when an empty one was supplied:
      the substitution tests for `None`, not for a false value. */
  lemma SystemMessageEmptyOnlyWhenSupplied(systemMessage: Option<string>)
    ensures NewAgent(systemMessage := systemMessage).systemMessage == "" <==> systemMessage == Some("")
  {
  }

  /** With no arguments, the agent is called "SDGAgent" and starts from the default message. */
  lemma DefaultConstruction()
    ensures NewAgent() == Agent("SDGAgent", "", "", DefaultSystemMessage)
  {
  }

  // ---------------------------------------------------------------------------
  // Prompts

  /** Python's truth test `if sdg_number:` on an optional integer: `None` and 0 are false. */
  predicate Truthy(sdgNumber: Option<int>)
  {
    sdgNumber.Some? && sdgNumber.value != 0
  }

  /** The opening words both alignment templates share. */
  const AlignmentLead: string := "Please analyze the following project for alignment with "

  const GeneralAlignmentHead: string := AlignmentLead + "the UN Sustainable Development Goals:\n\n"

  const GeneralAlignmentTail: string :=
    "\n\nFor each relevant SDG:\n"
    + "1. Identify which specific targets the project addresses\n"
    + "2. Rate the alignment (strong, moderate, weak)\n"
    + "3. Suggest metrics that could be used to measure progress\n"
    + "4. Recommend improvements to strengthen SDG alignment\n\n"
    + "Provide a concise summary at the end highlighting the primary SDGs addressed."

  function SpecificAlignmentHead(goal: string): string
  {
    AlignmentLead + ("SDG " + goal) + ":\n\n"
  }

  function SpecificAlignmentTail(goal: string): string
  {
    "\n\nFor SDG " + goal + ":\n"
    + "1. Identify which specific targets the project addresses\n"
    + "2. Rate the alignment (strong, moderate, weak)\n"
    + "3. Suggest metrics that could be used to measure progress\n"
    + "4. Recommend improvements to strengthen SDG alignment\n\n"
    + "Provide a concise summary highlighting how the project contributes to SDG " + goal + "."
  }

  /** The prompt of `analyze_sdg_alignment`: the SDG-specific template when the
      goal number is truthy, the general multi-SDG template otherwise. */
  function AlignmentPrompt(projectDescription: string, sdgNumber: Option<int>): (p: string)
    ensures Contains(p, projectDescription)
    ensures Truthy(sdgNumber) ==> Contains(p, "SDG " + Decimal(sdgNumber.value))
  {
    if Truthy(sdgNumber) then
      var goal := Decimal(sdgNumber.value);
      SpecificPromptContents(goal, projectDescription);
      SpecificAlignmentHead(goal) + projectDescription + SpecificAlignmentTail(goal)
    else
      ContainsMiddle(GeneralAlignmentHead, projectDescription, GeneralAlignmentTail);
      GeneralAlignmentHead + projectDescription + GeneralAlignmentTail
  }

  /** The SDG-specific template holds the description whole and names the goal after "SDG ". */
  lemma SpecificPromptContents(goal: string, d: string)
    ensures var p := SpecificAlignmentHead(goal) + d + SpecificAlignmentTail(goal);
            Contains(p, d) && Contains(p, "SDG " + goal)
  {
    var named := "SDG " + goal;
    ContainsMiddle(SpecificAlignmentHead(goal), d, SpecificAlignmentTail(goal));
    ContainsMiddle(AlignmentLead, named, ":\n\n");
    ContainsLeft(SpecificAlignmentHead(goal), d, named);
    ContainsLeft(SpecificAlignmentHead(goal) + d, SpecificAlignmentTail(goal), named);
  }

  const IndicatorsHead: string :=
    "Based on the following project description, suggest appropriate SDG indicators that could be used to measure progress and impact:\n\n"

  const IndicatorsTail: string :=
    "\n\nFor each suggested indicator:\n"
    + "1. Identify the specific SDG and target it relates to\n"
    + "2. Explain why this indicator is appropriate for this project\n"
    + "3. Suggest practical data collection methods\n"
    + "4. Note any potential challenges in measurement"

  /** The prompt of `suggest_sdg_indicators`. */
  function IndicatorsPrompt(projectDescription: string): (p: string)
    ensures Contains(p, projectDescription)
  {
    ContainsMiddle(IndicatorsHead, projectDescription, IndicatorsTail);
    IndicatorsHead + projectDescription + IndicatorsTail
  }

  const AgenciesHead: string :=
    "Based on the following initiative, identify the most relevant UN agencies and entities that could provide support, expertise, or partnership:\n\n"

  const AgenciesTail: string :=
    "\n\nFor each identified agency:\n"
    + "1. Explain their relevance to this initiative\n"
    + "2. Note their specific expertise or resources that would be valuable\n"
    + "3. Suggest potential mechanisms for engagement (e.g., technical assistance, funding, partnership)"

  /** The prompt of `identify_un_agencies`. */
  function AgenciesPrompt(initiativeDescription: string): (p: string)
    ensures Contains(p, initiativeDescription)
  {
    ContainsMiddle(AgenciesHead, initiativeDescription, AgenciesTail);
    AgenciesHead + initiativeDescription + AgenciesTail
  }

  /** A falsy goal number (`None` or 0) selects the general template, whatever the falsy value. */
  lemma AlignmentTemplateChoice(projectDescription: string, sdgNumber: Option<int>)
    ensures !Truthy(sdgNumber) ==> AlignmentPrompt(projectDescription, sdgNumber) == AlignmentPrompt(projectDescription, None)
    ensures AlignmentPrompt(projectDescription, Some(0)) == AlignmentPrompt(projectDescription, None)
  {
  }

  /** The goal number that the SDG-specific prompt is built for, read back from the prompt. */
  lemma SpecificPromptGoal(d1: string, d2: string, n1: int, n2: int)
    requires n1 != 0 && n2 != 0
    requires AlignmentPrompt(d1, Some(n1)) == AlignmentPrompt(d2, Some(n2))
    ensures n1 == n2
  {
    var g1, g2 := Decimal(n1), Decimal(n2);
    assert ':' !in g1 && ':' !in g2;
    SpecificTemplateGoal(g1, g2, d1, d2);
    DecimalInjective(n1, n2);
  }

  /** The SDG-specific template determines its goal text, when that text has no colon. */
  lemma SpecificTemplateGoal(g1: string, g2: string, d1: string, d2: string)
    requires ':' !in g1 && ':' !in g2
    requires SpecificAlignmentHead(g1) + d1 + SpecificAlignmentTail(g1)
             == SpecificAlignmentHead(g2) + d2 + SpecificAlignmentTail(g2)
    ensures g1 == g2
  {
    SpecificLayout(g1, d1);
    SpecificLayout(g2, d2);
  }

  /** Where the goal text sits in the SDG-specific template: right after the
      opening words and "SDG ", and followed by a colon. */
  lemma SpecificLayout(goal: string, d: string)
    ensures var p, k := SpecificAlignmentHead(goal) + d + SpecificAlignmentTail(goal), |AlignmentLead| + 4;
            && k + |goal| < |p| && p[k..k + |goal|] == goal && p[k + |goal|] == ':'
  {
  }

  /** The general and the SDG-specific templates never give the same prompt. */
  lemma GeneralAndSpecificPromptsDiffer(d1: string, d2: string, n: int)
    requires n != 0
    ensures AlignmentPrompt(d1, None) != AlignmentPrompt(d2, Some(n))
  {
    var p1, p2 := AlignmentPrompt(d1, None), AlignmentPrompt(d2, Some(n));
    var k := |AlignmentLead|;
    assert p1[k] == GeneralAlignmentHead[k] == 't';
    assert p2[k] == SpecificAlignmentHead(Decimal(n))[k] == 'S';
  }

  /** The alignment prompt identifies its call: two calls give the same prompt
      exactly when they have the same description and the same truthiness, and
      (when truthy) the same goal. */
  lemma AlignmentPromptIdentifiesFocus(d1: string, d2: string, s1: Option<int>, s2: Option<int>)
    ensures AlignmentPrompt(d1, s1) == AlignmentPrompt(d2, s2)
            <==> d1 == d2 && Truthy(s1) == Truthy(s2) && (Truthy(s1) ==> s1 == s2)
  {
    if AlignmentPrompt(d1, s1) == AlignmentPrompt(d2, s2) {
      if Truthy(s1) && Truthy(s2) {
        SpecificPromptGoal(d1, d2, s1.value, s2.value);
        var goal := Decimal(s1.value);
        MiddleDetermined(SpecificAlignmentHead(goal), d1, d2, SpecificAlignmentTail(goal));
      } else if Truthy(s1) {
        GeneralAndSpecificPromptsDiffer(d2, d1, s1.value);
      } else if Truthy(s2) {
        GeneralAndSpecificPromptsDiffer(d1, d2, s2.value);
      } else {
        MiddleDetermined(GeneralAlignmentHead, d1, d2, GeneralAlignmentTail);
      }
    }
  }

  // ---------------------------------------------------------------------------
  // Analyses: a prompt, one completion, a one-key record

  /** Wraps a completion under `key`; a failed completion propagates unchanged. */
  function Wrap(key: string, response: Result<string>): (r: Result<map<string, string>>)
    ensures r.Success? <==> response.Success?
    ensures r.Failure? ==> r.error == response.error
    ensures r.Success? ==> r.value.Keys == {key} && r.value[key] == response.value
  {
    if response.Failure? then Failure(response.error) else Success(map[key := response.value])
  }

  /** `analyze_sdg_alignment`: the completion of the alignment prompt under "analysis". */
  function AnalyzeSdgAlignment(complete: Completion, projectDescription: string, sdgNumber: Option<int> := None)
    : (r: Result<map<string, string>>)
    ensures var response := complete(AlignmentPrompt(projectDescription, sdgNumber));
            && (r.Success? <==> response.Success?)
            && (r.Failure? ==> r.error == response.error)
            && (r.Success? ==> r.value.Keys == {"analysis"} && r.value["analysis"] == response.value)
  {
    Wrap("analysis", complete(AlignmentPrompt(projectDescription, sdgNumber)))
  }

  /** `suggest_sdg_indicators`: the completion of the indicators prompt under "indicators". */
  function SuggestSdgIndicators(complete: Completion, projectDescription: string): (r: Result<map<string, string>>)
    ensures var response := complete(IndicatorsPrompt(projectDescription));
            && (r.Success? <==> response.Success?)
            && (r.Failure? ==> r.error == response.error)
            && (r.Success? ==> r.value.Keys == {"indicators"} && r.value["indicators"] == response.value)
  {
    Wrap("indicators", complete(IndicatorsPrompt(projectDescription)))
  }

  /** `identify_un_agencies`: the completion of the agencies prompt under "agencies". */
  function IdentifyUnAgencies(complete: Completion, initiativeDescription: string): (r: Result<map<string, string>>)
    ensures var response := complete(AgenciesPrompt(initiativeDescription));
            && (r.Success? <==> response.Success?)
            && (r.Failure? ==> r.error == response.error)
            && (r.Success? ==> r.value.Keys == {"agencies"} && r.value["agencies"] == response.value)
  {
    Wrap("agencies", complete(AgenciesPrompt(initiativeDescription)))
  }

  // ---------------------------------------------------------------------------
  // Routing

  datatype Route = Alignment | Indicators | Agencies | Direct

  const AlignmentKeywords: seq<string> := ["analyze", "alignment", "sdg"]
  const IndicatorKeywords: seq<string> := ["indicator", "measure", "metric"]
  const AgencyKeywords: seq<string> := ["agency", "agencies", "partner"]

  /** The keyword groups in the order the router tries them. */
  const KeywordGroups: seq<(Route, seq<string>)> :=
    [(Alignment, AlignmentKeywords), (Indicators, IndicatorKeywords), (Agencies, AgencyKeywords)]

  /** Some keyword of the group occurs in the text. */
  predicate GroupMatches(keywords: seq<string>, text: string)
  {
    exists k :: k in keywords && Contains(text, k)
  }

  /** Reference rule: the route of the first group with a keyword in the text,
      or `Direct` when no group has one. */
  function FirstMatch(groups: seq<(Route, seq<string>)>, text: string): Route
  {
    if groups == [] then Direct
    else if GroupMatches(groups[0].1, text) then groups[0].0
    else FirstMatch(groups[1..], text)
  }

  /** The condition chain of `process_message`, on the lower-cased message. */
  function Classify(message: string): Route
  {
    var text := Lower(message);
    if Contains(text, "analyze") || Contains(text, "alignment") || Contains(text, "sdg") then Alignment
    else if Contains(text, "indicator") || Contains(text, "measure") || Contains(text, "metric") then Indicators
    else if Contains(text, "agency") || Contains(text, "agencies") || Contains(text, "partner") then Agencies
    else Direct
  }

  /** The condition chain is the first-match rule over the keyword groups. */
  lemma ClassifyIsFirstMatch(message: string)
    ensures Classify(message) == FirstMatch(KeywordGroups, Lower(message))
  {
    var text := Lower(message);
    var rest := KeywordGroups[1..];
    assert rest[1..][1..] == [];
    assert FirstMatch(rest[1..][1..], text) == Direct;
    assert FirstMatch(rest[1..], text) == if GroupMatches(AgencyKeywords, text) then Agencies else Direct;
    assert FirstMatch(rest, text)
           == if GroupMatches(IndicatorKeywords, text) then Indicators else FirstMatch(rest[1..], text);
    assert GroupMatches(AlignmentKeywords, text)
           <==> Contains(text, "analyze") || Contains(text, "alignment") || Contains(text, "sdg");
    assert GroupMatches(IndicatorKeywords, text)
           <==> Contains(text, "indicator") || Contains(text, "measure") || Contains(text, "metric");
    assert GroupMatches(AgencyKeywords, text)
           <==> Contains(text, "agency") || Contains(text, "agencies") || Contains(text, "partner");
  }

  /** Precedence, both directions: alignment wins whenever one of its keywords is
      present; indicators exactly when no alignment keyword is and one of its own
      is; agencies exactly when neither earlier group matches and one of its own
      does; the direct completion exactly when no group matches. */
  lemma RoutePrecedence(message: string)
    ensures var text := Lower(message);
            && (Classify(message) == Alignment <==> GroupMatches(AlignmentKeywords, text))
            && (Classify(message) == Indicators
                <==> !GroupMatches(AlignmentKeywords, text) && GroupMatches(IndicatorKeywords, text))
            && (Classify(message) == Agencies
                <==> !GroupMatches(AlignmentKeywords, text) && !GroupMatches(IndicatorKeywords, text)
                     && GroupMatches(AgencyKeywords, text))
            && (Classify(message) == Direct
                <==> !GroupMatches(AlignmentKeywords, text) && !GroupMatches(IndicatorKeywords, text)
                     && !GroupMatches(AgencyKeywords, text))
  {
  }

  /** Routing ignores case: messages that lower-case alike take the same route,
      and a message takes the route of its own lower-cased form. */
  lemma RoutingIgnoresCase(m1: string, m2: string)
    ensures Lower(m1) == Lower(m2) ==> Classify(m1) == Classify(m2)
    ensures Classify(Lower(m1)) == Classify(m1)
  {
    LowerIdempotent(m1);
  }

  /** An alignment keyword written in any mix of cases ("SDG", "Analyze") routes
      the message to alignment analysis, whatever else the message holds. */
  lemma AlignmentKeywordInAnyCase(message: string, word: string)
    requires Lower(word) in AlignmentKeywords
    requires Contains(message, word)
    ensures Classify(message) == Alignment
  {
    ContainsLower(message, word);
    RoutePrecedence(message);
  }

  /** "please analyze SDG alignment" goes to alignment analysis. */
  lemma SampleRouteAnalyze()
    ensures Classify("please analyze SDG alignment") == Alignment
  {
    assert Lower("please analyze SDG alignment") == "please " + "analyze" + " sdg alignment";
    ContainsMiddle("please ", "analyze", " sdg alignment");
  }

  /** "suggest SDG indicators" goes to alignment analysis, not to indicators. */
  lemma SampleRouteSdgBeforeIndicators()
    ensures Classify("suggest SDG indicators") == Alignment
  {
    assert Lower("suggest SDG indicators") == "suggest sdg indicators";
    assert OccursAt("suggest sdg indicators", "sdg", 8);
  }

  /** "Which indicator?" goes to indicator suggestion. */
  lemma SampleRouteIndicator()
    ensures Classify("Which indicator?") == Indicators
  {
    var text := "which indicator?";
    assert Lower("Which indicator?") == text;
    AbsentChar(text, "analyze", 'z');
    AbsentChar(text, "alignment", 'g');
    AbsentChar(text, "sdg", 's');
    assert OccursAt(text, "indicator", 6);
  }

  /** "find a partner" goes to agency identification. */
  lemma SampleRoutePartner()
    ensures Classify("find a partner") == Agencies
  {
    var text := "find a partner";
    assert Lower(text) == text;
    AbsentChar(text, "analyze", 'z');
    AbsentChar(text, "alignment", 'g');
    AbsentChar(text, "sdg", 'g');
    AbsentChar(text, "indicator", 'c');
    AbsentChar(text, "measure", 'm');
    AbsentChar(text, "metric", 'm');
    assert OccursAt(text, "partner", 7);
  }

  /** "hello" has no keyword and goes to the direct completion. */
  lemma SampleRouteHello()
    ensures Classify("hello") == Direct
  {
    var text := "hello";
    assert Lower(text) == text;
    AbsentChar(text, "analyze", 'a');
    AbsentChar(text, "alignment", 'a');
    AbsentChar(text, "sdg", 's');
    AbsentChar(text, "indicator", 'i');
    AbsentChar(text, "measure", 'm');
    AbsentChar(text, "metric", 'm');
    AbsentChar(text, "agency", 'a');
    AbsentChar(text, "agencies", 'a');
    AbsentChar(text, "partner", 'p');
  }

  // ---------------------------------------------------------------------------
  // process_message

  /** Reads `key` out of a successful analysis record; a failure propagates. */
  function Field(result: Result<map<string, string>>, key: string): Result<string>
    requires result.Success? ==> key in result.value
  {
    if result.Failure? then Failure(result.error) else Success(result.value[key])
  }

  /** `process_message`: the routed analysis's answer, unwrapped from its record,
      or the completion of the message itself when no keyword matches. In every
      case the result is exactly one completion, of the prompt the route builds
      from the original (not lower-cased) message. */
  function ProcessMessage(complete: Completion, message: string): (r: Result<string>)
    ensures Classify(message) == Alignment ==> r == complete(AlignmentPrompt(message, None))
    ensures Classify(message) == Indicators ==> r == complete(IndicatorsPrompt(message))
    ensures Classify(message) == Agencies ==> r == complete(AgenciesPrompt(message))
    ensures Classify(message) == Direct ==> r == complete(message)
  {
    match Classify(message)
    case Alignment => Field(AnalyzeSdgAlignment(complete, message), "analysis")
    case Indicators => Field(SuggestSdgIndicators(complete, message), "indicators")
    case Agencies => Field(IdentifyUnAgencies(complete, message), "agencies")
    case Direct => complete(message)
  }

  /** A message containing "sdg" in any case is answered by the general alignment
      analysis of the whole message, even when indicator or agency words are present. */
  lemma SdgMessagesGetGeneralAlignment(complete: Completion, message: string)
    requires Contains(Lower(message), "sdg")
    ensures ProcessMessage(complete, message) == complete(AlignmentPrompt(message, None))
    ensures Contains(AlignmentPrompt(message, None), message)
  {
    RoutePrecedence(message);
  }
}
