# SDG agent and SDG tools: a Dafny model

This project models the logic of the UN Sustainable Development Goals (SDG) agent. The agent is `SDGAgent` in `src/backend/kernel_agents/sdg_agent.py`. Its companion tool class is `SDGTools` in `src/backend/kernel_tools/sdg_tools.py`. The agent has four parts:

- **Construction.** It substitutes a built-in system message when none is given.
- **Three analysis entry points.** Each builds a fixed prompt around the description it is given. It sends that prompt to the agent's completion call and wraps the answer in a one-key record (`"analysis"`, `"indicators"` or `"agencies"`).
- **The router `process_message`.** It lower-cases the message and tests three keyword groups in a fixed order, and the first group that matches wins. If none matches, the completion is called on the message itself.
- **The completion call.** This is `completion_with_retry`, inherited from a base class that is not part of this model. It is a parameter of type `SdgAgent.Completion`, a function from prompt to `Result<string>`. `Failure` stands for the exception the call raises, and every operation passes it on unchanged.

The tool class has two parts:

- **Three static tools.** Each returns a record that is tagged with its own name and echoes its arguments.
- **`generate_tools_json_doc`.** It returns a constant document describing the three tools.

Files:

- `wrappers.dfy` (`Wrappers`): the `Option` and `Result` types.
- `text.dfy` (`Text`): the three Python string behaviours the agent relies on.
  - `str.lower()`, restricted to ASCII letters.
  - The substring test `w in s`, as the existence of an index where `w` starts.
  - The decimal text an f-string gives an `int`, with a parser that reads it back.
- `sdg_agent.dfy` (`SdgAgent`): construction, the templates, the analyses, the router and `process_message`.
- `sdg_tools.dfy` (`SdgTools`): the tool records and the tools document.

Four facts about the code that the model keeps:

- **Tool results are records.** The tools return records (dictionaries) that echo their arguments whole. The `[:50]` slice appears only in the log lines (src/backend/kernel_tools/sdg_tools.py:26, 46, 65).
- **The tools document is a dictionary.** It has the keys `agent` and `tools`, and each tool's parameters are a name-to-description map (src/backend/kernel_tools/sdg_tools.py:74-99).
- **No registry.** These files contain no reflective tool registry and no invoke-by-name operation.
- **The router's fallback.** The comment at src/backend/kernel_agents/sdg_agent.py:179 speaks of defaulting to alignment analysis. The final branch (line 191) instead sends the message itself to the completion call.

## Model

| member | source | states |
|---|---|---|
| `Text.Lower` | src/backend/kernel_agents/sdg_agent.py:180-188 | `message.lower()` restricted to ASCII: same length, each character lower-cased on its own |
| `Text.LowerIdempotent` | src/backend/kernel_agents/sdg_agent.py:180-188 | lower-casing an already lower-cased message changes nothing |
| `Text.ContainsLower` | src/backend/kernel_agents/sdg_agent.py:180-188 | a word occurring in a message means its lower-cased form occurs in the lower-cased message |
| `Text.AbsentChar` | src/backend/kernel_agents/sdg_agent.py:180-188 | a keyword with a character the text lacks is not `in` the text |
| `Text.Decimal` | src/backend/kernel_agents/sdg_agent.py:98-108 | the f-string text of `sdg_number`: non-empty, digits only for non-negative numbers, a leading '-' exactly for negative ones, and no leading zero ("0" only for 0, "-0…" never) |
| `Text.DecimalRoundTrip` | src/backend/kernel_agents/sdg_agent.py:98-108 | reading back the decimal text of any integer gives that integer |
| `Text.MiddleDetermined` | src/backend/kernel_agents/sdg_agent.py:97-120 | a template filled with two descriptions gives the same text only for the same description |
| `Text.DecimalInjective` | src/backend/kernel_agents/sdg_agent.py:98-108 | different goal numbers have different decimal texts |
| `SdgAgent.NewAgent` | src/backend/kernel_agents/sdg_agent.py:49-84 | the default system message replaces a missing (`None`) message; a supplied message is kept; the name, session and user pass through |
| `SdgAgent.SystemMessageEmptyOnlyWhenSupplied` | src/backend/kernel_agents/sdg_agent.py:72-73 | the agent's system message is empty exactly when the empty string was supplied: the test is `is None`, not falsiness |
| `SdgAgent.DefaultConstruction` | src/backend/kernel_agents/sdg_agent.py:49-54 | with no arguments the agent is "SDGAgent" with empty session and user and the default message |
| `SdgAgent.AlignmentPrompt` | src/backend/kernel_agents/sdg_agent.py:97-120 | the alignment prompt contains the description verbatim, with no truncation, for any goal number; when the goal is truthy it contains "SDG " followed by the goal's decimal text |
| `SdgAgent.SpecificPromptContents` | src/backend/kernel_agents/sdg_agent.py:98-108 | the SDG-specific template holds the description whole and names the goal after "SDG " |
| `SdgAgent.IndicatorsPrompt` | src/backend/kernel_agents/sdg_agent.py:135-143 | the indicators prompt contains the description verbatim, with no truncation |
| `SdgAgent.AgenciesPrompt` | src/backend/kernel_agents/sdg_agent.py:158-165 | the agencies prompt contains the description verbatim, with no truncation |
| `SdgAgent.AlignmentTemplateChoice` | src/backend/kernel_agents/sdg_agent.py:97-120 | every falsy goal number, `None` and 0 alike, gives the general prompt |
| `SdgAgent.SpecificPromptGoal` | src/backend/kernel_agents/sdg_agent.py:98-108 | two SDG-specific prompts are equal only if they are built for the same goal number |
| `SdgAgent.SpecificTemplateGoal` | src/backend/kernel_agents/sdg_agent.py:98-108 | the SDG-specific template determines the goal text it was filled with |
| `SdgAgent.SpecificLayout` | src/backend/kernel_agents/sdg_agent.py:98-100 | in the SDG-specific prompt the goal text sits after the opening words and "SDG ", and a colon follows it |
| `SdgAgent.GeneralAndSpecificPromptsDiffer` | src/backend/kernel_agents/sdg_agent.py:97-120 | the general template and the SDG-specific template never produce the same prompt |
| `SdgAgent.AlignmentPromptIdentifiesFocus` | src/backend/kernel_agents/sdg_agent.py:97-120 | two calls build the same prompt if and only if they have the same description, agree on truthiness and, when truthy, on the goal |
| `SdgAgent.AnalyzeSdgAlignment` | src/backend/kernel_agents/sdg_agent.py:86-123 | succeeds exactly when the completion of the alignment prompt does, with the single key "analysis" holding the response unchanged; a failure propagates |
| `SdgAgent.SuggestSdgIndicators` | src/backend/kernel_agents/sdg_agent.py:125-146 | the single key "indicators" holds the completion of the indicators prompt unchanged; a failure propagates |
| `SdgAgent.IdentifyUnAgencies` | src/backend/kernel_agents/sdg_agent.py:148-168 | the single key "agencies" holds the completion of the agencies prompt unchanged; a failure propagates |
| `SdgAgent.ClassifyIsFirstMatch` | src/backend/kernel_agents/sdg_agent.py:180-191 | the router's condition chain equals the first-match rule over the ordered keyword groups |
| `SdgAgent.RoutePrecedence` | src/backend/kernel_agents/sdg_agent.py:180-191 | both directions: alignment iff an alignment keyword occurs; indicators iff none does and an indicator keyword does; agencies iff neither earlier group matches and an agency keyword does; direct iff no group matches |
| `SdgAgent.RoutingIgnoresCase` | src/backend/kernel_agents/sdg_agent.py:180-188 | messages that lower-case alike take the same route, and a message routes like its lower-cased form |
| `SdgAgent.AlignmentKeywordInAnyCase` | src/backend/kernel_agents/sdg_agent.py:180-182 | an alignment keyword in any mix of cases sends the message to alignment analysis, whatever other keywords it holds |
| `SdgAgent.SampleRouteAnalyze` | src/backend/kernel_agents/sdg_agent.py:180-182 | "please analyze SDG alignment" goes to alignment analysis |
| `SdgAgent.SampleRouteSdgBeforeIndicators` | src/backend/kernel_agents/sdg_agent.py:180-185 | "suggest SDG indicators" goes to alignment analysis, not to indicators |
| `SdgAgent.SampleRouteIndicator` | src/backend/kernel_agents/sdg_agent.py:180-185 | "Which indicator?" goes to indicator suggestion |
| `SdgAgent.SampleRoutePartner` | src/backend/kernel_agents/sdg_agent.py:180-188 | "find a partner" goes to agency identification |
| `SdgAgent.SampleRouteHello` | src/backend/kernel_agents/sdg_agent.py:180-191 | "hello" matches no keyword and goes to the direct completion |
| `SdgAgent.ProcessMessage` | src/backend/kernel_agents/sdg_agent.py:170-191 | for each route the result is exactly one completion: of the general alignment prompt, the indicators prompt or the agencies prompt built from the original message, or of the message itself when nothing matches; failures propagate |
| `SdgAgent.SdgMessagesGetGeneralAlignment` | src/backend/kernel_agents/sdg_agent.py:180-182 | a message containing "sdg" gets the general (not SDG-specific) alignment analysis of the whole message |
| `SdgTools.OptionalInt` | src/backend/kernel_tools/sdg_tools.py:14-30 | an optional goal number is stored as `None` exactly when it is `None`, and otherwise as the number itself |
| `SdgTools.AnalyzeSdgAlignment` | src/backend/kernel_tools/sdg_tools.py:11-31 | the record has exactly the keys "function", "project_description" and "sdg_number"; it is tagged with the tool's own name and echoes both arguments unchanged, `None` included |
| `SdgTools.SuggestSdgIndicators` | src/backend/kernel_tools/sdg_tools.py:33-50 | the record has exactly the keys "function" and "project_description"; it is tagged with the tool's name and echoes the description whole |
| `SdgTools.IdentifyUnAgencies` | src/backend/kernel_tools/sdg_tools.py:52-69 | the record has exactly the keys "function" and "initiative_description"; it is tagged with the tool's name and echoes the description whole |
| `SdgTools.RecordsEchoArguments` | src/backend/kernel_tools/sdg_tools.py:26-69 | the records give back the arguments in parameter order, at any length; different arguments give different records |
| `SdgTools.ToolsDocShape` | src/backend/kernel_tools/sdg_tools.py:71-99 | the document belongs to "SDGAgent" and lists exactly three tools in declaration order, with distinct names |
| `SdgTools.ToolsDocMatchesSignatures` | src/backend/kernel_tools/sdg_tools.py:11-99 | each entry documents exactly the parameter names, in order, of the tool it names |
| `SdgTools.ToolsDocMatchesRecords` | src/backend/kernel_tools/sdg_tools.py:27-99 | each entry's name is the "function" tag of its tool's records, and the records' other keys are the entry's parameters |

## Left out

- The completion backend (`completion_with_retry` and the client behind it) is a parameter. Retries, streaming and timeouts belong to the backend and are not modelled.
- `SdgAgent.ProcessMessage`: the route-by-route equalities treat the completion as a function of the prompt. A live model can answer the same prompt differently on two calls.
- `SdgAgent.NewAgent`: `memory_store`, `definition`, `client` and `**kwargs` pass unchanged to the base class, which is not part of this model. Only the name, session id, user id and system message are kept.
- `async`/`await`: each operation makes at most one completion call and nothing runs concurrently, so the calls are sequential.
- Logging, including the first-50-characters preview in the tool log lines: output only, not part of any result.
- `Text.Lower`: only ASCII 'A'..'Z' are mapped, so its "same length" and character-by-character promise holds for the ASCII model only. Python's `str.lower()` also maps other characters, and two of them become ASCII letters. U+212A (Kelvin sign) becomes 'k', and no keyword contains 'k'. U+0130 becomes 'i' followed by U+0307, which also lengthens the string. Its 'i' is always followed by U+0307, which no keyword contains, and no keyword ends in 'i'. So that 'i' cannot complete a keyword, and routing is the same under either lower-casing.
- Key order of the tool records: a Python dictionary keeps insertion order, but `map` is unordered. The tools document keeps its parameter order as a sequence of pairs.
- `src/backend/kernel_agents/__init__.py`: imports only, no logic.
- No reflective tool registry, parameter type-tag inference, title derivation or invoke-by-name exists in these files, so none is modelled.
