/**
 * The SDG tools (class `SDGTools` of src/backend/kernel_tools/sdg_tools.py):
 * three static tools that return a record tagged with their own name and
 * echoing their arguments, and the constant document that describes them.
 */
module SdgTools {

  import opened Wrappers

  /** A value held in a tool record (the record's values are Python `Any`). */
  datatype Value = Str(s: string) | Int(i: int) | Null

  /** A record as the tools return it: a dictionary from keys to values. */
  type Record = map<string, Value>

  /** An optional integer argument as it is stored: `None` stays `None`. */
  function OptionalInt(o: Option<int>): (v: Value)
    ensures v.Null? <==> o.None?
    ensures o.Some? ==> v == Int(o.value)
  {
    if o.None? then Null else Int(o.value)
  }

  /** The three static tools. */
  datatype Tool = AnalyzeSdgAlignmentTool | SuggestSdgIndicatorsTool | IdentifyUnAgenciesTool

  /** The tools in declaration order. */
  const AllTools: seq<Tool> := [AnalyzeSdgAlignmentTool, SuggestSdgIndicatorsTool, IdentifyUnAgenciesTool]

  /** The name each tool is declared with. */
  function ToolName(t: Tool): string
  {
    match t
    case AnalyzeSdgAlignmentTool => "analyze_sdg_alignment"
    case SuggestSdgIndicatorsTool => "suggest_sdg_indicators"
    case IdentifyUnAgenciesTool => "identify_un_agencies"
  }

  /** The parameter names of each tool's declaration, in order. */
  function ParameterNames(t: Tool): seq<string>
  {
    match t
    case AnalyzeSdgAlignmentTool => ["project_description", "sdg_number"]
    case SuggestSdgIndicatorsTool => ["project_description"]
    case IdentifyUnAgenciesTool => ["initiative_description"]
  }

  /** The key under which every record names the tool that built it. */
  const FunctionKey: string := "function"

  /** The keys of a record built by tool `t`: the tag and one key per parameter. */
  function RecordKeys(t: Tool): set<string>
  {
    {FunctionKey} + set p | p in ParameterNames(t)
  }

  // ---------------------------------------------------------------------------
  // The tools

  /** `analyze_sdg_alignment`: the tag and both arguments, the description whole
      at any length and the goal number as given, `None` included. */
  function AnalyzeSdgAlignment(projectDescription: string, sdgNumber: Option<int> := None): (r: Record)
    ensures r.Keys == RecordKeys(AnalyzeSdgAlignmentTool)
    ensures r[FunctionKey] == Str(ToolName(AnalyzeSdgAlignmentTool))
    ensures r["project_description"] == Str(projectDescription)
    ensures r["sdg_number"] == OptionalInt(sdgNumber)
  {
    map[FunctionKey := Str("analyze_sdg_alignment"),
        "project_description" := Str(projectDescription),
        "sdg_number" := OptionalInt(sdgNumber)]
  }

  /** `suggest_sdg_indicators`: the tag and the description, whole at any length. */
  function SuggestSdgIndicators(projectDescription: string): (r: Record)
    ensures r.Keys == RecordKeys(SuggestSdgIndicatorsTool)
    ensures r[FunctionKey] == Str(ToolName(SuggestSdgIndicatorsTool))
    ensures r["project_description"] == Str(projectDescription)
  {
    map[FunctionKey := Str("suggest_sdg_indicators"),
        "project_description" := Str(projectDescription)]
  }

  /** `identify_un_agencies`: the tag and the description, whole at any length. */
  function IdentifyUnAgencies(initiativeDescription: string): (r: Record)
    ensures r.Keys == RecordKeys(IdentifyUnAgenciesTool)
    ensures r[FunctionKey] == Str(ToolName(IdentifyUnAgenciesTool))
    ensures r["initiative_description"] == Str(initiativeDescription)
  {
    map[FunctionKey := Str("identify_un_agencies"),
        "initiative_description" := Str(initiativeDescription)]
  }

  /** The arguments a record holds, read in the order of the tool's parameters. */
  function Echoed(t: Tool, r: Record): seq<Value>
    requires forall p :: p in ParameterNames(t) ==> p in r
  {
    seq(|ParameterNames(t)|, i requires 0 <= i < |ParameterNames(t)| => r[ParameterNames(t)[i]])
  }

  /** Reading a record back gives the call's arguments unchanged and in order; so
      different arguments give different records, and `None` differs from every number. */
  lemma RecordsEchoArguments(description: string, sdgNumber: Option<int>)
    ensures Echoed(AnalyzeSdgAlignmentTool, AnalyzeSdgAlignment(description, sdgNumber))
            == [Str(description), OptionalInt(sdgNumber)]
    ensures Echoed(SuggestSdgIndicatorsTool, SuggestSdgIndicators(description)) == [Str(description)]
    ensures Echoed(IdentifyUnAgenciesTool, IdentifyUnAgencies(description)) == [Str(description)]
    ensures forall d2: string, s2: Option<int> ::
              AnalyzeSdgAlignment(description, sdgNumber) == AnalyzeSdgAlignment(d2, s2)
              ==> description == d2 && sdgNumber == s2
  {
  }

  // ---------------------------------------------------------------------------
  // The tools document

  /** One entry of the tools document; parameters are (name, description) pairs in order. */
  datatype ToolDoc = ToolDoc(name: string, description: string, parameters: seq<(string, string)>)

  /** The tools document: the agent it belongs to and its tool entries. */
  datatype ToolsDoc = ToolsDoc(agent: string, tools: seq<ToolDoc>)

  /** `generate_tools_json_doc`: the constant description of the three tools. */
  function GenerateToolsJsonDoc(): ToolsDoc
  {
    ToolsDoc("SDGAgent", [
      ToolDoc("analyze_sdg_alignment",
              "Analyze how a project aligns with the Sustainable Development Goals",
              [("project_description", "Description of the project to analyze"),
               ("sdg_number", "Optional specific SDG number to focus on (1-17)")]),
      ToolDoc("suggest_sdg_indicators",
              "Suggest appropriate SDG indicators for measuring project impact",
              [("project_description", "Description of the project")]),
      ToolDoc("identify_un_agencies",
              "Identify relevant UN agencies for a project or initiative",
              [("initiative_description", "Description of the initiative")])
    ])
  }

  /** The parameter names of a document entry, in order. */
  function ParameterKeys(entry: ToolDoc): (keys: seq<string>)
    ensures |keys| == |entry.parameters|
    ensures forall i :: 0 <= i < |keys| ==> keys[i] == entry.parameters[i].0
  {
    seq(|entry.parameters|, i requires 0 <= i < |entry.parameters| => entry.parameters[i].0)
  }

  /** The document belongs to "SDGAgent" and lists exactly the three tools, in
      declaration order, under distinct names. */
  lemma ToolsDocShape()
    ensures GenerateToolsJsonDoc().agent == "SDGAgent"
    ensures |GenerateToolsJsonDoc().tools| == |AllTools| == 3
    ensures forall i :: 0 <= i < 3 ==> GenerateToolsJsonDoc().tools[i].name == ToolName(AllTools[i])
    ensures forall i, j :: 0 <= i < j < 3 ==>
              GenerateToolsJsonDoc().tools[i].name != GenerateToolsJsonDoc().tools[j].name
  {
  }

  /** Each entry documents exactly the parameters, in order, of the tool it names. */
  lemma ToolsDocMatchesSignatures()
    ensures forall i :: 0 <= i < 3 ==> ParameterKeys(GenerateToolsJsonDoc().tools[i]) == ParameterNames(AllTools[i])
  {
  }

  /** Each entry's name is the tag its tool writes into the records it returns,
      and the record's other keys are the parameters the entry documents. */
  lemma ToolsDocMatchesRecords(description: string, sdgNumber: Option<int>)
    ensures var doc := GenerateToolsJsonDoc();
            && AnalyzeSdgAlignment(description, sdgNumber)[FunctionKey] == Str(doc.tools[0].name)
            && SuggestSdgIndicators(description)[FunctionKey] == Str(doc.tools[1].name)
            && IdentifyUnAgencies(description)[FunctionKey] == Str(doc.tools[2].name)
            && AnalyzeSdgAlignment(description, sdgNumber).Keys
               == {FunctionKey} + set k | k in ParameterKeys(doc.tools[0])
            && SuggestSdgIndicators(description).Keys == {FunctionKey} + set k | k in ParameterKeys(doc.tools[1])
            && IdentifyUnAgencies(description).Keys == {FunctionKey} + set k | k in ParameterKeys(doc.tools[2])
  {
    ToolsDocShape();
    ToolsDocMatchesSignatures();
  }
}
