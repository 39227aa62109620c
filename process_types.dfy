/**
 * The document of a process-improvement project, as declared in
 * types/process.ts. Fields the declaration marks optional (`?:`) are `Option`
 * here; every other field is always present.
 */
module ProcessTypes {
  import opened Wrappers

  /** `'Essencial' | 'Deveria ter' | 'Poderia ter'` */
  datatype StoryPriority = Essencial | DeveriaTer | PoderiaTer

  function PriorityName(p: StoryPriority): string {
    match p
    case Essencial => "Essencial"
    case DeveriaTer => "Deveria ter"
    case PoderiaTer => "Poderia ter"
  }

  /** Reading a priority back from its text: exactly the three names are
      priorities, and each names its own. */
  function ParsePriority(s: string): (r: Option<StoryPriority>)
    ensures r.Some? <==> s == "Essencial" || s == "Deveria ter" || s == "Poderia ter"
    ensures r.Some? ==> PriorityName(r.value) == s
  {
    if s == "Essencial" then Some(Essencial)
    else if s == "Deveria ter" then Some(DeveriaTer)
    else if s == "Poderia ter" then Some(PoderiaTer)
    else None
  }

  lemma PriorityNameRoundTrip(p: StoryPriority)
    ensures ParsePriority(PriorityName(p)) == Some(p)
  {
  }

  /** `'policies' | 'inputs' | 'outputs' | 'resources'` */
  datatype DeipCategory = Policies | Inputs | Outputs | Resources

  function CategoryName(c: DeipCategory): string {
    match c
    case Policies => "policies"
    case Inputs => "inputs"
    case Outputs => "outputs"
    case Resources => "resources"
  }

  /** Exactly the four names are categories, and each names its own. */
  function ParseCategory(s: string): (r: Option<DeipCategory>)
    ensures r.Some? <==> s == "policies" || s == "inputs" || s == "outputs" || s == "resources"
    ensures r.Some? ==> CategoryName(r.value) == s
  {
    if s == "policies" then Some(Policies)
    else if s == "inputs" then Some(Inputs)
    else if s == "outputs" then Some(Outputs)
    else if s == "resources" then Some(Resources)
    else None
  }

  lemma CategoryNameRoundTrip(c: DeipCategory)
    ensures ParseCategory(CategoryName(c)) == Some(c)
  {
  }

  datatype UserStory = UserStory(id: string, text: string, priority: StoryPriority)

  datatype UserCard = UserCard(id: string, userName: string, stories: seq<UserStory>)

  /** An interview note; `date` is a `YYYY-MM-DD` string. */
  datatype MappingNote = MappingNote(id: string, interviewee: string, date: string, notes: string)

  /** Every field is required except `attention`. */
  datatype ProcessStep = ProcessStep(
    id: string,
    name: string,
    role: string,
    currentScenario: string,
    futureScenario: string,
    idealScenario: string,
    inputs: seq<string>,
    outputs: seq<string>,
    noImprovement: bool,
    attention: Option<bool>,
    userCards: seq<UserCard>,
    mappings: seq<MappingNote>)

  /** `linkedStoryIds` is a plain list of ids: nothing ties it to the stories
      that exist, so it may name stories that were deleted. */
  datatype Deliverable = Deliverable(
    id: string,
    title: string,
    description: string,
    linkedStoryIds: seq<string>)

  datatype SimpleCard = SimpleCard(id: string, title: string, text: string)

  /** The pre- and post-operational nodes at the ends of the process. */
  datatype ProcessNode = ProcessNode(cards: seq<SimpleCard>)

  datatype DeipItem = DeipItem(
    id: string,
    category: DeipCategory,
    title: string,
    description: string,
    attention: bool)

  datatype ProcessFlow = ProcessFlow(id: string, name: string, steps: seq<ProcessStep>)

  /** The whole project. `startNode`, `endNode`, `flows`, `deliverables` and
      `deipItems` are required; `steps` and the project-framing fields are
      optional. */
  datatype ProcessImprovement = ProcessImprovement(
    id: string,
    title: string,
    theme: string,
    sectors: string,
    managers: string,
    startNode: ProcessNode,
    endNode: ProcessNode,
    flows: seq<ProcessFlow>,
    steps: Option<seq<ProcessStep>>,
    deliverables: seq<Deliverable>,
    deipItems: seq<DeipItem>,
    justification: Option<string>,
    objective: Option<string>,
    requirements: Option<seq<string>>,
    processRules: Option<seq<string>>,
    risks: Option<seq<string>>,
    updatedAt: string)

  /** What the bottom panel of the editor shows: `'step' | 'deip' | 'start' | 'end'`
      (the app's `SelectedType` without its `null`). */
  datatype SelectedType = StepSelected | DeipSelected | StartSelected | EndSelected

  /** `keyof ProcessImprovement` */
  datatype FieldName =
    | IdField | TitleField | ThemeField | SectorsField | ManagersField
    | StartNodeField | EndNodeField | FlowsField | StepsField | DeliverablesField
    | DeipItemsField | JustificationField | ObjectiveField | RequirementsField
    | ProcessRulesField | RisksField | UpdatedAtField

  /** A field name paired with a value of that field's type: the arguments
      of `onUpdate(field, value)`. */
  datatype FieldValue =
    | SetId(id: string)
    | SetTitle(title: string)
    | SetTheme(theme: string)
    | SetSectors(sectors: string)
    | SetManagers(managers: string)
    | SetStartNode(startNode: ProcessNode)
    | SetEndNode(endNode: ProcessNode)
    | SetFlows(flows: seq<ProcessFlow>)
    | SetSteps(steps: seq<ProcessStep>)
    | SetDeliverables(deliverables: seq<Deliverable>)
    | SetDeipItems(deipItems: seq<DeipItem>)
    | SetJustification(justification: string)
    | SetObjective(objective: string)
    | SetRequirements(requirements: seq<string>)
    | SetProcessRules(processRules: seq<string>)
    | SetRisks(risks: seq<string>)
    | SetUpdatedAt(updatedAt: string)
  {
    function Name(): FieldName {
      match this
      case SetId(_) => IdField
      case SetTitle(_) => TitleField
      case SetTheme(_) => ThemeField
      case SetSectors(_) => SectorsField
      case SetManagers(_) => ManagersField
      case SetStartNode(_) => StartNodeField
      case SetEndNode(_) => EndNodeField
      case SetFlows(_) => FlowsField
      case SetSteps(_) => StepsField
      case SetDeliverables(_) => DeliverablesField
      case SetDeipItems(_) => DeipItemsField
      case SetJustification(_) => JustificationField
      case SetObjective(_) => ObjectiveField
      case SetRequirements(_) => RequirementsField
      case SetProcessRules(_) => ProcessRulesField
      case SetRisks(_) => RisksField
      case SetUpdatedAt(_) => UpdatedAtField
    }
  }

  /** The two documents differ at most in field `f`. */
  predicate SameExcept(d: ProcessImprovement, e: ProcessImprovement, f: FieldName) {
    && (f.IdField? || d.id == e.id)
    && (f.TitleField? || d.title == e.title)
    && (f.ThemeField? || d.theme == e.theme)
    && (f.SectorsField? || d.sectors == e.sectors)
    && (f.ManagersField? || d.managers == e.managers)
    && (f.StartNodeField? || d.startNode == e.startNode)
    && (f.EndNodeField? || d.endNode == e.endNode)
    && (f.FlowsField? || d.flows == e.flows)
    && (f.StepsField? || d.steps == e.steps)
    && (f.DeliverablesField? || d.deliverables == e.deliverables)
    && (f.DeipItemsField? || d.deipItems == e.deipItems)
    && (f.JustificationField? || d.justification == e.justification)
    && (f.ObjectiveField? || d.objective == e.objective)
    && (f.RequirementsField? || d.requirements == e.requirements)
    && (f.ProcessRulesField? || d.processRules == e.processRules)
    && (f.RisksField? || d.risks == e.risks)
    && (f.UpdatedAtField? || d.updatedAt == e.updatedAt)
  }

  /** Field `v.Name()` of `d` holds the value carried by `v`. */
  predicate Holds(d: ProcessImprovement, v: FieldValue) {
    match v
    case SetId(x) => d.id == x
    case SetTitle(x) => d.title == x
    case SetTheme(x) => d.theme == x
    case SetSectors(x) => d.sectors == x
    case SetManagers(x) => d.managers == x
    case SetStartNode(x) => d.startNode == x
    case SetEndNode(x) => d.endNode == x
    case SetFlows(x) => d.flows == x
    case SetSteps(x) => d.steps == Some(x)
    case SetDeliverables(x) => d.deliverables == x
    case SetDeipItems(x) => d.deipItems == x
    case SetJustification(x) => d.justification == Some(x)
    case SetObjective(x) => d.objective == Some(x)
    case SetRequirements(x) => d.requirements == Some(x)
    case SetProcessRules(x) => d.processRules == Some(x)
    case SetRisks(x) => d.risks == Some(x)
    case SetUpdatedAt(x) => d.updatedAt == x
  }

  /** `{ ...d, [field]: value }`: one field replaced, every other kept. */
  function WithField(d: ProcessImprovement, v: FieldValue): (r: ProcessImprovement)
    ensures Holds(r, v)
    ensures SameExcept(d, r, v.Name())
  {
    if v.SetId? || v.SetTitle? || v.SetTheme? || v.SetSectors? || v.SetManagers?
       || v.SetStartNode? || v.SetEndNode? || v.SetFlows? || v.SetUpdatedAt?
    then WithHeaderField(d, v)
    else WithContentField(d, v)
  }

  /** The identification fields, the two end nodes, the flows and the time
      stamp. */
  function WithHeaderField(d: ProcessImprovement, v: FieldValue): (r: ProcessImprovement)
    requires v.SetId? || v.SetTitle? || v.SetTheme? || v.SetSectors? || v.SetManagers?
             || v.SetStartNode? || v.SetEndNode? || v.SetFlows? || v.SetUpdatedAt?
    ensures Holds(r, v)
    ensures SameExcept(d, r, v.Name())
  {
    match v
    case SetId(x) => d.(id := x)
    case SetTitle(x) => d.(title := x)
    case SetTheme(x) => d.(theme := x)
    case SetSectors(x) => d.(sectors := x)
    case SetManagers(x) => d.(managers := x)
    case SetStartNode(x) => d.(startNode := x)
    case SetEndNode(x) => d.(endNode := x)
    case SetFlows(x) => d.(flows := x)
    case SetUpdatedAt(x) => d.(updatedAt := x)
  }

  /** The lists and texts the editor panels fill in. */
  function WithContentField(d: ProcessImprovement, v: FieldValue): (r: ProcessImprovement)
    requires !(v.SetId? || v.SetTitle? || v.SetTheme? || v.SetSectors? || v.SetManagers?
             || v.SetStartNode? || v.SetEndNode? || v.SetFlows? || v.SetUpdatedAt?)
    ensures Holds(r, v)
    ensures SameExcept(d, r, v.Name())
  {
    match v
    case SetSteps(x) => d.(steps := Some(x))
    case SetDeliverables(x) => d.(deliverables := x)
    case SetDeipItems(x) => d.(deipItems := x)
    case SetJustification(x) => d.(justification := Some(x))
    case SetObjective(x) => d.(objective := Some(x))
    case SetRequirements(x) => d.(requirements := Some(x))
    case SetProcessRules(x) => d.(processRules := Some(x))
    case SetRisks(x) => d.(risks := Some(x))
  }

  /** `Holds` and `SameExcept` pin `WithField` down completely: a document
      that carries the new value and keeps every other field is the
      result of the update. */
  lemma WithFieldDetermined(d: ProcessImprovement, v: FieldValue, e: ProcessImprovement)
    requires Holds(e, v) && SameExcept(d, e, v.Name())
    ensures e == WithField(d, v)
  {
    match v
    case SetSteps(x) => assert e.steps == Some(x);
    case SetJustification(x) => assert e.justification == Some(x);
    case SetObjective(x) => assert e.objective == Some(x);
    case SetRequirements(x) => assert e.requirements == Some(x);
    case SetProcessRules(x) => assert e.processRules == Some(x);
    case SetRisks(x) => assert e.risks == Some(x);
    case _ =>
  }

  /** Writing a field with the value it already has changes nothing. */
  lemma WithFieldSameValue(d: ProcessImprovement, v: FieldValue)
    requires Holds(d, v)
    ensures WithField(d, v) == d
  {
  }
}
