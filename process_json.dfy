/**
 * The project file: the JSON values a parsed file can hold, how a document
 * is written as one, and the structural check an imported file must pass
 * before it replaces the open project.
 */
module ProcessJson {
  import opened Wrappers
  import opened ProcessTypes

  /** A parsed JSON value, plus JavaScript's `undefined` for a missing
      property. Numbers are integers here: the document holds none. */
  datatype JsValue =
    | Undefined
    | Null
    | Bool(b: bool)
    | Num(n: int)
    | Str(s: string)
    | Arr(items: seq<JsValue>)
    | Obj(fields: map<string, JsValue>)

  /** JavaScript truthiness: `undefined`, `null`, `false`, `0` and `''` are
      falsy, every array and object is truthy. */
  predicate Truthy(v: JsValue) {
    match v
    case Undefined => false
    case Null => false
    case Bool(b) => b
    case Num(n) => n != 0
    case Str(s) => s != []
    case Arr(_) => true
    case Obj(_) => true
  }

  /** `typeof v` */
  function TypeOf(v: JsValue): (r: string)
    ensures r == "object" <==> v.Null? || v.Arr? || v.Obj?
  {
    match v
    case Undefined => "undefined"
    case Null => "object"
    case Bool(_) => "boolean"
    case Num(_) => "number"
    case Str(_) => "string"
    case Arr(_) => "object"
    case Obj(_) => "object"
  }

  /** `v[key]` for a property the prototype does not supply: an object's own
      entry, otherwise `undefined`. */
  function Property(v: JsValue, key: string): (r: JsValue)
    ensures !v.Obj? ==> r == Undefined
    ensures v.Obj? ==> r == if key in v.fields then v.fields[key] else Undefined
  {
    if v.Obj? && key in v.fields then v.fields[key] else Undefined
  }

  /** `validateProcessJson`: `data && typeof data === 'object' &&
      Array.isArray(data.steps) && typeof data.title === 'string'`, read as
      a condition. */
  predicate Validate(data: JsValue)
    ensures Validate(data) ==> data.Obj? && "steps" in data.fields && "title" in data.fields
  {
    && Truthy(data)
    && TypeOf(data) == "object"
    && Property(data, "steps").Arr?
    && TypeOf(Property(data, "title")) == "string"
  }

  /** The check holds exactly for an object whose `steps` is an array and
      whose `title` is a string; nothing else about the file is looked at. */
  lemma ValidateExactly(data: JsValue)
    ensures Validate(data) <==>
              && data.Obj?
              && "steps" in data.fields && data.fields["steps"].Arr?
              && "title" in data.fields && data.fields["title"].Str?
  {
  }

  /** `null`, `undefined`, `{}`, arrays and texts are all refused. */
  lemma ValidateRejects(s: string, items: seq<JsValue>)
    ensures !Validate(Null) && !Validate(Undefined) && !Validate(Obj(map[]))
    ensures !Validate(Str(s)) && !Validate(Arr(items))
  {
  }

  // ---------------------------------------------------------------------
  // Writing a document

  function Texts(xs: seq<string>): (r: JsValue)
    ensures r.Arr? && |r.items| == |xs|
  {
    Arr(seq(|xs|, i requires 0 <= i < |xs| => Str(xs[i])))
  }

  /** `fields` with `key` added only when the optional value is present, as
      `JSON.stringify` drops undefined properties. */
  function WithOptional<V>(fields: map<string, JsValue>, key: string, v: Option<V>, f: V -> JsValue): (r: map<string, JsValue>)
    ensures v.Some? ==> r == fields[key := f(v.value)]
    ensures v.None? ==> r == fields
  {
    match v
    case Some(x) => fields[key := f(x)]
    case None => fields
  }

  function StoryJson(s: UserStory): JsValue {
    Obj(map["id" := Str(s.id), "text" := Str(s.text), "priority" := Str(PriorityName(s.priority))])
  }

  function CardJson(c: UserCard): JsValue {
    Obj(map["id" := Str(c.id), "userName" := Str(c.userName),
            "stories" := Arr(seq(|c.stories|, i requires 0 <= i < |c.stories| => StoryJson(c.stories[i])))])
  }

  function MappingJson(m: MappingNote): JsValue {
    Obj(map["id" := Str(m.id), "interviewee" := Str(m.interviewee), "date" := Str(m.date), "notes" := Str(m.notes)])
  }

  function StepJson(s: ProcessStep): JsValue {
    var fields := map[
      "id" := Str(s.id), "name" := Str(s.name), "role" := Str(s.role),
      "currentScenario" := Str(s.currentScenario), "futureScenario" := Str(s.futureScenario),
      "idealScenario" := Str(s.idealScenario), "inputs" := Texts(s.inputs), "outputs" := Texts(s.outputs),
      "noImprovement" := Bool(s.noImprovement),
      "userCards" := Arr(seq(|s.userCards|, i requires 0 <= i < |s.userCards| => CardJson(s.userCards[i]))),
      "mappings" := Arr(seq(|s.mappings|, i requires 0 <= i < |s.mappings| => MappingJson(s.mappings[i])))];
    Obj(WithOptional(fields, "attention", s.attention, (b: bool) => Bool(b)))
  }

  function StepsJson(steps: seq<ProcessStep>): JsValue {
    Arr(seq(|steps|, i requires 0 <= i < |steps| => StepJson(steps[i])))
  }

  function DeliverableJson(d: Deliverable): JsValue {
    Obj(map["id" := Str(d.id), "title" := Str(d.title), "description" := Str(d.description),
            "linkedStoryIds" := Texts(d.linkedStoryIds)])
  }

  function NodeJson(n: ProcessNode): JsValue {
    Obj(map["cards" := Arr(seq(|n.cards|, i requires 0 <= i < |n.cards| =>
      Obj(map["id" := Str(n.cards[i].id), "title" := Str(n.cards[i].title), "text" := Str(n.cards[i].text)])))])
  }

  function DeipItemJson(x: DeipItem): JsValue {
    Obj(map["id" := Str(x.id), "category" := Str(CategoryName(x.category)), "title" := Str(x.title),
            "description" := Str(x.description), "attention" := Bool(x.attention)])
  }

  function FlowJson(f: ProcessFlow): JsValue {
    Obj(map["id" := Str(f.id), "name" := Str(f.name), "steps" := StepsJson(f.steps)])
  }

  /** The properties every document has. */
  function RequiredFields(d: ProcessImprovement): (r: map<string, JsValue>)
    ensures "title" in r && r["title"] == Str(d.title) && "steps" !in r
  {
    map[
      "id" := Str(d.id), "title" := Str(d.title), "theme" := Str(d.theme), "sectors" := Str(d.sectors),
      "managers" := Str(d.managers), "startNode" := NodeJson(d.startNode), "endNode" := NodeJson(d.endNode),
      "flows" := Arr(seq(|d.flows|, i requires 0 <= i < |d.flows| => FlowJson(d.flows[i]))),
      "deliverables" := Arr(seq(|d.deliverables|, i requires 0 <= i < |d.deliverables| => DeliverableJson(d.deliverables[i]))),
      "deipItems" := Arr(seq(|d.deipItems|, i requires 0 <= i < |d.deipItems| => DeipItemJson(d.deipItems[i]))),
      "updatedAt" := Str(d.updatedAt)]
  }

  /** The optional framing properties, added to `base` where present. */
  function FramingFields(d: ProcessImprovement, base: map<string, JsValue>): (r: map<string, JsValue>)
    ensures forall k :: k in base && k !in FramingKeys ==> k in r && r[k] == base[k]
    ensures forall k :: k in r ==> k in base || k in FramingKeys
  {
    var f2 := WithOptional(base, "justification", d.justification, (s: string) => Str(s));
    var f3 := WithOptional(f2, "objective", d.objective, (s: string) => Str(s));
    var f4 := WithOptional(f3, "requirements", d.requirements, Texts);
    var f5 := WithOptional(f4, "processRules", d.processRules, Texts);
    WithOptional(f5, "risks", d.risks, Texts)
  }

  const FramingKeys: set<string> := {"justification", "objective", "requirements", "processRules", "risks"}

  /** `JSON.parse(JSON.stringify(data))`: the document as the object a saved
      project file reads back as. */
  function DocumentJson(d: ProcessImprovement): (r: JsValue)
    ensures r.Obj? && "title" in r.fields && r.fields["title"] == Str(d.title)
    ensures "steps" in r.fields <==> d.steps.Some?
    ensures d.steps.Some? ==> r.fields["steps"] == StepsJson(d.steps.value)
  {
    var withSteps := WithOptional(RequiredFields(d), "steps", d.steps, StepsJson);
    assert "steps" !in FramingKeys && "title" !in FramingKeys;
    Obj(FramingFields(d, withSteps))
  }

  /** A saved project passes the import check exactly when it has its
      `steps` list: the type lets a document leave `steps` out, and such a
      file is refused when it is opened again. */
  lemma SavedDocumentValid(d: ProcessImprovement)
    ensures Validate(DocumentJson(d)) <==> d.steps.Some?
  {
    ValidateExactly(DocumentJson(d));
  }
}
