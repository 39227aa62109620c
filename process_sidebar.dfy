/**
 * The side panel with the process's business rules and risks: two lists,
 * each with its own text box for the next entry. Each handler yields the
 * field and value it hands to `onUpdate(field, value)`.
 */
module ProcessSidebar {
  import opened Wrappers
  import opened ProcessTypes
  import opened ListOps
  import opened ListInput

  /** `data.processRules || []` */
  function Rules(data: ProcessImprovement): (r: seq<string>)
    ensures data.processRules.None? ==> r == []
    ensures data.processRules.Some? ==> r == data.processRules.value
  {
    data.processRules.GetOr([])
  }

  /** `data.risks || []` */
  function Risks(data: ProcessImprovement): (r: seq<string>)
    ensures data.risks.None? ==> r == []
    ensures data.risks.Some? ==> r == data.risks.value
  {
    data.risks.GetOr([])
  }

  /** `removeRule(idx)`: the rule at that position goes; only the rules
      field is written. */
  function RemoveRule(data: ProcessImprovement, idx: int): (r: FieldValue)
    ensures r.Name() == ProcessRulesField
    ensures 0 <= idx < |Rules(data)| ==> r == SetProcessRules(Rules(data)[..idx] + Rules(data)[idx + 1..])
    ensures !(0 <= idx < |Rules(data)|) ==> r == SetProcessRules(Rules(data))
  {
    SetProcessRules(RemoveAt(Rules(data), idx))
  }

  /** `removeRisk(idx)`: the risk at that position goes; only the risks field
      is written. */
  function RemoveRisk(data: ProcessImprovement, idx: int): (r: FieldValue)
    ensures r.Name() == RisksField
    ensures 0 <= idx < |Risks(data)| ==> r == SetRisks(Risks(data)[..idx] + Risks(data)[idx + 1..])
    ensures !(0 <= idx < |Risks(data)|) ==> r == SetRisks(Risks(data))
  {
    SetRisks(RemoveAt(Risks(data), idx))
  }

  /** Removing a rule leaves the risks, and every other field, alone; and
      the other way round. */
  lemma {:induction false} RemovalsIndependent(data: ProcessImprovement, i: int, j: int)
    ensures Risks(WithField(data, RemoveRule(data, i))) == Risks(data)
    ensures Rules(WithField(data, RemoveRisk(data, j))) == Rules(data)
    ensures |Rules(WithField(data, RemoveRule(data, i)))| == if 0 <= i < |Rules(data)| then |Rules(data)| - 1 else |Rules(data)|
  {
    var a := WithField(data, RemoveRule(data, i));
    assert a.risks == data.risks;
    var b := WithField(data, RemoveRisk(data, j));
    assert b.processRules == data.processRules;
  }

  /** The panel's own state: the texts typed for the next rule and risk. */
  class Sidebar {
    var newRule: string
    var newRisk: string

    constructor()
      ensures newRule == "" && newRisk == ""
    {
      newRule := "";
      newRisk := "";
    }

    method SetNewRule(text: string)
      modifies this
      ensures newRule == text && newRisk == old(newRisk)
    {
      newRule := text;
    }

    method SetNewRisk(text: string)
      modifies this
      ensures newRisk == text && newRule == old(newRule)
    {
      newRisk := text;
    }

    /** `addRule`: a non-blank rule is appended trimmed and its box cleared;
        the risk box is not touched. */
    method AddRule(data: ProcessImprovement) returns (emitted: Option<FieldValue>)
      modifies this
      ensures var added := AppendTrimmed(Rules(data), old(newRule));
              emitted == (if added.Some? then Some(SetProcessRules(added.value)) else None)
      ensures newRule == (if emitted.Some? then "" else old(newRule))
      ensures newRisk == old(newRisk)
    {
      var added := AppendTrimmed(Rules(data), newRule);
      if added.Some? {
        emitted := Some(SetProcessRules(added.value));
        newRule := "";
      } else {
        emitted := None;
      }
    }

    /** `addRisk`: a non-blank risk is appended trimmed and its box cleared;
        the rule box is not touched. */
    method AddRisk(data: ProcessImprovement) returns (emitted: Option<FieldValue>)
      modifies this
      ensures var added := AppendTrimmed(Risks(data), old(newRisk));
              emitted == (if added.Some? then Some(SetRisks(added.value)) else None)
      ensures newRisk == (if emitted.Some? then "" else old(newRisk))
      ensures newRule == old(newRule)
    {
      var added := AppendTrimmed(Risks(data), newRisk);
      if added.Some? {
        emitted := Some(SetRisks(added.value));
        newRisk := "";
      } else {
        emitted := None;
      }
    }
  }
}
