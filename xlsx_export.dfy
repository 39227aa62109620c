/**
 * The three sheets of the spreadsheet report: the project summary, one row
 * per step, and one row per user story. Writing the workbook is left to the
 * spreadsheet library; these are the arrays of rows handed to it.
 */
module XlsxExport {
  import opened Wrappers
  import opened ProcessTypes
  import opened ExportRows
  import StoryIndex
  import Text
  import CsvExport

  // ---------------------------------------------------------------------
  // "Resumo"

  const InfoTitle: string := "RESUMO DO PROJETO DE MELHORIA"

  /** The summary sheet; `updated` is the local rendering of `updatedAt`,
      which depends on the browser's clock settings. */
  function InfoSheet(d: ProcessImprovement, updated: string): (r: seq<seq<Cell>>)
    ensures |r| == 7 && r[0] == [Str(InfoTitle)] && r[1] == [Str("")]
  {
    [ [Str(InfoTitle)],
      [Str("")],
      [Str("Título"), Str(d.title)],
      [Str("Tema"), Str(d.theme)],
      [Str("Setores"), Str(d.sectors)],
      [Str("Gestores"), Str(d.managers)],
      [Str("Última Atualização"), Str(updated)] ]
  }

  /** The value next to the first row labelled `heading`, if any. */
  function Labelled(sheet: seq<seq<Cell>>, heading: string): (r: Option<string>)
    ensures r.Some? ==> exists row :: row in sheet && |row| == 2 && row[0] == Str(heading) && row[1] == Str(r.value)
    decreases |sheet|
  {
    if sheet == [] then None
    else if |sheet[0]| == 2 && sheet[0][0] == Str(heading) && sheet[0][1].Str? then Some(sheet[0][1].s)
    else Labelled(sheet[1..], heading)
  }

  /** The row `k` labelled `heading` is found when no earlier row has that
      label. */
  lemma {:induction false} LabelledAt(sheet: seq<seq<Cell>>, heading: string, k: nat)
    requires k < |sheet| && |sheet[k]| == 2 && sheet[k][0] == Str(heading) && sheet[k][1].Str?
    requires forall l :: 0 <= l < k ==> sheet[l] == [] || sheet[l][0] != Str(heading)
    ensures Labelled(sheet, heading) == Some(sheet[k][1].s)
    decreases k
  {
    if k > 0 {
      assert sheet[0] == [] || sheet[0][0] != Str(heading);
      LabelledAt(sheet[1..], heading, k - 1);
    }
  }

  /** Each labelled row of the summary reads back as the field it shows. */
  lemma InfoSheetReadsBack(d: ProcessImprovement, updated: string)
    ensures Labelled(InfoSheet(d, updated), "Título") == Some(d.title)
    ensures Labelled(InfoSheet(d, updated), "Tema") == Some(d.theme)
    ensures Labelled(InfoSheet(d, updated), "Setores") == Some(d.sectors)
    ensures Labelled(InfoSheet(d, updated), "Gestores") == Some(d.managers)
    ensures Labelled(InfoSheet(d, updated), "Última Atualização") == Some(updated)
  {
    var s := InfoSheet(d, updated);
    InfoLabel(s, "Título", 2);
    InfoLabel(s, "Tema", 3);
    InfoLabel(s, "Setores", 4);
    InfoLabel(s, "Gestores", 5);
    InfoLabel(s, "Última Atualização", 6);
  }

  /** The texts of the summary's first column all differ in length. */
  lemma InfoLabel(s: seq<seq<Cell>>, h: string, k: nat)
    requires |s| == 7 && s[0] == [Str(InfoTitle)] && s[1] == [Str("")]
    requires forall l :: 2 <= l < 7 ==> |s[l]| == 2 && s[l][1].Str?
    requires s[2][0] == Str("Título") && s[3][0] == Str("Tema") && s[4][0] == Str("Setores")
    requires s[5][0] == Str("Gestores") && s[6][0] == Str("Última Atualização")
    requires 2 <= k < 7 && s[k][0] == Str(h)
    ensures Labelled(s, h) == Some(s[k][1].s)
  {
    var lengths := [29, 0, 6, 4, 7, 8, 18];
    assert forall l :: 0 <= l < 7 ==> |s[l][0].s| == lengths[l];
    LabelledAt(s, h, k);
  }

  // ---------------------------------------------------------------------
  // "Fluxo de Processo"

  const StepsHeader: seq<Cell> :=
    [Str("Ordem"), Str("Etapa"), Str("Cenário Atual (AS-IS)"), Str("Cenário Futuro (TO-BE)"), Str("Status")]

  /** `[stepsHeader, ...data.steps.map((step, i) => ...)]` */
  function StepsSheet(steps: seq<ProcessStep>): (r: seq<seq<Cell>>)
    ensures |r| == |steps| + 1 && r[0] == StepsHeader
    ensures forall i :: 0 <= i < |steps| ==> r[i + 1] == StepSummary(steps[i], i)
  {
    [StepsHeader] + seq(|steps|, i requires 0 <= i < |steps| => StepSummary(steps[i], i))
  }

  /** One row per step, numbered from 1 in step order, with the step's name
      and the future column chosen by its improvement flag. */
  lemma StepsSheetRows(steps: seq<ProcessStep>, i: nat)
    requires i < |steps|
    ensures StepsSheet(steps)[i + 1][0] == Num(i + 1)
    ensures StepsSheet(steps)[i + 1][1] == Str(steps[i].name)
    ensures StepsSheet(steps)[i + 1][3] == Str(if steps[i].noImprovement then KeepCurrent else steps[i].futureScenario)
  {
  }

  /** The spreadsheet and the CSV report describe a step alike: every CSV row
      of step `i` starts with the step's row of the steps sheet. */
  lemma StepsSheetAgreesWithCsv(steps: seq<ProcessStep>, i: nat)
    requires i < |steps|
    ensures forall row :: row in CsvExport.StepRows(steps[i], i) ==> |row| == 8 && row[..5] == StepsSheet(steps)[i + 1]
  {
    CsvExport.StepRowsShape(steps[i], i);
  }

  // ---------------------------------------------------------------------
  // "Requisitos Detalhados"

  const StoriesHeader: seq<Cell> :=
    [Str("Etapa Relacionada"), Str("Usuário/Papel"), Str("Prioridade"), Str("História (Requisito)")]

  const UnnamedStep: string := "Etapa sem nome"
  const UnnamedUser: string := "Não especificado"

  /** `[step.name || 'Etapa sem nome', card.userName || 'Não especificado',
      story.priority, story.text]` */
  function StoryLine(x: StoryIndex.StoryAt): (r: seq<Cell>)
    ensures |r| == 4 && r[2] == Str(PriorityName(x.story.priority)) && r[3] == Str(x.story.text)
    ensures r[0] == Str(if x.step.name == [] then UnnamedStep else x.step.name)
    ensures r[1] == Str(if x.card.userName == [] then UnnamedUser else x.card.userName)
  {
    [ Str(Text.OrElse(x.step.name, UnnamedStep)),
      Str(Text.OrElse(x.card.userName, UnnamedUser)),
      Str(PriorityName(x.story.priority)),
      Str(x.story.text) ]
  }

  /** `sheet` is the header followed by one line per story of the process,
      in step, card, story order. */
  ghost predicate IsStoriesSheet(sheet: seq<seq<Cell>>, steps: seq<ProcessStep>) {
    var all := StoryIndex.AllStories(steps);
    && |sheet| == 1 + |all|
    && sheet[0] == StoriesHeader
    && forall m :: 0 <= m < |all| ==> sheet[m + 1] == StoryLine(all[m])
  }

  /** The stories sheet, filled by the three nested loops. */
  method BuildStoriesSheet(steps: seq<ProcessStep>) returns (sheet: seq<seq<Cell>>)
    ensures IsStoriesSheet(sheet, steps)
    ensures |sheet| == 1 + StoryIndex.CountStories(steps)
  {
    var lines := StoryIndex.CollectStories(steps, StoryLine);
    StoryIndex.AllStoriesCount(steps);
    sheet := [StoriesHeader] + lines;
  }

  /** Every story of the process has its line in the sheet. */
  lemma StoryLinePresent(sheet: seq<seq<Cell>>, steps: seq<ProcessStep>, i: nat, j: nat, k: nat)
    requires IsStoriesSheet(sheet, steps)
    requires i < |steps| && j < |steps[i].userCards| && k < |steps[i].userCards[j].stories|
    ensures StoryLine(StoryIndex.StoryAt(steps[i], steps[i].userCards[j], steps[i].userCards[j].stories[k])) in sheet
  {
    var x := StoryIndex.StoryAt(steps[i], steps[i].userCards[j], steps[i].userCards[j].stories[k]);
    assert StoryIndex.IsStoryOf(steps, x, i, j, k);
    StoryIndex.AllStoriesMembers(steps, x);
    var all := StoryIndex.AllStories(steps);
    var m :| 0 <= m < |all| && all[m] == x;
    assert sheet[m + 1] == StoryLine(x);
  }

  /** The first two columns are never blank: an unnamed step or user shows
      its placeholder. */
  lemma StoryLineNamesNonEmpty(x: StoryIndex.StoryAt)
    ensures StoryLine(x)[0].s != [] && StoryLine(x)[1].s != []
  {
  }

  /** A step without cards, or whose cards hold no stories, has no line in
      this sheet, unlike in the CSV report: the sheet is the one built
      without that step. */
  lemma StorylessStepNoLines(sheet: seq<seq<Cell>>, steps: seq<ProcessStep>, i: nat)
    requires i < |steps| && StoryIndex.CountCardStories(steps[i].userCards) == 0
    ensures IsStoriesSheet(sheet, steps) <==> IsStoriesSheet(sheet, steps[..i] + steps[i + 1..])
  {
    StoryIndex.StorylessStepAddsNothing(steps, i);
  }
}
