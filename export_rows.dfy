/**
 * What the spreadsheet and the CSV report have in common: the five cells
 * that describe a step, the cell values they are written with, and the
 * file names of the reports.
 */
module ExportRows {
  import opened ProcessTypes
  import Text

  /** A spreadsheet cell: the order column is a number, the rest is text. */
  datatype Cell = Num(n: nat) | Str(s: string)

  /** `String(cell)`: how a cell reads as text. */
  function CellText(c: Cell): (r: string)
    ensures c.Str? ==> r == c.s
    ensures c.Num? ==> (forall i :: 0 <= i < |r| ==> '0' <= r[i] <= '9') && Text.DecimalValue(r) == c.n
  {
    match c
    case Str(s) => s
    case Num(n) => Text.NatToStringRoundTrip(n); Text.NatToString(n)
  }

  const KeepCurrent: string := "MANTER PROCESSO ATUAL"
  const Unchanged: string := "Sem Alteração"
  const Improved: string := "Com Melhoria"

  /** `[i + 1, name, currentScenario, future, status]`: a step marked "no
      improvement" keeps its current process, any other shows its future
      scenario. */
  function StepSummary(step: ProcessStep, i: nat): (r: seq<Cell>)
    ensures |r| == 5
    ensures r[0] == Num(i + 1) && r[1] == Str(step.name) && r[2] == Str(step.currentScenario)
    ensures step.noImprovement ==> r[3] == Str(KeepCurrent) && r[4] == Str(Unchanged)
    ensures !step.noImprovement ==> r[3] == Str(step.futureScenario) && r[4] == Str(Improved)
  {
    [ Num(i + 1),
      Str(step.name),
      Str(step.currentScenario),
      Str(if step.noImprovement then KeepCurrent else step.futureScenario),
      Str(if step.noImprovement then Unchanged else Improved) ]
  }

  /** The status column tells the two kinds of step apart. */
  lemma StatusDistinguishes(a: ProcessStep, b: ProcessStep, i: nat, j: nat)
    ensures StepSummary(a, i)[4] == StepSummary(b, j)[4] <==> a.noImprovement == b.noImprovement
  {
  }

  /** `RELATORIO_<title with each run of white space replaced by '_'>.<ext>` */
  function ReportFileName(title: string, ext: string): (r: string)
    ensures |r| == 11 + |Text.ReplaceSpaceRuns(title)| + |ext|
    ensures r[..10] == "RELATORIO_" && r[|r| - |ext| - 1..] == "." + ext
    ensures r[10..|r| - |ext| - 1] == Text.ReplaceSpaceRuns(title)
    ensures Text.NoSpace(r[10..|r| - |ext| - 1])
  {
    var stem := Text.ReplaceSpaceRuns(title);
    var r := "RELATORIO_" + stem + "." + ext;
    assert r[10..|r| - |ext| - 1] == stem;
    assert r[|r| - |ext| - 1..] == "." + ext;
    r
  }

  /** A title of words separated by single white space characters becomes
      the words separated by single underscores. */
  lemma {:induction false} WordsJoined(w: string, sp: char, rest: string)
    requires Text.NoSpace(w) && Text.IsSpace(sp)
    requires rest == [] || !Text.IsSpace(rest[0])
    ensures Text.ReplaceSpaceRuns(w + [sp] + rest) == w + "_" + Text.ReplaceSpaceRuns(rest)
  {
    var tail := [sp] + rest;
    var x := Text.ReplaceSpaceRuns(rest);
    Text.ReplaceSpaceRunsWord(w, tail);
    SingleSpace(sp, rest);
    assert w + [sp] + rest == w + tail;
    assert w + ("_" + x) == w + "_" + x;
  }

  lemma SingleSpace(sp: char, rest: string)
    requires Text.IsSpace(sp)
    requires rest == [] || !Text.IsSpace(rest[0])
    ensures Text.ReplaceSpaceRuns([sp] + rest) == "_" + Text.ReplaceSpaceRuns(rest)
  {
    assert Text.AllSpace([sp]);
    Text.ReplaceSpaceRunsRun([sp], rest);
  }
}
