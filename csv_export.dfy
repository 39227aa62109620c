/**
 * The CSV report: one row per user story, with a fallback row for a step
 * without user cards and for a card without stories, every row starting
 * with the five cells that describe its step. The rows are pushed by three
 * nested loops; `Rows` is their specification.
 */
module CsvExport {
  import opened ProcessTypes
  import opened ExportRows
  import StoryIndex
  import CsvText
  import Wrappers

  const Header: seq<Cell> := [Str("Ordem"), Str("Etapa"), Str("Cenario Atual"), Str("Cenario Futuro"),
                              Str("Status"), Str("Usuario"), Str("Prioridade"), Str("Historia")]

  /** `[...stepInfo, card.userName, story.priority, story.text]` */
  function StoryRow(info: seq<Cell>, card: UserCard, story: UserStory): (r: seq<Cell>)
    ensures |r| == |info| + 3
  {
    info + [Str(card.userName), Str(PriorityName(story.priority)), Str(story.text)]
  }

  /** A story's row holds the step's cells, then the user, the priority's
      name and the story's text, in that order. */
  lemma StoryRowCells(info: seq<Cell>, card: UserCard, story: UserStory)
    ensures StoryRow(info, card, story)[..|info|] == info
    ensures StoryRow(info, card, story)[|info|] == Str(card.userName)
    ensures StoryRow(info, card, story)[|info| + 1] == Str(PriorityName(story.priority))
    ensures StoryRow(info, card, story)[|info| + 2] == Str(story.text)
  {
  }

  /** The rows of one card: one per story, or a single row with the user's
      name and two empty cells when it has none. */
  function CardRows(info: seq<Cell>, card: UserCard): (r: seq<seq<Cell>>)
    ensures |r| == if card.stories == [] then 1 else |card.stories|
  {
    if card.stories == [] then [info + [Str(card.userName), Str(""), Str("")]]
    else seq(|card.stories|, k requires 0 <= k < |card.stories| => StoryRow(info, card, card.stories[k]))
  }

  /** The rows of the first cards of a step, card after card. */
  function CardsRows(info: seq<Cell>, cards: seq<UserCard>): seq<seq<Cell>>
    decreases |cards|
  {
    if cards == [] then []
    else CardsRows(info, cards[..|cards| - 1]) + CardRows(info, cards[|cards| - 1])
  }

  /** The rows of step `i`: a single row with three empty cells when it has
      no cards. */
  function StepRows(step: ProcessStep, i: nat): (r: seq<seq<Cell>>)
    ensures |r| == StepRowCount(step) && r != []
  {
    var info := StepSummary(step, i);
    assert step.userCards != [] ==> |CardsRows(info, step.userCards)| == CardsRowCount(step.userCards) >= 1 by {
      if step.userCards != [] {
        CardsRowsCount(info, step.userCards);
        CardsRowCountPositive(step.userCards);
      }
    }
    if step.userCards == [] then [info + [Str(""), Str(""), Str("")]]
    else CardsRows(info, step.userCards)
  }

  /** The rows of the first steps; step `k` of `steps` is numbered `k + 1`. */
  function StepsRows(steps: seq<ProcessStep>): seq<seq<Cell>>
    decreases |steps|
  {
    if steps == [] then []
    else StepsRows(steps[..|steps| - 1]) + StepRows(steps[|steps| - 1], |steps| - 1)
  }

  /** The whole table: the header, then the rows of every step. */
  function Rows(steps: seq<ProcessStep>): (r: seq<seq<Cell>>)
    ensures r != [] && r[0] == Header
    ensures |r| >= 1 + |steps| && |r| >= 1 + StoryIndex.CountStories(steps)
  {
    StepsRowsCount(steps);
    RowCountBounds(steps);
    [Header] + StepsRows(steps)
  }

  // ---------------------------------------------------------------------
  // The loops

  /** `exportToCSV`'s row building: for each step its rows, after the header. */
  method BuildRows(steps: seq<ProcessStep>) returns (rows: seq<seq<Cell>>)
    ensures rows == Rows(steps)
  {
    var acc := [];
    for i := 0 to |steps|
      invariant acc == StepsRows(steps[..i])
    {
      StepsRowsSnoc(steps, i);
      var more := PushStepRows(steps[i], i);
      acc := acc + more;
    }
    assert steps[..|steps|] == steps;
    rows := [Header] + acc;
  }

  /** The body of the step loop: the fallback row, or the rows of each card. */
  method PushStepRows(step: ProcessStep, i: nat) returns (rows: seq<seq<Cell>>)
    ensures rows == StepRows(step, i)
  {
    var info := StepSummary(step, i);
    if |step.userCards| == 0 {
      rows := [info + [Str(""), Str(""), Str("")]];
    } else {
      rows := [];
      for j := 0 to |step.userCards|
        invariant rows == CardsRows(info, step.userCards[..j])
      {
        CardsRowsSnoc(info, step.userCards, j);
        var more := PushCardRows(info, step.userCards[j]);
        rows := rows + more;
      }
      assert step.userCards[..|step.userCards|] == step.userCards;
    }
  }

  /** The body of the card loop: the fallback row, or one row per story. */
  method PushCardRows(info: seq<Cell>, card: UserCard) returns (rows: seq<seq<Cell>>)
    ensures rows == CardRows(info, card)
  {
    if |card.stories| == 0 {
      rows := [info + [Str(card.userName), Str(""), Str("")]];
    } else {
      rows := [];
      for k := 0 to |card.stories|
        invariant |rows| == k
        invariant forall m :: 0 <= m < k ==> rows[m] == StoryRow(info, card, card.stories[m])
      {
        rows := rows + [StoryRow(info, card, card.stories[k])];
      }
    }
  }

  lemma StepsRowsSnoc(steps: seq<ProcessStep>, i: nat)
    requires i < |steps|
    ensures StepsRows(steps[..i + 1]) == StepsRows(steps[..i]) + StepRows(steps[i], i)
  {
    assert steps[..i + 1][..i] == steps[..i];
  }

  lemma CardsRowsSnoc(info: seq<Cell>, cards: seq<UserCard>, j: nat)
    requires j < |cards|
    ensures CardsRows(info, cards[..j + 1]) == CardsRows(info, cards[..j]) + CardRows(info, cards[j])
  {
    assert cards[..j + 1][..j] == cards[..j];
  }

  // ---------------------------------------------------------------------
  // What the table holds

  /** Every row, the header included, has eight cells. */
  lemma {:induction false} RowsWidth(steps: seq<ProcessStep>)
    ensures forall row :: row in Rows(steps) ==> |row| == 8
  {
    StepsRowsShape(steps);
  }

  /** Every data row has eight cells. */
  lemma {:induction false} StepsRowsShape(steps: seq<ProcessStep>)
    ensures forall row :: row in StepsRows(steps) ==> |row| == 8
    decreases |steps|
  {
    if steps != [] {
      var n := |steps| - 1;
      StepsRowsShape(steps[..n]);
      StepRowsShape(steps[n], n);
    }
  }

  /** The rows of one step all start with that step's five cells. */
  lemma StepRowsShape(step: ProcessStep, i: nat)
    ensures forall row :: row in StepRows(step, i) ==> |row| == 8 && row[..5] == StepSummary(step, i)
  {
    var info := StepSummary(step, i);
    if step.userCards != [] {
      CardsRowsShape(info, step.userCards);
    } else {
      assert (info + [Str(""), Str(""), Str("")])[..5] == info;
    }
  }

  lemma {:induction false} CardsRowsShape(info: seq<Cell>, cards: seq<UserCard>)
    requires |info| == 5
    ensures forall row :: row in CardsRows(info, cards) ==> |row| == 8 && row[..5] == info
    decreases |cards|
  {
    if cards != [] {
      CardsRowsShape(info, cards[..|cards| - 1]);
      var card := cards[|cards| - 1];
      forall row | row in CardRows(info, card) ensures |row| == 8 && row[..5] == info {
        if card.stories == [] {
          assert row == info + [Str(card.userName), Str(""), Str("")];
        } else {
          var k :| 0 <= k < |card.stories| && CardRows(info, card)[k] == row;
          assert row == info + [Str(card.userName), Str(PriorityName(card.stories[k].priority)), Str(card.stories[k].text)];
        }
      }
    }
  }

  /** The number of rows of a step: one per story of each card, a card
      without stories counting one, and at least one for the step. */
  function StepRowCount(step: ProcessStep): nat {
    Max1(CardsRowCount(step.userCards))
  }

  function CardsRowCount(cards: seq<UserCard>): nat
    decreases |cards|
  {
    if cards == [] then 0 else CardsRowCount(cards[..|cards| - 1]) + Max1(|cards[|cards| - 1].stories|)
  }

  function StepsRowCount(steps: seq<ProcessStep>): nat
    decreases |steps|
  {
    if steps == [] then 0 else StepsRowCount(steps[..|steps| - 1]) + StepRowCount(steps[|steps| - 1])
  }

  function Max1(n: nat): nat {
    if n == 0 then 1 else n
  }

  /** The table has 1 + Σ over steps of max(1, Σ over cards of
      max(1, number of stories)) rows. */
  lemma {:induction false} RowCount(steps: seq<ProcessStep>)
    ensures |Rows(steps)| == 1 + StepsRowCount(steps)
    decreases |steps|
  {
    StepsRowsCount(steps);
  }

  lemma {:induction false} StepsRowsCount(steps: seq<ProcessStep>)
    ensures |StepsRows(steps)| == StepsRowCount(steps)
    decreases |steps|
  {
    if steps != [] {
      var n := |steps| - 1;
      StepsRowsCount(steps[..n]);
      var step := steps[n];
      if step.userCards != [] {
        CardsRowsCount(StepSummary(step, n), step.userCards);
        CardsRowCountPositive(step.userCards);
      }
    }
  }

  lemma {:induction false} CardsRowsCount(info: seq<Cell>, cards: seq<UserCard>)
    ensures |CardsRows(info, cards)| == CardsRowCount(cards)
    decreases |cards|
  {
    if cards != [] {
      CardsRowsCount(info, cards[..|cards| - 1]);
    }
  }

  lemma {:induction false} CardsRowCountPositive(cards: seq<UserCard>)
    requires cards != []
    ensures CardsRowCount(cards) >= 1
  {
  }

  /** Every step has at least one row, and every story one of its own. */
  lemma {:induction false} RowCountBounds(steps: seq<ProcessStep>)
    ensures StepsRowCount(steps) >= |steps|
    ensures StepsRowCount(steps) >= StoryIndex.CountStories(steps)
    decreases |steps|
  {
    if steps != [] {
      var n := |steps| - 1;
      RowCountBounds(steps[..n]);
      CardsRowCountBound(steps[n].userCards);
    }
  }

  lemma {:induction false} CardsRowCountBound(cards: seq<UserCard>)
    ensures CardsRowCount(cards) >= StoryIndex.CountCardStories(cards)
    decreases |cards|
  {
    if cards != [] {
      CardsRowCountBound(cards[..|cards| - 1]);
    }
  }

  /** Story `k` of card `j` of step `i` has its row: the step's cells, the
      user, the priority and the text. */
  lemma {:induction false} StoryRowPresent(steps: seq<ProcessStep>, i: nat, j: nat, k: nat)
    requires i < |steps| && j < |steps[i].userCards| && k < |steps[i].userCards[j].stories|
    ensures StoryRow(StepSummary(steps[i], i), steps[i].userCards[j], steps[i].userCards[j].stories[k]) in Rows(steps)
  {
    var step := steps[i];
    var card := step.userCards[j];
    var info := StepSummary(step, i);
    var row := StoryRow(info, card, card.stories[k]);
    assert row in CardRows(info, card) by {
      assert CardRows(info, card)[k] == row;
    }
    CardRowsInCardsRows(info, step.userCards, j);
    StepRowsInStepsRows(steps, i);
  }

  lemma {:induction false} CardRowsInCardsRows(info: seq<Cell>, cards: seq<UserCard>, j: nat)
    requires j < |cards|
    ensures Contained(CardRows(info, cards[j]), CardsRows(info, cards))
    decreases |cards|
  {
    var n := |cards| - 1;
    var front, last := cards[..n], cards[n];
    var before, mine := CardsRows(info, front), CardRows(info, last);
    CardsRowsLast(info, cards);
    if j < n {
      CardRowsInCardsRows(info, front, j);
      assert front[j] == cards[j];
      ContainedAppend(CardRows(info, cards[j]), before, mine);
    } else {
      ContainedSuffix(before, mine);
    }
  }

  lemma CardsRowsLast(info: seq<Cell>, cards: seq<UserCard>)
    requires cards != []
    ensures CardsRows(info, cards) == CardsRows(info, cards[..|cards| - 1]) + CardRows(info, cards[|cards| - 1])
  {
  }

  lemma StepRowsInStepsRows(steps: seq<ProcessStep>, i: nat)
    requires i < |steps|
    ensures Contained(StepRows(steps[i], i), Rows(steps))
  {
    StepRowsInPrefix(steps, i, |steps|);
    assert steps[..|steps|] == steps;
  }

  /** The rows of step `i` are among those of the first `n` steps, `i < n`. */
  lemma {:induction false} StepRowsInPrefix(steps: seq<ProcessStep>, i: nat, n: nat)
    requires i < n <= |steps|
    ensures Contained(StepRows(steps[i], i), [Header] + StepsRows(steps[..n]))
    decreases n
  {
    StepsRowsSnoc(steps, n - 1);
    assert [Header] + StepsRows(steps[..n]) == [Header] + StepsRows(steps[..n - 1]) + StepRows(steps[n - 1], n - 1);
    if i < n - 1 {
      StepRowsInPrefix(steps, i, n - 1);
      ContainedAppend(StepRows(steps[i], i), [Header] + StepsRows(steps[..n - 1]), StepRows(steps[n - 1], n - 1));
    } else {
      ContainedSuffix([Header] + StepsRows(steps[..n - 1]), StepRows(steps[n - 1], n - 1));
    }
  }

  /** Every row of `xs` is a row of `ys`. */
  ghost predicate Contained(xs: seq<seq<Cell>>, ys: seq<seq<Cell>>) {
    forall row :: row in xs ==> row in ys
  }

  lemma ContainedAppend(xs: seq<seq<Cell>>, ys: seq<seq<Cell>>, zs: seq<seq<Cell>>)
    requires Contained(xs, ys)
    ensures Contained(xs, ys + zs)
  {
  }

  lemma ContainedSuffix(ys: seq<seq<Cell>>, zs: seq<seq<Cell>>)
    ensures Contained(zs, ys + zs)
  {
  }


  /** A step without cards still gets its row, ending in three empty cells. */
  lemma StepWithoutCards(steps: seq<ProcessStep>, i: nat)
    requires i < |steps| && steps[i].userCards == []
    ensures StepSummary(steps[i], i) + [Str(""), Str(""), Str("")] in Rows(steps)
  {
    StepRowsInStepsRows(steps, i);
  }

  /** A card without stories still gets its row, with the user's name and
      two empty cells. */
  lemma CardWithoutStories(steps: seq<ProcessStep>, i: nat, j: nat)
    requires i < |steps| && j < |steps[i].userCards| && steps[i].userCards[j].stories == []
    ensures StepSummary(steps[i], i) + [Str(steps[i].userCards[j].userName), Str(""), Str("")] in Rows(steps)
  {
    CardRowsInCardsRows(StepSummary(steps[i], i), steps[i].userCards, j);
    StepRowsInStepsRows(steps, i);
  }

  // ---------------------------------------------------------------------
  // The text of the file

  /** `String(cell)` for every cell of every row. */
  function TextRows(rows: seq<seq<Cell>>): (r: seq<seq<string>>)
    ensures |r| == |rows|
    ensures forall k :: 0 <= k < |r| ==>
              |r[k]| == |rows[k]| && (forall m :: 0 <= m < |r[k]| ==> r[k][m] == CellText(rows[k][m]))
  {
    seq(|rows|, k requires 0 <= k < |rows| =>
      seq(|rows[k]|, m requires 0 <= m < |rows[k]| => CellText(rows[k][m])))
  }

  /** `csvContent`: the rows, each cell quoted, joined by commas and line
      feeds. */
  function CsvContent(steps: seq<ProcessStep>): (r: string)
    ensures CsvText.ParseRows(r) == Wrappers.Some(TextRows(Rows(steps)))
  {
    var rows := Rows(steps);
    var text := TextRows(rows);
    RowsWidth(steps);
    assert forall k :: 0 <= k < |text| ==> text[k] != [] by {
      forall k | 0 <= k < |text| ensures text[k] != [] {
        assert rows[k] in rows;
      }
    }
    CsvText.ContentRoundTrip(text);
    CsvText.Content(text)
  }
}
