/**
 * The "type a line, press add" pattern shared by the requirement, rule,
 * risk and input/output editors: the typed text is trimmed and appended
 * only when something is left of it.
 */
module ListInput {
  import opened Wrappers
  import opened ListOps
  import Text

  /** `if (text.trim()) onChange([...items, text.trim()])`: `None` when the
      text is blank and nothing is emitted. */
  function AppendTrimmed(items: seq<string>, text: string): (r: Option<seq<string>>)
    ensures r.None? <==> Text.AllSpace(text)
    ensures r.Some? ==> r.value == items + [Text.Trim(text)]
    ensures r.Some? ==> |r.value| == |items| + 1 && r.value[..|items|] == items
    ensures r.Some? ==> var added := r.value[|items|];
              added != [] && !Text.IsSpace(added[0]) && !Text.IsSpace(added[|added| - 1])
              && |added| <= |text|
  {
    var t := Text.Trim(text);
    if t == [] then None else Some(items + [t])
  }

  /** The added line is the typed text trimmed, so adding it again changes
      nothing about that line: re-trimming is a no-op. */
  lemma AppendTrimmedStable(items: seq<string>, text: string)
    requires !Text.AllSpace(text)
    ensures var r := AppendTrimmed(items, text).value;
            AppendTrimmed(items, r[|items|]) == Some(r)
  {
    Text.TrimIdempotent(text);
  }

  /** Removing the line just added, by its position, restores the list. */
  lemma AppendThenRemove(items: seq<string>, text: string)
    requires !Text.AllSpace(text)
    ensures RemoveAt(AppendTrimmed(items, text).value, |items|) == items
  {
  }
}
