/**
 * The DEIP canvas: the four category sections around the timeline, each
 * listing the items of its category, with an "add" button per section; and
 * the mapping from a clicked timeline element to what gets selected.
 */
module DeipLayout {
  import opened ProcessTypes
  import opened ListOps

  /** `getItems(category)`: the items of that category, in document order. */
  function GetItems(items: seq<DeipItem>, c: DeipCategory): (r: seq<DeipItem>)
    ensures forall x :: x in r <==> x in items && x.category == c
    ensures |r| <= |items|
  {
    Filter(items, (i: DeipItem) => i.category == c)
  }

  /** The four sections together show every item exactly once. */
  lemma {:induction false} GetItemsPartition(items: seq<DeipItem>)
    ensures multiset(items) == Sections(items)
    ensures |items| == |GetItems(items, Policies)| + |GetItems(items, Inputs)|
                     + |GetItems(items, Outputs)| + |GetItems(items, Resources)|
    decreases |items|
  {
    if items != [] {
      var x, rest := items[0], items[1..];
      assert items == [x] + rest;
      GetItemsPartition(rest);
      SectionsCons(x, rest);
    }
  }

  /** The items of the four sections, pooled. */
  ghost function Sections(items: seq<DeipItem>): multiset<DeipItem> {
    multiset(GetItems(items, Policies)) + multiset(GetItems(items, Inputs))
    + multiset(GetItems(items, Outputs)) + multiset(GetItems(items, Resources))
  }

  lemma SectionsCons(x: DeipItem, rest: seq<DeipItem>)
    ensures Sections([x] + rest) == multiset{x} + Sections(rest)
  {
    var items := [x] + rest;
    var c := x.category;
    GetItemsCons(x, rest, c);
    assert multiset(GetItems(items, c)) == multiset{x} + multiset(GetItems(rest, c));
    forall d | d != c ensures GetItems(items, d) == GetItems(rest, d) {
      GetItemsCons(x, rest, d);
    }
    AddToSection(multiset{x}, c,
      multiset(GetItems(rest, Policies)), multiset(GetItems(rest, Inputs)),
      multiset(GetItems(rest, Outputs)), multiset(GetItems(rest, Resources)),
      multiset(GetItems(items, Policies)), multiset(GetItems(items, Inputs)),
      multiset(GetItems(items, Outputs)), multiset(GetItems(items, Resources)));
  }

  /** Adding to one of four sections adds to their pool. */
  lemma AddToSection(one: multiset<DeipItem>, c: DeipCategory,
                     p: multiset<DeipItem>, i: multiset<DeipItem>, o: multiset<DeipItem>, r: multiset<DeipItem>,
                     p': multiset<DeipItem>, i': multiset<DeipItem>, o': multiset<DeipItem>, r': multiset<DeipItem>)
    requires p' == (if c == Policies then one + p else p)
    requires i' == (if c == Inputs then one + i else i)
    requires o' == (if c == Outputs then one + o else o)
    requires r' == (if c == Resources then one + r else r)
    ensures p' + i' + o' + r' == one + (p + i + o + r)
  {
  }

  lemma GetItemsCons(x: DeipItem, rest: seq<DeipItem>, c: DeipCategory)
    ensures GetItems([x] + rest, c) == (if x.category == c then [x] else []) + GetItems(rest, c)
  {
    FilterCons(x, rest, (i: DeipItem) => i.category == c);
  }

  /** `addItem(category)`: the new list handed to `onUpdateDeipItems`, with
      one item of that category, no title or description and no attention
      flag at the end. */
  function AddItem(items: seq<DeipItem>, c: DeipCategory, freshId: string): (r: seq<DeipItem>)
    ensures |r| == |items| + 1
    ensures r[..|items|] == items
    ensures r[|items|] == DeipItem(freshId, c, "", "", false)
  {
    items + [DeipItem(freshId, c, "", "", false)]
  }

  /** Adding an item grows its own section by one and no other. */
  lemma {:induction false} AddItemCounts(items: seq<DeipItem>, c: DeipCategory, d: DeipCategory, freshId: string)
    ensures |GetItems(AddItem(items, c, freshId), d)| == |GetItems(items, d)| + (if c == d then 1 else 0)
  {
    FilterAppend(items, [DeipItem(freshId, c, "", "", false)], (i: DeipItem) => i.category == d);
  }

  /** The timeline's `onSelectStep`: the two end nodes are selected by the
      reserved ids 'START' and 'END', any other id is a step. */
  function TimelineSelection(id: string): (r: SelectedType)
    ensures r == StartSelected <==> id == "START"
    ensures r == EndSelected <==> id == "END"
    ensures r == StepSelected <==> id != "START" && id != "END"
    ensures r != DeipSelected
  {
    if id == "START" then StartSelected else if id == "END" then EndSelected else StepSelected
  }
}
