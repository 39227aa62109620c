/**
 * The card of one deliverable: the stories of the whole process it can be
 * linked to, the ones it is linked to, and the link toggle.
 */
module DeliverableCard {
  import opened Wrappers
  import opened ProcessTypes
  import opened ListOps
  import opened StoryIndex

  /** An entry of `allStories`: the story's id, text and priority with the
      names of its step and user. */
  datatype StoryRef = StoryRef(storyId: string, text: string, stepName: string, userName: string,
                               priority: StoryPriority)

  function ToRef(x: StoryAt): StoryRef {
    StoryRef(x.story.id, x.story.text, x.step.name, x.card.userName, x.story.priority)
  }

  /** `allStories`: one entry per story of the process, in step, card,
      story order. */
  method AllStoryRefs(data: ProcessImprovement) returns (r: seq<StoryRef>)
    requires data.steps.Some?
    ensures |r| == |AllStories(data.steps.value)|
    ensures forall m :: 0 <= m < |r| ==> r[m] == ToRef(AllStories(data.steps.value)[m])
  {
    r := CollectStories(data.steps.value, ToRef);
  }

  /** Every story of the process is offered, tagged with its own step and
      user, and nothing else is. */
  lemma AllStoryRefsComplete(steps: seq<ProcessStep>, i: nat, j: nat, k: nat)
    requires i < |steps| && j < |steps[i].userCards| && k < |steps[i].userCards[j].stories|
    ensures var card := steps[i].userCards[j];
            var story := card.stories[k];
            StoryRef(story.id, story.text, steps[i].name, card.userName, story.priority)
              in seq(|AllStories(steps)|, m requires 0 <= m < |AllStories(steps)| => ToRef(AllStories(steps)[m]))
  {
    var x := StoryAt(steps[i], steps[i].userCards[j], steps[i].userCards[j].stories[k]);
    assert IsStoryOf(steps, x, i, j, k);
    AllStoriesMembers(steps, x);
    var m :| 0 <= m < |AllStories(steps)| && AllStories(steps)[m] == x;
    var refs := seq(|AllStories(steps)|, m requires 0 <= m < |AllStories(steps)| => ToRef(AllStories(steps)[m]));
    assert refs[m] == ToRef(x);
  }

  /** `linkedStories`: the offered stories whose id the deliverable lists,
      in the order they are offered. */
  function LinkedStories(all: seq<StoryRef>, linkedIds: seq<string>): (r: seq<StoryRef>)
    ensures forall s :: s in r <==> s in all && s.storyId in linkedIds
    ensures |r| <= |all|
  {
    Filter(all, (s: StoryRef) => s.storyId in linkedIds)
  }

  /** An id that names no offered story changes nothing: dangling links are
      simply not shown. */
  lemma DanglingIdIgnored(all: seq<StoryRef>, linkedIds: seq<string>, id: string)
    requires forall s :: s in all ==> s.storyId != id
    ensures LinkedStories(all, linkedIds + [id]) == LinkedStories(all, linkedIds)
  {
    FilterCongruent(all, (s: StoryRef) => s.storyId in linkedIds + [id], (s: StoryRef) => s.storyId in linkedIds);
  }

  /** The new list of linked ids: a listed id is removed (every occurrence),
      any other is appended. */
  function Toggled(ids: seq<string>, id: string): (r: seq<string>)
    ensures id in ids ==> id !in r && forall x :: x in r <==> x in ids && x != id
    ensures id !in ids ==> |r| == |ids| + 1 && r[..|ids|] == ids && r[|ids|] == id
  {
    if id in ids then Filter(ids, (x: string) => x != id) else ids + [id]
  }

  /** `toggleStoryLink`: the list is copied, filtered or pushed onto, and only
      the linked ids of the deliverable change. */
  method ToggleStoryLink(d: Deliverable, storyId: string) returns (r: Deliverable)
    ensures r.id == d.id && r.title == d.title && r.description == d.description
    ensures r.linkedStoryIds == Toggled(d.linkedStoryIds, storyId)
  {
    var newIds := d.linkedStoryIds;
    if storyId in newIds {
      newIds := Filter(newIds, (x: string) => x != storyId);
    } else {
      newIds := newIds + [storyId];
    }
    r := d.(linkedStoryIds := newIds);
  }

  /** Linking a story and unlinking it again restores the list exactly. */
  lemma {:induction false} ToggleTwice(ids: seq<string>, id: string)
    requires id !in ids
    ensures Toggled(Toggled(ids, id), id) == ids
  {
    var p := (x: string) => x != id;
    FilterAppend(ids, [id], p);
    FilterAll(ids, p);
    assert [id][1..] == [];
  }

  /** A list without repeated ids keeps none after a toggle. */
  lemma {:induction false} ToggleKeepsNoDuplicates(ids: seq<string>, id: string)
    requires NoDuplicates(ids)
    ensures NoDuplicates(Toggled(ids, id))
  {
    if id in ids {
      FilterNoDuplicates(ids, (x: string) => x != id);
    } else {
      var r := Toggled(ids, id);
      forall i, j | 0 <= i < j < |r| ensures r[i] != r[j] {
        if j == |ids| {
          assert r[i] == ids[i];
        } else {
          assert r[i] == ids[i] && r[j] == ids[j];
        }
      }
    }
  }

  /** After a toggle the story is linked exactly when it was not before. */
  lemma ToggleFlipsLink(ids: seq<string>, id: string)
    ensures id in Toggled(ids, id) <==> id !in ids
  {
    if id !in ids {
      assert Toggled(ids, id)[|ids|] == id;
    }
  }
}
