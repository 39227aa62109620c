/**
 * The card of one user (or role) and its stories: at most five stories,
 * each with a text and a priority. The card's handlers return the new card
 * they hand to `onUpdate`.
 */
module UserStoryCard {
  import opened ProcessTypes
  import opened ListOps

  /** A card takes no more than this many stories. */
  const MaxStories: nat := 5

  /** The "add story" button is rendered only while the card has room. */
  predicate CanAddStory(card: UserCard) {
    |card.stories| < MaxStories
  }

  /** `addStory`: a card that is full is left alone; otherwise one story, with
      the fresh id, no text and priority 'Essencial', goes at the end. */
  function AddStory(card: UserCard, freshId: string): (r: UserCard)
    ensures |card.stories| >= MaxStories ==> r == card
    ensures |card.stories| < MaxStories ==>
              && r.id == card.id && r.userName == card.userName
              && |r.stories| == |card.stories| + 1
              && r.stories[..|card.stories|] == card.stories
              && r.stories[|card.stories|] == UserStory(freshId, "", Essencial)
  {
    if |card.stories| >= MaxStories then card
    else card.(stories := card.stories + [UserStory(freshId, "", Essencial)])
  }

  /** Adding never takes a card past five stories, and adds exactly when the
      button offering it is shown. */
  lemma AddStoryCapped(card: UserCard, freshId: string)
    requires |card.stories| <= MaxStories
    ensures |AddStory(card, freshId).stories| <= MaxStories
    ensures AddStory(card, freshId) != card <==> CanAddStory(card)
  {
  }

  /** The two fields of a story the card lets the user edit. */
  datatype StoryEdit = EditText(text: string) | EditPriority(priority: StoryPriority)

  function ApplyEdit(s: UserStory, e: StoryEdit): UserStory {
    match e
    case EditText(t) => s.(text := t)
    case EditPriority(p) => s.(priority := p)
  }

  /** `updateStory`: the named field of the stories with that id is set;
      every other story, and every other field, is kept in place. */
  function UpdateStory(card: UserCard, storyId: string, e: StoryEdit): (r: UserCard)
    ensures r.id == card.id && r.userName == card.userName
    ensures |r.stories| == |card.stories|
    ensures forall i :: 0 <= i < |card.stories| && card.stories[i].id != storyId ==>
              r.stories[i] == card.stories[i]
    ensures forall i :: 0 <= i < |card.stories| && card.stories[i].id == storyId ==>
              r.stories[i] == ApplyEdit(card.stories[i], e)
  {
    card.(stories := MapWhere(card.stories, (s: UserStory) => s.id == storyId,
                              (s: UserStory) => ApplyEdit(s, e)))
  }

  /** An edit keeps the story's id, so the same edit again changes nothing. */
  lemma UpdateStoryIdempotent(card: UserCard, storyId: string, e: StoryEdit)
    ensures UpdateStory(UpdateStory(card, storyId, e), storyId, e) == UpdateStory(card, storyId, e)
  {
    var once := UpdateStory(card, storyId, e);
    var twice := UpdateStory(once, storyId, e);
    assert twice.stories == once.stories;
  }

  /** `removeStory`: every story with that id goes, at once and without
      confirmation; the others keep their order. */
  function RemoveStory(card: UserCard, storyId: string): (r: UserCard)
    ensures r.id == card.id && r.userName == card.userName
    ensures forall s :: s in r.stories <==> s in card.stories && s.id != storyId
    ensures |r.stories| <= |card.stories|
  {
    card.(stories := Filter(card.stories, (s: UserStory) => s.id != storyId))
  }

  /** Removing a story frees room, so the add button is offered again. */
  lemma RemoveStoryFreesRoom(card: UserCard, storyId: string)
    requires |card.stories| <= MaxStories
    requires exists s :: s in card.stories && s.id == storyId
    ensures CanAddStory(RemoveStory(card, storyId))
  {
    var s :| s in card.stories && s.id == storyId;
    FilterShrinks(card.stories, (t: UserStory) => t.id != storyId, s);
  }

  /** `PRIORITY_COLORS`: a badge style for every priority, a different one
      for each. */
  function PriorityColor(p: StoryPriority): (r: string)
    ensures r != []
  {
    match p
    case Essencial => "bg-red-100 text-red-700 border-red-200"
    case DeveriaTer => "bg-yellow-100 text-yellow-700 border-yellow-200"
    case PoderiaTer => "bg-slate-100 text-slate-700 border-slate-200"
  }

  lemma PriorityColorsDistinct(p: StoryPriority, q: StoryPriority)
    requires p != q
    ensures PriorityColor(p) != PriorityColor(q)
  {
  }
}
