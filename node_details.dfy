/**
 * The detail panel of the start ("pre-operational") or end
 * ("post-operational") node: a list of simple cards with a title and a text.
 */
module NodeDetails {
  import opened Wrappers
  import opened ProcessTypes
  import opened ListOps

  /** `addCard`: one card with the fresh id and no title or text goes at the
      end. */
  function AddCard(node: ProcessNode, freshId: string): (r: ProcessNode)
    ensures |r.cards| == |node.cards| + 1
    ensures r.cards[..|node.cards|] == node.cards
    ensures r.cards[|node.cards|] == SimpleCard(freshId, "", "")
  {
    node.(cards := node.cards + [SimpleCard(freshId, "", "")])
  }

  /** The two text fields of a card. */
  datatype CardField = TitleField | TextField

  function SetCardField(c: SimpleCard, f: CardField, value: string): SimpleCard {
    match f
    case TitleField => c.(title := value)
    case TextField => c.(text := value)
  }

  /** `updateCard`: only the named field of the card(s) with that id changes;
      the list keeps its length and order. */
  function UpdateCard(node: ProcessNode, id: string, f: CardField, value: string): (r: ProcessNode)
    ensures |r.cards| == |node.cards|
    ensures forall i :: 0 <= i < |node.cards| && node.cards[i].id != id ==> r.cards[i] == node.cards[i]
    ensures forall i :: 0 <= i < |node.cards| && node.cards[i].id == id ==>
              r.cards[i] == SetCardField(node.cards[i], f, value)
  {
    node.(cards := MapWhere(node.cards, (c: SimpleCard) => c.id == id,
                            (c: SimpleCard) => SetCardField(c, f, value)))
  }

  /** `deleteCard`: once confirmed, every card with that id goes and the rest
      keep their order; a refused confirmation emits nothing. */
  function DeleteCard(node: ProcessNode, id: string, confirmed: bool): (r: Option<ProcessNode>)
    ensures r.Some? <==> confirmed
    ensures r.Some? ==> r.value.(cards := node.cards) == node
    ensures r.Some? ==> forall c :: c in r.value.cards <==> c in node.cards && c.id != id
  {
    if confirmed then Some(node.(cards := Filter(node.cards, (c: SimpleCard) => c.id != id))) else None
  }

  /** A card just added can be deleted again, leaving the node as it was,
      provided its id was really fresh. */
  lemma {:induction false} DeleteAddedCard(node: ProcessNode, freshId: string)
    requires forall c :: c in node.cards ==> c.id != freshId
    ensures DeleteCard(AddCard(node, freshId), freshId, true) == Some(node)
  {
    var p := (c: SimpleCard) => c.id != freshId;
    var added := AddCard(node, freshId);
    FilterAppend(node.cards, [SimpleCard(freshId, "", "")], p);
    FilterAll(node.cards, p);
    FilterCons(SimpleCard(freshId, "", ""), [], p);
    assert Filter(added.cards, p) == node.cards;
  }
}
