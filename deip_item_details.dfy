/**
 * The detail panel of one DEIP item (a policy, input, output or resource):
 * its category label and colour, the attention toggle and the two text
 * fields.
 */
module DeipItemDetails {
  import opened ProcessTypes

  /** `getCategoryLabel(cat)`: a `switch` on the category's text, with a
      default for any other text. */
  function CategoryLabel(cat: string): (r: string)
    ensures ParseCategory(cat).None? ==> r == "Item"
    ensures ParseCategory(cat).Some? ==> r != "Item"
  {
    if cat == "policies" then "Política / Regra / Padrão"
    else if cat == "inputs" then "Entrada / Premissa"
    else if cat == "outputs" then "Saída / Entrega"
    else if cat == "resources" then "Recurso / Suporte"
    else "Item"
  }

  /** Each category has a label of its own. */
  lemma CategoryLabelsDistinct(c: DeipCategory, d: DeipCategory)
    requires c != d
    ensures CategoryLabel(CategoryName(c)) != CategoryLabel(CategoryName(d))
  {
  }

  /** `getColorClass(cat)`. Policies use the same colour as the default. */
  function ColorClass(cat: string): (r: string)
    ensures cat != "inputs" && cat != "outputs" && cat != "resources" ==> r == "text-slate-600"
  {
    if cat == "policies" then "text-slate-600"
    else if cat == "inputs" then "text-green-600"
    else if cat == "outputs" then "text-blue-600"
    else if cat == "resources" then "text-amber-600"
    else "text-slate-600"
  }

  /** Inputs, outputs and resources each have their own colour, none of
      them the default one. */
  lemma ColorClassesDistinct(c: DeipCategory, d: DeipCategory)
    requires c != d && c != Policies && d != Policies
    ensures ColorClass(CategoryName(c)) != ColorClass(CategoryName(d))
    ensures ColorClass(CategoryName(c)) != "text-slate-600"
  {
  }

  /** The attention button: `{ ...item, attention: !item.attention }`. */
  function ToggleAttention(item: DeipItem): (r: DeipItem)
    ensures r.attention != item.attention
    ensures r.id == item.id && r.category == item.category
    ensures r.title == item.title && r.description == item.description
  {
    item.(attention := !item.attention)
  }

  /** Pressing the button twice restores the item. */
  lemma ToggleAttentionTwice(item: DeipItem)
    ensures ToggleAttention(ToggleAttention(item)) == item
  {
  }

  /** The title editor: only the title changes. */
  function SetTitle(item: DeipItem, value: string): (r: DeipItem)
    ensures r.title == value
    ensures r.id == item.id && r.category == item.category
    ensures r.description == item.description && r.attention == item.attention
  {
    item.(title := value)
  }

  /** The description editor: only the description changes. */
  function SetDescription(item: DeipItem, value: string): (r: DeipItem)
    ensures r.description == value
    ensures r.id == item.id && r.category == item.category
    ensures r.title == item.title && r.attention == item.attention
  {
    item.(description := value)
  }
}
