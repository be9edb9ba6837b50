/** The static catalog of usage contexts and the selectable cards drawn from it. */
module ContextSelector {

  datatype ContextEntry = ContextEntry(id: string, name: string, description: string, optimizations: seq<string>)

  predicate IdsDistinct(entries: seq<ContextEntry>)
  {
    forall i, j :: 0 <= i < j < |entries| ==> entries[i].id != entries[j].id
  }

  /** The catalog, in display order; the icons are not modelled. */
  function Catalog(): (c: seq<ContextEntry>)
    ensures |c| == 4
    ensures c[0].id == "ecommerce" && c[1].id == "instagram" && c[2].id == "web" && c[3].id == "general"
    ensures IdsDistinct(c)
    ensures forall i :: 0 <= i < |c| ==> c[i].id != "" && |c[i].optimizations| == 3
  {
    [ ContextEntry("ecommerce", "E-commerce", "Otimizado para lojas online e marketplaces",
        ["Alta qualidade", "Compress\U{00E3}o balanceada", "Detalhes preservados"]),
      ContextEntry("instagram", "Instagram", "Perfeito para feeds e stories",
        ["Aspecto 1:1 ou 9:16", "Cores vibrantes", "Tamanho otimizado"]),
      ContextEntry("web", "Website", "Para sites e landing pages",
        ["Carregamento r\U{00E1}pido", "SEO friendly", "Responsivo"]),
      ContextEntry("general", "Geral", "Uso vers\U{00E1}til e equilibrado",
        ["Qualidade alta", "Compress\U{00E3}o eficiente", "Compat\U{00ED}vel"]) ]
  }

  /** One rendered card: the entry's data and whether it is highlighted. */
  datatype Card = Card(entry: ContextEntry, isSelected: bool)

  /** `contexts.map(...)`: one card per entry, in order, selected iff its id equals `selected`. */
  function CardsFor(entries: seq<ContextEntry>, selected: string): (cards: seq<Card>)
    ensures |cards| == |entries|
    ensures forall i :: 0 <= i < |cards| ==>
      cards[i].entry == entries[i] && (cards[i].isSelected <==> entries[i].id == selected)
    decreases |entries|
  {
    if entries == [] then []
    else [Card(entries[0], selected == entries[0].id)] + CardsFor(entries[1..], selected)
  }

  function Cards(selected: string): seq<Card>
  {
    CardsFor(Catalog(), selected)
  }

  /**
   * Clicking catalog card `i`, whatever is selected at the time, reports
   * that card's catalog id. Fed back as the selection, that id highlights
   * card `i` and no other; a click on the card already selected reports
   * the current selection again.
   */
  function OnCardClick(selected: string, i: nat): (id: string)
    requires i < |Catalog()|
    ensures id == Catalog()[i].id && id != ""
    ensures forall j :: 0 <= j < |Catalog()| ==> (Cards(id)[j].isSelected <==> j == i)
    ensures Cards(selected)[i].isSelected ==> id == selected
  {
    Cards(selected)[i].entry.id
  }

  /** With distinct ids at most one card is selected, and none for an id not in the list. */
  lemma AtMostOneSelected(entries: seq<ContextEntry>, selected: string, i: nat, j: nat)
    requires IdsDistinct(entries)
    requires i < |entries| && j < |entries|
    requires CardsFor(entries, selected)[i].isSelected && CardsFor(entries, selected)[j].isSelected
    ensures i == j
  {
  }

  /** The empty selection (the wizard's initial and reset value) highlights no catalog card. */
  lemma EmptySelectionHighlightsNothing(i: nat)
    requires i < 4
    ensures !Cards("")[i].isSelected
  {
  }

  /**
   * From any selection, clicking card `i` and feeding its id back highlights
   * exactly card `i`: a first click, a change of card and a re-click alike.
   */
  lemma ClickSelectsExactlyThatCard(selected: string, i: nat, j: nat)
    requires i < 4 && j < 4
    ensures Cards(OnCardClick(selected, i))[j].isSelected <==> i == j
  {
  }

  /** Re-clicking the selected card reports the same id and leaves the highlighting as it was. */
  lemma ReclickKeepsSelection(selected: string, i: nat)
    requires i < 4 && Cards(selected)[i].isSelected
    ensures OnCardClick(selected, i) == selected
    ensures Cards(OnCardClick(selected, i)) == Cards(selected)
  {
  }
}
