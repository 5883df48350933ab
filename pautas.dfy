/** The topics-analysis tab: the mentions table with its sentiment badges and
    page buttons, and the entity filter that narrows the mentions. */
module Pautas {
  import opened Common
  import opened AnalyticsService

  /** The badge variants the table uses. */
  datatype BadgeVariant = Success | Destructive | Secondary

  /** `sentimentVariant`: green for positive, red for negative, grey for
      anything else. */
  function SentimentVariant(sentiment: string): (v: BadgeVariant)
    ensures v == Success <==> sentiment == "positivo"
    ensures v == Destructive <==> sentiment == "negativo"
    ensures v == Secondary <==> sentiment != "positivo" && sentiment != "negativo"
  {
    if sentiment == "positivo" then Success
    else if sentiment == "negativo" then Destructive
    else Secondary
  }

  /** "Anterior" is disabled exactly on the first page. */
  predicate PreviousDisabled(page: int) { page == 1 }

  /** "Próxima" is disabled only when the page equals `total_pages`; there is
      no upper-bound check otherwise. */
  predicate NextDisabled(page: int, totalPages: int) { page == totalPages }

  /** The description above the table. */
  function FilterDescription(selectedEntity: Option<string>): (d: string)
    ensures selectedEntity.Some? && selectedEntity.value != "" ==>
              d == "Mostrando menções para a entidade: \"" + selectedEntity.value + "\""
    ensures selectedEntity.None? || selectedEntity.value == "" ==> d == "Mostrando todas as menções."
  {
    if selectedEntity.Some? && selectedEntity.value != "" then
      "Mostrando menções para a entidade: \"" + selectedEntity.value + "\""
    else "Mostrando todas as menções."
  }

  /** The tab's state, the page and the entity filter. `Valid`: the page never
      drops below 1. */
  class PautasTab {
    const searchGroup: string
    const days: int
    var selectedEntity: Option<string>
    var page: int

    predicate Valid()
      reads this
    {
      page >= 1
    }

    constructor (searchGroup: string, days: int)
      ensures Valid()
      ensures this.searchGroup == searchGroup && this.days == days
      ensures page == 1 && selectedEntity == None
    {
      this.searchGroup := searchGroup;
      this.days := days;
      selectedEntity := None;
      page := 1;
    }

    /** The request the mentions table's query sends for this state. */
    function MentionsQuery(): (r: Request)
      reads this
      ensures r.path == "/analytics/mentions"
      ensures Lookup(r.params, "search_group") == Some(Text(searchGroup))
      ensures Lookup(r.params, "days") == Some(Number(days))
      ensures Lookup(r.params, "page") == Some(Number(page))
      ensures "entity" in Keys(r.params) <==> selectedEntity.Some? && selectedEntity.value != ""
      ensures "entity" in Keys(r.params) ==> Lookup(r.params, "entity") == Some(Text(selectedEntity.value))
    {
      MentionsRequest(searchGroup, days, page, selectedEntity)
    }

    /** "Anterior": one page back, a no-op while the button is disabled. */
    method ClickPrevious()
      modifies this
      requires Valid()
      ensures Valid()
      ensures page == (if PreviousDisabled(old(page)) then old(page) else old(page) - 1)
      ensures selectedEntity == old(selectedEntity)
    {
      if !PreviousDisabled(page) {
        page := page - 1;
      }
    }

    /** "Próxima": one page forward, a no-op while the button is disabled. */
    method ClickNext(totalPages: int)
      modifies this
      requires Valid()
      ensures Valid()
      ensures page == (if NextDisabled(old(page), totalPages) then old(page) else old(page) + 1)
      ensures old(page) > totalPages ==> page == old(page) + 1 && !NextDisabled(page, totalPages)
      ensures selectedEntity == old(selectedEntity)
    {
      if !NextDisabled(page, totalPages) {
        page := page + 1;
      }
    }

    /** `handleEntityClick`: filter by the entity and go back to page 1. */
    method EntityClick(entity: string)
      modifies this
      ensures Valid()
      ensures selectedEntity == Some(entity) && page == 1
    {
      selectedEntity := Some(entity);
      page := 1;
    }

    /** "Limpar filtro" (shown only while a filter is set): the filter goes,
        the page stays. */
    method ClearFilter()
      modifies this
      requires Valid()
      ensures Valid()
      ensures selectedEntity == None && page == old(page)
    {
      selectedEntity := None;
    }
  }
}
