/**
 * `PaginationService.paginate` (backend/src/common/services/pagination.service.ts):
 * the defaults, the search clause and sort order handed to the query builder,
 * the offset window, and the page metadata computed from the item count.
 * The query builder is modelled by the `QueryPlan` of calls it receives.
 */
module Pagination {
  import opened Wrappers
  import opened JsValue

  datatype SortOrder = ASC | DESC

  /** A `PaginationDto`; `None` is an absent (undefined) field. */
  datatype PaginationQuery = PaginationQuery(
    page: Option<int>,
    limit: Option<int>,
    sortBy: Option<string>,
    sortOrder: Option<SortOrder>,
    search: Option<string>)

  const DEFAULT_PAGE := 1
  const DEFAULT_LIMIT := 10

  /** The query with the destructuring defaults applied. */
  datatype Settings = Settings(page: int, limit: int, sortOrder: SortOrder)

  function Resolve(q: PaginationQuery): (s: Settings)
    ensures s.page == q.page.GetOr(DEFAULT_PAGE)
    ensures s.limit == q.limit.GetOr(DEFAULT_LIMIT)
    ensures s.sortOrder == q.sortOrder.GetOr(ASC)
  {
    Settings(q.page.GetOr(DEFAULT_PAGE), q.limit.GetOr(DEFAULT_LIMIT), q.sortOrder.GetOr(ASC))
  }

  /** `andWhere(condition, {search: parameter})`. */
  datatype SearchClause = SearchClause(condition: string, parameter: string)

  /** One field's condition: `alias.field ILIKE :search`. */
  function FieldCondition(alias: string, field: string): string {
    alias + "." + field + " ILIKE :search"
  }

  function FieldConditions(alias: string, fields: seq<string>): (r: seq<string>)
    ensures |r| == |fields|
    ensures forall i :: 0 <= i < |fields| ==> r[i] == FieldCondition(alias, fields[i])
  {
    if fields == [] then [] else FieldConditions(alias, fields[..|fields| - 1]) + [FieldCondition(alias, fields[|fields| - 1])]
  }

  /** The search filter: present only for a non-empty search and at least one searchable field. */
  function Search(alias: string, search: Option<string>, fields: Option<seq<string>>): (r: Option<SearchClause>)
    ensures r.Some? <==> search.Some? && search.value != "" && fields.Some? && fields.value != []
    ensures r.Some? ==> r.value.parameter == "%" + search.value + "%"
    ensures r.Some? ==> r.value.condition == "(" + Join(FieldConditions(alias, fields.value), " OR ") + ")"
  {
    if search.Some? && search.value != "" && fields.Some? && |fields.value| > 0 then
      Some(SearchClause("(" + Join(FieldConditions(alias, fields.value), " OR ") + ")", "%" + search.value + "%"))
    else None
  }

  /** Adding a searchable field adds one ` OR ` alternative to the condition. */
  lemma {:induction false} SearchAddsAlternative(alias: string, search: string, fields: seq<string>, field: string)
    requires search != "" && fields != []
    ensures Search(alias, Some(search), Some(fields + [field])).value.condition
      == "(" + Join(FieldConditions(alias, fields), " OR ") + " OR " + FieldCondition(alias, field) + ")"
  {
    var conds := FieldConditions(alias, fields);
    var more := FieldConditions(alias, fields + [field]);
    assert more == conds + [FieldCondition(alias, field)];
    JoinAppend(conds, [FieldCondition(alias, field)], " OR ");
  }

  /** `Math.ceil(totalItems / limit)` for a positive limit. */
  function CeilDiv(totalItems: nat, limit: int): (pages: nat)
    requires limit > 0
    ensures (pages - 1) * limit < totalItems <= pages * limit || (pages == 0 && totalItems == 0)
  {
    (totalItems + limit - 1) / limit
  }

  datatype Meta = Meta(page: int, limit: int, totalItems: nat, totalPages: nat, hasNextPage: bool, hasPreviousPage: bool)

  /** The `meta` object for a page of `limit` items out of `totalItems`. */
  function PageMeta(page: int, limit: int, totalItems: nat): (m: Meta)
    requires limit > 0
    ensures m.page == page && m.limit == limit && m.totalItems == totalItems
    ensures m.hasPreviousPage <==> page > 1
    ensures m.totalPages == CeilDiv(totalItems, limit)
    ensures (m.totalPages - 1) * limit < totalItems <= m.totalPages * limit || (m.totalPages == 0 && totalItems == 0)
    ensures m.hasNextPage <==> page < m.totalPages
    ensures m.hasNextPage <==> page * limit < totalItems
  {
    var totalPages := CeilDiv(totalItems, limit);
    CeilDivBound(page, limit, totalItems);
    Meta(page, limit, totalItems, totalPages, page < totalPages, page > 1)
  }

  /** Being before the last page is being before the item count. */
  lemma CeilDivBound(page: int, limit: int, totalItems: nat)
    requires limit > 0
    ensures page < CeilDiv(totalItems, limit) <==> page * limit < totalItems
  {
    var p := CeilDiv(totalItems, limit);
    if page < p {
      MulMono(page, p as int - 1, limit);
    } else if p > 0 {
      MulMono(p, page, limit);
    } else {
      assert page >= 0;
      MulMono(0, page, limit);
    }
  }

  lemma MulMono(a: int, b: int, c: int)
    requires a <= b && c > 0
    ensures a * c <= b * c
  {
  }

  /** The calls made on the query builder. */
  datatype QueryPlan = QueryPlan(search: Option<SearchClause>, orderBy: Option<(string, SortOrder)>, skip: int, take: int)

  /** The plan for the query, before it runs. */
  function Plan(alias: string, q: PaginationQuery, fields: Option<seq<string>>): (p: QueryPlan)
    ensures p.search == Search(alias, q.search, fields)
    ensures p.orderBy.Some? <==> q.sortBy.Some? && q.sortBy.value != ""
    ensures p.orderBy.Some? ==> p.orderBy.value == (alias + "." + q.sortBy.value, Resolve(q).sortOrder)
    ensures p.take == Resolve(q).limit
    ensures p.skip == (Resolve(q).page - 1) * Resolve(q).limit
  {
    var s := Resolve(q);
    var order := if q.sortBy.Some? && q.sortBy.value != "" then Some((alias + "." + q.sortBy.value, s.sortOrder)) else None;
    QueryPlan(Search(alias, q.search, fields), order, (s.page - 1) * s.limit, s.limit)
  }

  /**
   * `paginate`, given the count the query returned. The limit must be
   * positive: the service divides by it.
   */
  function Paginate(alias: string, q: PaginationQuery, fields: Option<seq<string>>, totalItems: nat): (r: (QueryPlan, Meta))
    requires Resolve(q).limit > 0
    ensures r.0 == Plan(alias, q, fields)
    ensures r.1 == PageMeta(Resolve(q).page, Resolve(q).limit, totalItems)
  {
    var s := Resolve(q);
    (Plan(alias, q, fields), PageMeta(s.page, s.limit, totalItems))
  }

  /** There is a next page exactly when the window read ends before the last item. */
  lemma NextPageIffItemsRemain(alias: string, q: PaginationQuery, fields: Option<seq<string>>, totalItems: nat)
    requires Resolve(q).limit > 0
    ensures var (plan, meta) := Paginate(alias, q, fields, totalItems);
      meta.hasNextPage <==> plan.skip + plan.take < totalItems
  {
    var s := Resolve(q);
    assert (s.page - 1) * s.limit + s.limit == s.page * s.limit;
  }

  /**
   * Consecutive pages read adjacent windows, and every page from the first
   * to the last starts inside the item count.
   */
  lemma PagesTile(alias: string, q: PaginationQuery, fields: Option<seq<string>>, totalItems: nat)
    requires Resolve(q).limit > 0 && Resolve(q).page >= 1
    ensures var next := q.(page := Some(Resolve(q).page + 1));
      Plan(alias, next, fields).skip == Plan(alias, q, fields).skip + Plan(alias, q, fields).take
    ensures Resolve(q).page <= PageMeta(Resolve(q).page, Resolve(q).limit, totalItems).totalPages ==>
      Plan(alias, q, fields).skip < totalItems
  {
    var s := Resolve(q);
    CeilDivBound(s.page - 1, s.limit, totalItems);
  }
}
