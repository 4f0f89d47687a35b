/**
 * The query builder that the table threads its state through, kept as the
 * log of the clauses added to it, and the paginator it is finally handed to.
 */
module Query {
  import opened Php

  datatype Direction = Asc | Desc

  /** One `where`/`orWhere($column, 'LIKE', $pattern)` inside a grouped condition; `isOr` marks `orWhere`. */
  datatype Like = Like(column: string, pattern: string, isOr: bool)

  datatype Clause =
    | Where(column: string, value: Value)
    | OrderBy(column: string, direction: Direction)
    | Group(conditions: seq<Like>)

  /** An Eloquent builder: the clauses added to it, oldest first. */
  datatype Builder = Builder(clauses: seq<Clause>)
  {
    /** The builder after one more `where`, `orderBy` or grouped `where` call. */
    function With(c: Clause): Builder
    {
      Builder(clauses + [c])
    }
  }

  /**
   * The arguments of `paginate($perPage, $columns, $pageName, $page)->withQueryString()`;
   * the page of records the database returns is not modelled.
   */
  datatype Paginator = Paginator(
    query: Builder,
    perPage: int,
    columns: seq<string>,
    pageName: string,
    page: Value,
    withQueryString: bool)
}
