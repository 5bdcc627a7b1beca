/**
 * The options object of a document-store `find`: an optional skip, an
 * optional limit and an optional one-key sort. Each setter replaces one
 * option and leaves the others as they are.
 */
module Options {
  import opened Wrappers

  /** A one-key sort: `order` is 1 for ascending and -1 for descending. */
  datatype SortSpec = SortSpec(key: string, order: int)

  /** The sort direction a request's direction text selects: `desc` is descending, anything else ascending. */
  function SortOrder(direction: string): (order: int)
    ensures order == -1 <==> direction == "desc"
    ensures order == 1 <==> direction != "desc"
  {
    if direction == "desc" then -1 else 1
  }

  class FindOptions {
    var skip: Option<int>
    var limit: Option<int>
    var sort: Option<SortSpec>

    constructor()
      ensures skip.None? && limit.None? && sort.None?
    {
      skip := None;
      limit := None;
      sort := None;
    }

    method SetSkip(n: int)
      modifies this
      ensures skip == Some(n) && limit == old(limit) && sort == old(sort)
    {
      skip := Some(n);
    }

    method SetLimit(n: int)
      modifies this
      ensures limit == Some(n) && skip == old(skip) && sort == old(sort)
    {
      limit := Some(n);
    }

    method SetSort(s: SortSpec)
      modifies this
      ensures sort == Some(s) && skip == old(skip) && limit == old(limit)
    {
      sort := Some(s);
    }
  }
}
