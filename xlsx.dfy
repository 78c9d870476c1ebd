/**
 * The spreadsheet accessor, at its interface only. How a workbook matches
 * rows and headers is not part of this model, so a workbook's lookups are a
 * function from the query to the cell value found (`PyNone` when nothing
 * matches), and its writes are the sequence of requests made to it.
 */
module Xlsx {
  import opened Builtins

  datatype Query =
    /** `get_matching_value`: the first row at or after `startrow` whose `srchcol` cell is `srchval`; its `retcol` cell. */
    | Matching(srchcol: string, srchval: string, retcol: string, startrow: int)
    /** `search_matching_value`: the cell under the column headed `header`, on the row headed `row`. */
    | ByHeaders(header: string, row: string)

  /** What an open workbook answers to each lookup. */
  type Sheet = Query -> PyValue

  datatype Request =
    /** `set_matching_value`: write `setval` into `trgtcol` of the row that `srchcol`/`srchval` finds. */
    | SetMatching(srchcol: string, srchval: string, trgtcol: string, setval: PyValue, startrow: int)
    /** `save()`. */
    | Save

  /** A workbook open for writing: the requests made to it so far. */
  class Workbook {
    var requests: seq<Request>

    constructor ()
      ensures requests == []
    {
      requests := [];
    }

    method SetMatchingValue(srchcol: string, srchval: string, trgtcol: string, setval: PyValue, startrow: int)
      modifies this
      ensures requests == old(requests) + [SetMatching(srchcol, srchval, trgtcol, setval, startrow)]
    {
      requests := requests + [SetMatching(srchcol, srchval, trgtcol, setval, startrow)];
    }

    method SaveBook()
      modifies this
      ensures requests == old(requests) + [Save]
    {
      requests := requests + [Save];
    }
  }
}
