/** Position sampling (`pickRandomPosition`) and item extraction (`getItem`). */
module Sampling {
  import opened Wrappers
  import opened Random

  /** Only the first `maxResults` matches can be paged through. */
  const MaxResults: nat := 10000
  const PageSize: nat := 100

  /** A place in the ranked result list: which page of `PageSize` rows, and which row in it. */
  datatype Position = Position(page: nat, row: nat)

  /** One doc of a search page (its `item_size` is not used by the pipeline). */
  datatype Item = Item(identifier: string, title: Option<string>)

  /** The total after the clamp to `maxResults`. */
  function Capped(total: int): int {
    if total > MaxResults then MaxResults else total
  }

  /** `pickRandomPosition` as a function of the total and the two values of `random()` it uses,
      the first for the page and the second for the row. */
  function RandomPosition(total: int, pageDraw: Draw, rowDraw: Draw): Result<Position> {
    if total < 1 then Err("No items found.")
    else Ok(Position(Scale(pageDraw, Capped(total) / PageSize), Scale(rowDraw, PageSize)))
  }

  /** `pickRandomPosition({total}, done)`. Reassigns its working copy of the total when clamping. */
  method PickRandomPosition(total: int, probable: Probable) returns (r: Result<Position>)
    modifies probable
    ensures r == RandomPosition(total, probable.random(old(probable.calls)), probable.random(old(probable.calls) + 1))
    ensures probable.calls == old(probable.calls) + (if total < 1 then 0 else 2)
  {
    if total < 1 {
      r := Err("No items found.");
    } else {
      var t := total;
      if t > MaxResults {
        t := MaxResults;
      }
      var pageTotal := t / PageSize;
      var page := probable.Roll(pageTotal);
      var row := probable.Roll(PageSize);
      r := Ok(Position(page, row));
    }
  }

  /** The sampler fails, with exactly "No items found.", if and only if the total is below 1. */
  lemma RandomPositionFails(total: int, pageDraw: Draw, rowDraw: Draw)
    ensures RandomPosition(total, pageDraw, rowDraw).Err? <==> total < 1
    ensures RandomPosition(total, pageDraw, rowDraw).Err? ==>
      RandomPosition(total, pageDraw, rowDraw).error == "No items found."
  {
  }

  /** The row is below the page size; the page is below floor(min(total, maxResults) / pageSize),
      or 0 when that count is 0; so the page is always below 100. */
  lemma RandomPositionBounds(total: int, pageDraw: Draw, rowDraw: Draw)
    requires total >= 1
    ensures var p := RandomPosition(total, pageDraw, rowDraw).value;
      p.row < PageSize
      && (Capped(total) / PageSize == 0 ==> p.page == 0)
      && (Capped(total) / PageSize > 0 ==> p.page < Capped(total) / PageSize)
      && p.page < MaxResults / PageSize
  {
  }

  /** Once there is at least a full page of matches, every sampled position lies inside the
      clamped result list, and in fact inside its full pages. */
  lemma PositionWithinResults(total: int, pageDraw: Draw, rowDraw: Draw)
    requires total >= PageSize
    ensures var p := RandomPosition(total, pageDraw, rowDraw).value;
      p.page * PageSize + p.row < (Capped(total) / PageSize) * PageSize <= Capped(total)
  {
    var p := RandomPosition(total, pageDraw, rowDraw).value;
    var pages := Capped(total) / PageSize;
    assert p.page + 1 <= pages;
    assert (p.page + 1) * PageSize <= pages * PageSize;
  }

  /** Every page below the page count and every row below the page size is chosen by some pair
      of values of `random()`. With fewer matches than a full page the page count is 0, the page
      is always 0 whatever the first value, and every row is still reached (the first value is
      then written here with denominator 1). */
  lemma RandomPositionReaches(total: int, page: nat, row: nat)
    requires total >= 1 && row < PageSize
    requires page < Capped(total) / PageSize || page == 0
    ensures var pages := Capped(total) / PageSize;
      RandomPosition(total, Fraction(page, if pages > 0 then pages else 1), Fraction(row, PageSize))
      == Ok(Position(page, row))
  {
    if Capped(total) / PageSize > 0 {
      ScaleReaches(Capped(total) / PageSize, page);
    }
    ScaleReaches(PageSize, row);
  }

  /** `getItem(body)`: the doc at the sampled row, when the page has one there. */
  function GetItem(docs: seq<Item>, row: nat): (r: Option<Item>)
    ensures r.Some? <==> row < |docs|
    ensures r.Some? ==> r.value == docs[row]
  {
    if row < |docs| then Some(docs[row]) else None
  }
}
