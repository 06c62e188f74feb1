/**
 The service `fetching` invokes: it cuts the next page out of the mock source,
 starting at the number of items already loaded, and reports it as MORE while
 items remain behind the page and as DONE otherwise.
 */
module FetchStub {
  import opened MockSource
  import opened Machine

  /** The event the stub sends for the items loaded when `fetching` was entered. */
  function FetchResult(data: seq<string>): (e: Event)
    ensures e.kind == MORE || e.kind == DONE
    ensures |e.newData| <= PageSize
    ensures |data| <= SourceLength ==>
      e.newData == MockData()[|data|..Min(|data| + PageSize, SourceLength)]
    ensures |data| >= SourceLength ==> e == Event(DONE, [])
    ensures e.kind == MORE <==> |data| + PageSize < SourceLength
  {
    Report(Slice(MockData(), |data|, |data| + PageSize), |data|)
  }

  /** MORE while the source holds items past the ones loaded and the new page, else DONE. */
  function Report(newData: seq<string>, loaded: nat): Event {
    if |MockData()| > loaded + |newData| then Event(MORE, newData) else Event(DONE, newData)
  }

  /** The loaded items are the first pages of the source, in order. */
  predicate PageAligned(data: seq<string>) {
    && |data| <= SourceLength
    && |data| % PageSize == 0
    && data == MockData()[..|data|]
  }

  /** Appending the stub's page to page-aligned items loads exactly one more page. */
  lemma AppendingResultLoadsNextPage(data: seq<string>)
    requires PageAligned(data)
    requires |data| < SourceLength
    ensures PageAligned(data + FetchResult(data).newData)
    ensures data + FetchResult(data).newData == MockData()[..|data| + PageSize]
  {
    var k := |data|;
    assert k + PageSize <= SourceLength;
    var page := FetchResult(data).newData;
    assert page == MockData()[k..k + PageSize];
    assert MockData()[..k] + MockData()[k..k + PageSize] == MockData()[..k + PageSize];
  }

  /** Page-aligned items never hold the same item twice. */
  lemma PageAlignedHasNoDuplicates(data: seq<string>)
    requires PageAligned(data)
    ensures NoDuplicates(data)
  {
    forall i, j | 0 <= i < j < |data|
      ensures data[i] != data[j]
    {
      assert data[i] == MockData()[i] && data[j] == MockData()[j];
    }
  }
}
