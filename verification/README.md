# Pagination state machine

A Dafny model of the pagination state machine of a React Native demo screen
(`App.tsx`). The screen shows a list of forty mock items, `"1"` to `"40"`,
loaded ten at a time. An xstate machine decides when more may be loaded:

- `idle` is the initial state. On entry it invokes a callback that sends
  FETCH at once, so the machine starts by itself.
- `fetching` invokes a stub. The stub cuts the next page out of the mock
  source, starting at the number of items already loaded. It reports MORE
  while items remain behind that page, and DONE otherwise. MORE and DONE
  append their page to the context.
- RESET in `fetching` clears the context and returns to `idle`. A failing
  stub sends the machine to `fail`.
- `more` waits for the next FETCH. `complete` and `fail` are final.

Modules:

- `MockSource` (`mock_source.dfy`): the source items, the page size, the
  decimal rendering of item names, and array slicing with clamped bounds.
- `Machine` (`machine.dfy`): states, the event object, the configuration
  (state plus loaded items), and the chart of `on` maps. It defines `Step`
  and checks it against the way a statechart interprets that chart. It also
  defines `idle`'s entry behaviour (`Enter`, `Deliver`).
- `FetchStub` (`fetch_stub.dfy`): the event the stub sends, and what it
  does to page-aligned items.
- `Driver` (`driver.dfy`): runs of the started machine where the host sends
  only FETCH and every MORE, DONE or error event comes from the stub. It proves the invariant
  those runs keep, the four-cycle trace, and the scroll-to-end loop.

The 500 ms timer is abstracted away. The stub is a pure function of the
items loaded when it settles. Those are the items loaded when `fetching` was
entered, because `ApplyEffects` proves that no driver input keeps the machine in
`fetching` and changes its items.

## Model

| member | source | states |
|---|---|---|
| MockSource.Decimal | App.tsx:22 | An item name is a non-empty digit string with no leading zero; it is one character long exactly for numbers below ten |
| MockSource.DecimalInjective | App.tsx:22 | Two numbers have the same decimal name if and only if they are equal (proved through the parse-back round trip `DecimalRoundTrip`) |
| MockSource.DecimalRoundTrip | App.tsx:22 | Parsing an item name back as a decimal number gives the number it was made from |
| MockSource.MockData | App.tsx:22 | The source holds forty items running from "1" through "10" to "40"; item i (from zero) is a decimal numeral of i + 1 (digits only, no leading zero, reading back as i + 1), so no two items are equal |
| MockSource.NumeralIsDecimal | App.tsx:22 | A decimal numeral of n (digits only, no leading zero, reading back as n) is exactly the rendering of n, so the contract of `MockData` fixes every item |
| MockSource.Slice | App.tsx:98-101 | Slicing with clamped bounds yields the elements from `start` on, in order: as many as lie before both `end` and the end of the sequence, and none when `start` is past the end |
| Machine.Step | App.tsx:60-129 | A transition agrees with the chart of `on` maps as a statechart interprets it. It changes the configuration exactly when the current state has an entry for the event type, and every such entry moves to another state. Final states ignore every event. The items are kept, extended by the event's page, or cleared |
| Machine.Enter | App.tsx:61-70 | Entering `idle` sends FETCH at once and moves to `fetching` with the items unchanged; no other state is affected, so `idle` is never the state after an entry |
| Machine.Deliver | App.tsx:61-90 | An event the current state has no entry for changes nothing and enters no state. Otherwise the transition is taken, and when it enters `idle` (RESET from `fetching`) idle's callback FETCH follows at once, so RESET clears the items and restarts fetching from the first page. A started machine is never left in `idle` |
| Machine.FinalIgnoresAllEvents | App.tsx:127-128 | From `complete` or `fail`, any sequence of events leaves state and items as they are |
| Machine.UnhandledEventsIgnored | App.tsx:60-128 | Any sequence of events for which the current state has no `on` entry is a no-op (`Deliver` keeps this: such an event enters no state) |
| FetchStub.FetchResult | App.tsx:92-115 | The stub sends MORE or DONE with at most one page, namely the source items from the number already loaded up to one page further or the end of the source. It sends MORE exactly when a full page still leaves items behind, and sends DONE with no items once the source is exhausted |
| FetchStub.AppendingResultLoadsNextPage | App.tsx:74-104 | Appending the stub's page to page-aligned items that do not yet cover the source loads exactly the next page of the source, and the result is again page-aligned |
| FetchStub.PageAlignedHasNoDuplicates | App.tsx:22-24 | Items that are a page-aligned prefix of the source hold no item twice |
| Driver.ApplyEffects | App.tsx:92-124 | What `Apply` does with one input of a run: a host FETCH (sent by the screen at App.tsx:143 and 174), the stub's report, or its failure (`onError`). A host FETCH never changes the items. Stub inputs have an effect only in `fetching`: the report appends the page computed from the items loaded when the stub settles and moves to `more` or `complete`, and the failure moves to `fail` keeping the items. An input that leaves the state unchanged changes nothing, so the items when the stub settles are the ones `fetching` was entered with |
| Driver.ApplyPreservesInv | App.tsx:72-126 | A host FETCH, a stub result or a stub failure keeps the run invariant: whole pages from the front of the source, never `idle`, items left to fetch in `fetching` and `more`, and the whole source in `complete` |
| Driver.RunPreservesInv | App.tsx:54-130 | Every stub-driven run from a configuration that satisfies the invariant ends in one that does |
| Driver.FirstFetchAfterStart | App.tsx:61-114 | Once started, the machine is fetching with no items; the stub's first report moves it to `more` with the first ten items, and its failure to `fail` with none |
| Driver.ReachableDataIsPagePrefix | App.tsx:22-24 | In every configuration a stub-driven run of the started machine reaches, the items are a prefix of the source made of whole pages, at most forty long, with no repeats |
| Driver.FinalIgnoresAllInputs | App.tsx:127-128 | From `complete` or `fail`, nothing the host or the stub does has an effect |
| Driver.RepeatedFetchWhileFetchingIgnored | App.tsx:72-90 | Any number of FETCH events sent while `fetching` leave the machine unchanged |
| Driver.CyclesLoadPages | App.tsx:98-124 | Fetch cycle k (for k from 1 to 4; the first is the start plus the stub's first report, the others a FETCH from `more` plus the report) leaves the first k pages loaded; the state is `more` before the fourth cycle and `complete` after it |
| Driver.FourCycleTrace | App.tsx:98-124 | Four fetch cycles from the start go through `more` with 10, 20 and 30 items and end `complete` holding all forty source items |
| Driver.ScrollToEnd | App.tsx:174 | After the start, a host that sends FETCH only while in `more`, and waits for the stub in between, ends `complete` with the whole source after exactly three FETCHes |

## Left out

- Rendering, the buttons, `FlatList` and its `onEndReached` trigger (App.tsx:132-201) are UI. `ScrollToEnd` models only the trigger's rule: send FETCH only while in `more`.
- The 500 ms `setTimeout` and the asynchronous callback (App.tsx:95-96). The stub is a pure function of the loaded items.
- RESET is modelled in `Step` and `Deliver`. It is not among the driver's inputs, because no control on the screen sends it. Neither the source nor the model settles what happens when a stub started before a RESET reports afterwards, since that depends on the library cancelling the old invoke.
- The "Complete machine" button sends DONE without a page (App.tsx:149). Spreading the missing page into the list is a runtime fault, not a transition. In the model every event carries a sequence.
- The stub as written never fails: its `throw` is commented out (App.tsx:108). The driver still has a `StubRejects` input so that the `onError` transition to `fail` (App.tsx:119) is covered.
- The FAIL event type (App.tsx:44) is part of `EventType`. No state handles it, so `Step` ignores it everywhere.
- The `onDone` handler only logs (App.tsx:118), and the library never runs it for a callback service. Logging is not modelled.
- The library's event queue is not modelled. Runs begin at `Start`, the configuration after `idle`'s callback FETCH has been taken, because that FETCH is processed before any host event or stub result.
