/**
 Runs of the machine as the screen drives it: the host sends FETCH, and the
 only MORE, DONE and error events come from the fetch stub invoked in
 `fetching`. The stub's delay is abstracted away: it reports for the items
 loaded at the time it settles, which are the items loaded when `fetching`
 was entered, since no transition keeps the machine in `fetching` and
 changes its items.
 */
module Driver {
  import opened MockSource
  import opened Machine
  import opened FetchStub

  /** One thing that can happen to the machine in a stub-driven run. */
  datatype Input =
    | HostFetch     // the host sends FETCH
    | StubResolves  // the fetch stub reports its page
    | StubRejects   // the fetch stub fails

  /** Delivers one input. */
  function Apply(c: Config, i: Input): Config {
    match i
    case HostFetch => Deliver(c, Event(FETCH, []))
    case StubResolves => Deliver(c, FetchResult(c.data))
    case StubRejects => Deliver(c, Event(ERROR, []))
  }

  /**
   What one input does. The stub's page is computed from the items loaded
   when it settles; those are the items `fetching` was entered with, because
   an input that leaves the state unchanged leaves the items unchanged too.
   */
  lemma ApplyEffects(c: Config, i: Input)
    ensures Apply(c, i).state == c.state ==> Apply(c, i) == c
    ensures i == HostFetch ==> Apply(c, i).data == c.data
    ensures i != HostFetch && c.state != Fetching ==> Apply(c, i) == c
    ensures i == StubResolves && c.state == Fetching ==>
      && Apply(c, i).data == c.data + FetchResult(c.data).newData
      && Apply(c, i).state in {More, Complete}
    ensures i == StubRejects && c.state == Fetching ==> Apply(c, i) == Config(Fail, c.data)
  {
  }

  function Run(c: Config, inputs: seq<Input>): Config
    decreases |inputs|
  {
    if |inputs| == 0 then c else Run(Apply(c, inputs[0]), inputs[1..])
  }

  /**
   What holds of every configuration a stub-driven run of the started machine
   reaches: the items are whole pages taken from the front of the source, the
   machine is not in `idle`, a state that may still fetch has items left to
   fetch, `more` has loaded at least one page, and `complete` holds the whole
   source.
   */
  predicate Inv(c: Config) {
    && PageAligned(c.data)
    && c.state != Idle
    && (c.state == Fetching ==> |c.data| < SourceLength)
    && (c.state == More ==> 0 < |c.data| < SourceLength)
    && (c.state == Complete ==> c.data == MockData())
  }

  lemma ApplyPreservesInv(c: Config, i: Input)
    requires Inv(c)
    ensures Inv(Apply(c, i))
  {
    if i == StubResolves && c.state == Fetching {
      AppendingResultLoadsNextPage(c.data);
      TakeAll(MockData());
    }
  }

  lemma {:induction false} RunPreservesInv(c: Config, inputs: seq<Input>)
    requires Inv(c)
    ensures Inv(Run(c, inputs))
    decreases |inputs|
  {
    if |inputs| > 0 {
      ApplyPreservesInv(c, inputs[0]);
      RunPreservesInv(Apply(c, inputs[0]), inputs[1..]);
    }
  }

  /**
   Whatever the host and the stub do after the machine has started, the items
   loaded are a prefix of the source made of whole pages, never longer than
   the source, without repeats.
   */
  lemma ReachableDataIsPagePrefix(inputs: seq<Input>)
    ensures var d := Run(Start, inputs).data;
      && |d| <= SourceLength
      && |d| % PageSize == 0
      && d == MockData()[..|d|]
      && NoDuplicates(d)
  {
    assert Inv(Start);
    RunPreservesInv(Start, inputs);
    PageAlignedHasNoDuplicates(Run(Start, inputs).data);
  }

  /**
   Right after start the first page is being fetched: the stub's report moves
   the machine to `more` with the first ten items, its failure to `fail` with none.
   */
  lemma FirstFetchAfterStart()
    ensures Start == Config(Fetching, [])
    ensures Run(Start, [StubResolves]) == Config(More, MockData()[..PageSize])
    ensures Run(Start, [StubRejects]) == Config(Fail, [])
  {
    AppendingResultLoadsNextPage([]);
  }

  /** Once `complete` or `fail` is reached, nothing the host or the stub does has an effect. */
  lemma {:induction false} FinalIgnoresAllInputs(c: Config, inputs: seq<Input>)
    requires IsFinal(c.state)
    ensures Run(c, inputs) == c
    decreases |inputs|
  {
    if |inputs| > 0 {
      FinalIgnoresAllInputs(Apply(c, inputs[0]), inputs[1..]);
    }
  }

  /** FETCH sent again and again while `fetching` has no effect. */
  lemma {:induction false} RepeatedFetchWhileFetchingIgnored(c: Config, n: nat)
    requires c.state == Fetching
    ensures Run(c, seq(n, _ => HostFetch)) == c
    decreases n
  {
    if n > 0 {
      assert seq(n, _ => HostFetch)[1..] == seq(n - 1, _ => HostFetch);
      RepeatedFetchWhileFetchingIgnored(c, n - 1);
    }
  }

  /** A fetch cycle: the host sends FETCH and the stub then reports its page. */
  function Cycle(c: Config): Config {
    Apply(Apply(c, HostFetch), StubResolves)
  }

  function Cycles(c: Config, n: nat): Config
    decreases n
  {
    if n == 0 then c else Cycle(Cycles(c, n - 1))
  }

  /** The first fetch cycle: the machine starts, and the stub reports the first page. */
  const FirstPage: Config := Apply(Start, StubResolves)

  /**
   Fetch cycle k loads the k-th page: the first cycle is the start and the
   stub's first report, each later one a FETCH from `more` and the stub's
   report. After one to three cycles the machine is in `more`, after the
   fourth it is `complete`.
   */
  lemma {:induction false} CyclesLoadPages(k: nat)
    requires 1 <= k <= SourceLength / PageSize
    ensures Cycles(FirstPage, k - 1) ==
      Config(if k < SourceLength / PageSize then More else Complete, MockData()[..PageSize * k])
    ensures |Cycles(FirstPage, k - 1).data| == PageSize * k
    decreases k
  {
    if k == 1 {
      FirstFetchAfterStart();
    } else {
      CyclesLoadPages(k - 1);
      AppendingResultLoadsNextPage(MockData()[..PageSize * (k - 1)]);
    }
  }

  /**
   Four fetch cycles from the start pass through `more` with 10, 20 and 30
   items and end `complete` with all forty.
   */
  lemma FourCycleTrace()
    ensures FirstPage.state == More && |FirstPage.data| == 10
    ensures Cycles(FirstPage, 1).state == More && |Cycles(FirstPage, 1).data| == 20
    ensures Cycles(FirstPage, 2).state == More && |Cycles(FirstPage, 2).data| == 30
    ensures Cycles(FirstPage, 3) == Config(Complete, MockData())
  {
    CyclesLoadPages(1);
    CyclesLoadPages(2);
    CyclesLoadPages(3);
    CyclesLoadPages(4);
    TakeAll(MockData());
  }

  lemma TakeAll<T>(s: seq<T>)
    ensures s[..|s|] == s
  {
  }

  /**
   The list view scrolled to its end again and again after start: it sends
   FETCH only while the machine is in `more`, and waits for the stub in
   between. The run ends `complete` with the whole source loaded after three
   FETCHes from `more`, the first page having come from the start.
   */
  method ScrollToEnd() returns (c: Config, fetches: nat)
    ensures c == Config(Complete, MockData())
    ensures fetches == SourceLength / PageSize - 1
  {
    assert Inv(Start);
    ApplyPreservesInv(Start, StubResolves);
    c := Apply(Start, StubResolves);
    fetches := 0;
    while c.state == More
      invariant Inv(c)
      invariant c.state == More || c.state == Complete
      invariant |c.data| == PageSize * (fetches + 1)
      decreases SourceLength - |c.data|
    {
      ApplyPreservesInv(c, HostFetch);
      ApplyPreservesInv(Apply(c, HostFetch), StubResolves);
      c := Cycle(c);
      fetches := fetches + 1;
    }
  }
}
