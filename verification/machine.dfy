/**
 The pagination state machine: five states, the event object the host and
 the fetch stub send, the machine's configuration written as a chart of
 `on` maps, and the transition function.
 */
module Machine {

  /** The machine's states; `Idle` is the initial one, `Complete` and `Fail` are final. */
  datatype State = Idle | Fetching | More | Complete | Fail

  /**
   Event types: the five members of the event enum, plus ERROR, the event the
   library raises when the invoked fetch stub fails (the `onError` handler).
   */
  datatype EventType = FETCH | MORE | DONE | FAIL | RESET | ERROR

  /** An event object; `newData` is the page a MORE or DONE event carries. */
  datatype Event = Event(kind: EventType, newData: seq<string>)

  /** The machine's current state together with its context, the loaded items. */
  datatype Config = Config(state: State, data: seq<string>)

  /** What a transition does to the context. */
  datatype Action = Keep | Append | Clear

  datatype Transition = Transition(target: State, action: Action)

  /** The initial configuration: `idle` with no items loaded. */
  const Initial: Config := Config(Idle, [])

  predicate IsFinal(s: State) {
    s == Complete || s == Fail
  }

  /**
   The machine's configuration, state by state: the `on` map of each state,
   with the fetch stub's `onError` handler listed under `fetching`.
   */
  const Chart: map<State, map<EventType, Transition>> := map[
    Idle := map[FETCH := Transition(Fetching, Keep)],
    Fetching := map[
      MORE := Transition(More, Append),
      DONE := Transition(Complete, Append),
      RESET := Transition(Idle, Clear),
      ERROR := Transition(Fail, Keep)
    ],
    More := map[FETCH := Transition(Fetching, Keep)],
    Complete := map[],
    Fail := map[]
  ]

  predicate Handles(s: State, k: EventType) {
    s in Chart && k in Chart[s]
  }

  function Perform(a: Action, data: seq<string>, newData: seq<string>): seq<string> {
    match a
    case Keep => data
    case Append => data + newData
    case Clear => []
  }

  /**
   How a statechart runs one event: look the event type up in the current
   state's `on` map; take the transition found, or ignore the event.
   */
  function Interpret(chart: map<State, map<EventType, Transition>>, c: Config, e: Event): Config {
    if c.state in chart && e.kind in chart[c.state] then
      var t := chart[c.state][e.kind];
      Config(t.target, Perform(t.action, c.data, e.newData))
    else
      c
  }

  /** One transition of the machine. */
  function Step(c: Config, e: Event): (r: Config)
    ensures r == Interpret(Chart, c, e)
    ensures r != c <==> Handles(c.state, e.kind)
    ensures r.state == c.state ==> r == c
    ensures IsFinal(c.state) ==> r == c
    ensures r.data == c.data || r.data == c.data + e.newData || r.data == []
  {
    match (c.state, e.kind)
    case (Idle, FETCH) => Config(Fetching, c.data)
    case (Fetching, MORE) => Config(More, c.data + e.newData)
    case (Fetching, DONE) => Config(Complete, c.data + e.newData)
    case (Fetching, RESET) => Config(Idle, [])
    case (Fetching, ERROR) => Config(Fail, c.data)
    case (More, FETCH) => Config(Fetching, c.data)
    case _ => c
  }

  /**
   Entering a state: `idle` invokes a callback that at once sends FETCH, so
   the machine does not stay in `idle`; every other state is left as it is.
   */
  function Enter(c: Config): (r: Config)
    ensures r.state != Idle
    ensures r.data == c.data
    ensures c.state == Idle ==> r.state == Fetching
    ensures c.state != Idle ==> r == c
  {
    if c.state == Idle then Step(c, Event(FETCH, [])) else c
  }

  /**
   Delivers one event. When the transition taken enters `idle` (RESET from
   `fetching`), `idle`'s callback sends FETCH before anything else happens.
   An event with no transition leaves the machine as it is and enters nothing.
   */
  function Deliver(c: Config, e: Event): (r: Config)
    ensures !Handles(c.state, e.kind) ==> r == c
    ensures Step(c, e).state != Idle ==> r == Step(c, e)
    ensures c.state != Idle ==> r.state != Idle
    ensures c.state == Idle ==> r == Step(c, e)
    ensures c.state == Fetching && e.kind == RESET ==> r == Config(Fetching, [])
  {
    var next := Step(c, e);
    if next != c && next.state == Idle then Enter(next) else next
  }

  /**
   The configuration once the machine has started: `idle` was entered and its
   callback's FETCH was taken, so the first page is being fetched.
   */
  const Start: Config := Enter(Initial)

  /** Delivers a sequence of events one after the other. */
  function StepAll(c: Config, events: seq<Event>): Config
    decreases |events|
  {
    if |events| == 0 then c else StepAll(Step(c, events[0]), events[1..])
  }

  /** Once in `complete` or `fail`, no sequence of events changes state or items. */
  lemma {:induction false} FinalIgnoresAllEvents(c: Config, events: seq<Event>)
    requires IsFinal(c.state)
    ensures StepAll(c, events) == c
    decreases |events|
  {
    if |events| > 0 {
      FinalIgnoresAllEvents(Step(c, events[0]), events[1..]);
    }
  }

  /** Events a state has no entry for, however many, leave the machine where it is. */
  lemma {:induction false} UnhandledEventsIgnored(c: Config, events: seq<Event>)
    requires forall i :: 0 <= i < |events| ==> !Handles(c.state, events[i].kind)
    ensures StepAll(c, events) == c
    decreases |events|
  {
    if |events| > 0 {
      UnhandledEventsIgnored(Step(c, events[0]), events[1..]);
    }
  }
}
