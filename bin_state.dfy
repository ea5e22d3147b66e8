/** The bin's shared state and what one sensor message does to it, as values. */
module BinState {
  import opened Wrappers
  import opened FillLevel

  /** The record the subscriber writes and the status query returns. */
  datatype State = State(distanceMm: real, fillPercentage: real)

  /** The state at process start: both fields zero. */
  const Initial: State := State(0.0, 0.0)

  /** The state a valid reading leaves behind: the distance with its fill. */
  function Reading(distance: real): (s: State)
    ensures s.distanceMm == distance
    ensures s.fillPercentage >= 0.0
    ensures Derived(s)
  {
    State(distance, Fill(distance))
  }

  /** The fill percentage is the one computed from the stored distance. */
  predicate Derived(s: State)
  {
    s.fillPercentage == Fill(s.distanceMm)
  }

  /** The fill percentage is never negative: true initially and kept by every message. */
  predicate Valid(s: State)
  {
    s.fillPercentage >= 0.0
  }

  /** One inbound message. `None` is a payload that does not parse: the parser
      fails before either field is written, so nothing changes. */
  function Step(s: State, payload: Option<real>): (t: State)
    ensures payload.None? ==> t == s
    ensures payload.Some? ==> t.distanceMm == payload.value && Derived(t)
    ensures Valid(s) ==> Valid(t)
  {
    match payload
    case None => s
    case Some(distance) => Reading(distance)
  }

  /** The messages of a stream, processed in arrival order. */
  function Run(s: State, payloads: seq<Option<real>>): State
    decreases payloads
  {
    if payloads == [] then s else Run(Step(s, payloads[0]), payloads[1..])
  }

  /** The last payload of the stream that parses, if any. */
  function LastReading(payloads: seq<Option<real>>): (r: Option<real>)
    ensures r.Some? ==> r in payloads
    ensures r.Some? ==> exists i :: 0 <= i < |payloads| && payloads[i] == r &&
                          forall j :: i < j < |payloads| ==> payloads[j].None?
    ensures r.None? <==> forall i :: 0 <= i < |payloads| ==> payloads[i].None?
  {
    if payloads == [] then None
    else match LastReading(payloads[1..])
      case Some(d) => Some(d)
      case None => payloads[0]
  }

  /** After a stream of messages the state depends only on the last valid
      reading: it is that reading with its fill, or, when no payload parsed,
      the state the stream started from. */
  lemma {:induction false} RunIsLastReading(s: State, payloads: seq<Option<real>>)
    ensures Run(s, payloads) == match LastReading(payloads)
                                case None => s
                                case Some(d) => Reading(d)
    decreases payloads
  {
    if payloads != [] {
      RunIsLastReading(Step(s, payloads[0]), payloads[1..]);
    }
  }

  /** Once some payload has parsed, the fill is the one derived from the
      distance, however many invalid payloads follow. */
  lemma DerivedAfterValidReading(s: State, payloads: seq<Option<real>>)
    requires exists i :: 0 <= i < |payloads| && payloads[i].Some?
    ensures Derived(Run(s, payloads))
  {
    RunIsLastReading(s, payloads);
  }

  /** A stream with no parsable payload leaves the state exactly as it was. */
  lemma InvalidStreamChangesNothing(s: State, payloads: seq<Option<real>>)
    requires forall i :: 0 <= i < |payloads| ==> payloads[i].None?
    ensures Run(s, payloads) == s
  {
    RunIsLastReading(s, payloads);
  }

  /** The non-negativity of the fill holds on every reachable state. */
  lemma {:induction false} RunKeepsValid(s: State, payloads: seq<Option<real>>)
    requires Valid(s)
    ensures Valid(Run(s, payloads))
    decreases payloads
  {
    if payloads != [] {
      RunKeepsValid(Step(s, payloads[0]), payloads[1..]);
    }
  }

  /** The initial state is valid but not derived: a distance of 0 would mean
      a full bin, while the initial fill is 0. */
  lemma InitialNotDerived()
    ensures Valid(Initial)
    ensures !Derived(Initial)
    ensures Reading(0.0) == State(0.0, 100.0)
  {
  }
}
