/** SelectorGeneratorTee: an ISelectorGenerator that forwards every call,
    with the same arguments, first to its Primary generator and then to its
    Secondary generator. */
module Fizzler {
  import opened Wrappers
  import opened SelectorEvents
  import opened Recorders

  /** Anything that implements ISelectorGenerator: a recording backend, or
      a tee, which is itself a generator and so can be nested. */
  datatype Generator = Stub(rec: Recorder) | TeeOf(tee: SelectorGeneratorTee)

  /** The exception the tee's constructor throws for a null argument. */
  datatype ConstructionError = ArgumentNull(paramName: string)

  /** The calls one event causes and how it ends for the caller. */
  datatype Delivery = Delivery(calls: seq<Entry>, outcome: Outcome<BackendError>)

  /** Nesting depth of a generator; used for termination only. */
  ghost function Height(g: Generator): nat
  {
    match g
    case Stub(_) => 0
    case TeeOf(t) => t.Depth
  }

  ghost predicate WellFormed(g: Generator)
  {
    g.TeeOf? ==> g.tee.Valid()
  }

  /** The recording backends reached through `g`, from left to right. */
  function Leaves(g: Generator): (ls: seq<Recorder>)
    requires WellFormed(g)
    ensures |ls| >= 1
    decreases Height(g)
  {
    match g
    case Stub(rec) => [rec]
    case TeeOf(t) => Leaves(t.Primary) + Leaves(t.Secondary)
  }

  /** The calls that delivering `e` to `g` issues, in order, and the
      outcome its caller sees: a recorder logs the call and answers it; a
      tee delivers to its Primary and, only if that returned normally, to
      its Secondary. */
  function Deliver(g: Generator, e: Event): Delivery
    requires WellFormed(g)
    decreases Height(g)
  {
    match g
    case Stub(rec) => Delivery([Entry(rec.id, e)], Respond(rec, e))
    case TeeOf(t) =>
      var p := Deliver(t.Primary, e);
      if p.outcome.Fail? then p
      else
        var s := Deliver(t.Secondary, e);
        Delivery(p.calls + s.calls, s.outcome)
  }

  class SelectorGeneratorTee {
    /** Both generators are set once, by the constructor, and never change. */
    const Primary: Generator
    const Secondary: Generator
    ghost const Depth: nat

    /** Nested tees are strictly shallower than this one, so the generator
        graph has no cycle. Tees alone cannot form one, since their fields
        are assigned only at construction; a cycle through a backend that
        forwards elsewhere is outside this model, whose only other
        backends are recorders. */
    ghost predicate Valid()
      decreases Depth
    {
      Height(Primary) < Depth && Height(Secondary) < Depth &&
      (Primary.TeeOf? ==> Primary.tee.Valid()) &&
      (Secondary.TeeOf? ==> Secondary.tee.Valid())
    }

    constructor (primary: Generator, secondary: Generator)
      requires WellFormed(primary) && WellFormed(secondary)
      ensures Valid()
      ensures Primary == primary && Secondary == secondary
    {
      Primary := primary;
      Secondary := secondary;
      Depth := 1 + (if Height(primary) < Height(secondary) then Height(secondary) else Height(primary));
    }

    /** The public constructor: null is modelled as None. The primary
        argument is checked first; a failed check builds nothing and
        calls no generator. */
    static method Create(primary: Option<Generator>, secondary: Option<Generator>)
      returns (r: Result<SelectorGeneratorTee, ConstructionError>)
      requires primary.Some? ==> WellFormed(primary.value)
      requires secondary.Some? ==> WellFormed(secondary.value)
      ensures primary.None? ==> r == Failure(ArgumentNull("primary"))
      ensures primary.Some? && secondary.None? ==> r == Failure(ArgumentNull("secondary"))
      ensures primary.Some? && secondary.Some? ==>
                r.Success? && fresh(r.value) && r.value.Valid() &&
                r.value.Primary == primary.value && r.value.Secondary == secondary.value
    {
      if primary.None? {
        return Failure(ArgumentNull("primary"));
      }
      if secondary.None? {
        return Failure(ArgumentNull("secondary"));
      }
      var t := new SelectorGeneratorTee(primary.value, secondary.value);
      r := Success(t);
    }

    /** Any ISelectorGenerator operation: forwarded to Primary; then, only if
        Primary returned normally, to Secondary. An exception is passed to
        the caller unchanged. Only the backends' log changes. */
    method Handle(e: Event, log: CallLog) returns (r: Outcome<BackendError>)
      requires Valid()
      modifies log
      ensures var p := Deliver(Primary, e);
              if p.outcome.Fail? then
                log.entries == old(log.entries) + p.calls && r == p.outcome
              else
                var s := Deliver(Secondary, e);
                log.entries == old(log.entries) + p.calls + s.calls && r == s.outcome
      ensures log.entries == old(log.entries) + Deliver(TeeOf(this), e).calls
      ensures r == Deliver(TeeOf(this), e).outcome
      decreases Depth, 0
    {
      r := Forward(Primary, e, log);
      if r.Fail? {
        return;
      }
      r := Forward(Secondary, e, log);
    }
  }

  /** One call on an arbitrary generator: a recorder records it, a tee
      relays it. */
  method Forward(g: Generator, e: Event, log: CallLog) returns (r: Outcome<BackendError>)
    requires WellFormed(g)
    modifies log
    ensures log.entries == old(log.entries) + Deliver(g, e).calls
    ensures r == Deliver(g, e).outcome
    decreases Height(g), 1
  {
    match g
    case Stub(rec) =>
      r := Record(rec, e, log);
    case TeeOf(t) =>
      r := t.Handle(e, log);
  }
}
