/** Stand-ins for concrete ISelectorGenerator backends: each records every
    call it receives in a log shared by all backends, and throws on the
    events it does not support. */
module Recorders {
  import opened Wrappers
  import opened SelectorEvents

  type BackendId = nat

  /** One call observed by a backend, in the order calls were issued. */
  datatype Entry = Entry(backend: BackendId, event: Event)

  /** The exception a backend throws when it rejects an event. */
  datatype BackendError = Rejected(backend: BackendId, event: Event)

  /** A recording backend that throws on the events in `rejects`. */
  datatype Recorder = Recorder(id: BackendId, rejects: set<Event>)

  /** How the recorder `rec` answers the call `e`. */
  function Respond(rec: Recorder, e: Event): Outcome<BackendError>
  {
    if e in rec.rejects then Fail(Rejected(rec.id, e)) else Pass
  }

  /** The log every recorder appends to; its order is the global call order. */
  class CallLog {
    var entries: seq<Entry>

    constructor ()
      ensures entries == []
    {
      entries := [];
    }
  }

  /** The recorder `rec` receives the call `e`: the call is logged whether
      or not the recorder then throws. */
  method Record(rec: Recorder, e: Event, log: CallLog) returns (r: Outcome<BackendError>)
    modifies log
    ensures log.entries == old(log.entries) + [Entry(rec.id, e)]
    ensures r == Respond(rec, e)
  {
    log.entries := log.entries + [Entry(rec.id, e)];
    r := Respond(rec, e);
  }
}
