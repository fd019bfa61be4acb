/** Concrete runs of SelectorGeneratorTee over recording backends, as a
    caller sees them through the tee's own contracts. */
module TeeExamples {
  import opened Wrappers
  import opened SelectorEvents
  import opened Recorders
  import opened Fizzler

  /** The selector `div.foo > span` parsed through a tee of two recorders
      that accept everything: the shared log interleaves the two backends
      event by event, Primary first. */
  method DivFooChildSpan() returns (entries: seq<Entry>, outcomes: seq<Outcome<BackendError>>)
    ensures outcomes == [Pass, Pass, Pass, Pass, Pass, Pass, Pass]
    ensures entries == [
      Entry(1, OnInit), Entry(2, OnInit),
      Entry(1, OnSelector), Entry(2, OnSelector),
      Entry(1, Type(NoPrefix, "div")), Entry(2, Type(NoPrefix, "div")),
      Entry(1, Class("foo")), Entry(2, Class("foo")),
      Entry(1, Child), Entry(2, Child),
      Entry(1, Type(NoPrefix, "span")), Entry(2, Type(NoPrefix, "span")),
      Entry(1, OnClose), Entry(2, OnClose)]
  {
    var log := new CallLog();
    var t := new SelectorGeneratorTee(Stub(Recorder(1, {})), Stub(Recorder(2, {})));
    var r0 := Feed(t, OnInit, log);
    var r1 := Feed(t, OnSelector, log);
    var r2 := Feed(t, Type(NoPrefix, "div"), log);
    var r3 := Feed(t, Class("foo"), log);
    var r4 := Feed(t, Child, log);
    var r5 := Feed(t, Type(NoPrefix, "span"), log);
    var r6 := Feed(t, OnClose, log);
    entries, outcomes := log.entries, [r0, r1, r2, r3, r4, r5, r6];
  }

  /** One call on a tee over the recorders 1 and 2, neither of which
      rejects anything. */
  method Feed(t: SelectorGeneratorTee, e: Event, log: CallLog) returns (r: Outcome<BackendError>)
    requires t.Valid() && t.Primary == Stub(Recorder(1, {})) && t.Secondary == Stub(Recorder(2, {}))
    modifies log
    ensures log.entries == old(log.entries) + [Entry(1, e), Entry(2, e)] && r == Pass
  {
    r := t.Handle(e, log);
  }

  /** A tee whose Primary is a tee of A and B and whose Secondary is C:
      each event reaches A, then B, then C. */
  method NestedTees() returns (entries: seq<Entry>)
    ensures entries == [
      Entry(1, OnInit), Entry(2, OnInit), Entry(3, OnInit),
      Entry(1, NthChild(2, 1)), Entry(2, NthChild(2, 1)), Entry(3, NthChild(2, 1))]
  {
    var log := new CallLog();
    var ab := new SelectorGeneratorTee(Stub(Recorder(1, {})), Stub(Recorder(2, {})));
    var abc := new SelectorGeneratorTee(TeeOf(ab), Stub(Recorder(3, {})));
    var r0 := abc.Handle(OnInit, log);
    assert log.entries == [Entry(1, OnInit), Entry(2, OnInit), Entry(3, OnInit)];
    var r1 := abc.Handle(NthChild(2, 1), log);
    entries := log.entries;
  }

  /** A Primary that rejects `:empty` stops the event there: Secondary
      never sees it, and the caller gets Primary's exception. */
  method PrimaryRejects() returns (entries: seq<Entry>, r: Outcome<BackendError>)
    ensures r == Fail(Rejected(1, Empty))
    ensures entries == [Entry(1, Empty)]
  {
    var log := new CallLog();
    var t := new SelectorGeneratorTee(Stub(Recorder(1, {Empty})), Stub(Recorder(2, {})));
    assert Deliver(t.Primary, Empty) == Delivery([Entry(1, Empty)], Fail(Rejected(1, Empty)));
    r := t.Handle(Empty, log);
    entries := log.entries;
  }

  /** A Secondary that rejects `~` is called after Primary has handled the
      event, and its exception is the one the caller gets. */
  method SecondaryRejects() returns (entries: seq<Entry>, r: Outcome<BackendError>)
    ensures r == Fail(Rejected(2, GeneralSibling))
    ensures entries == [Entry(1, GeneralSibling), Entry(2, GeneralSibling)]
  {
    var log := new CallLog();
    var t := new SelectorGeneratorTee(Stub(Recorder(1, {})), Stub(Recorder(2, {GeneralSibling})));
    assert Deliver(t.Primary, GeneralSibling) == Delivery([Entry(1, GeneralSibling)], Pass);
    assert Deliver(t.Secondary, GeneralSibling) == Delivery([Entry(2, GeneralSibling)], Fail(Rejected(2, GeneralSibling)));
    r := t.Handle(GeneralSibling, log);
    entries := log.entries;
  }

  /** A null argument is reported by name, the primary one first. */
  method NullArguments() returns (both: Result<SelectorGeneratorTee, ConstructionError>,
                                  second: Result<SelectorGeneratorTee, ConstructionError>)
    ensures both == Failure(ArgumentNull("primary"))
    ensures second == Failure(ArgumentNull("secondary"))
  {
    both := SelectorGeneratorTee.Create(None, None);
    second := SelectorGeneratorTee.Create(Some(Stub(Recorder(1, {}))), None);
  }
}
