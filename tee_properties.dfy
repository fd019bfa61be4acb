/** What the forwarding law of SelectorGeneratorTee implies: the order in
    which the backends behind a (possibly nested) tee see each event, how a
    failure stops the fan-out, and what each backend's log holds after a
    whole parse. */
module TeeProperties {
  import opened Wrappers
  import opened SelectorEvents
  import opened Recorders
  import opened Fizzler

  /** Index of the first recorder in `ls` that rejects `e`, or |ls| if all
      of them accept it. */
  function FirstRejecting(ls: seq<Recorder>, e: Event): (k: nat)
    ensures k <= |ls|
    ensures forall i :: 0 <= i < k ==> e !in ls[i].rejects
    ensures k < |ls| ==> e in ls[k].rejects
  {
    if ls == [] then 0
    else if e in ls[0].rejects then 0
    else 1 + FirstRejecting(ls[1..], e)
  }

  /** The event `e` received by each recorder of `ls`, in order. */
  function Broadcast(ls: seq<Recorder>, e: Event): seq<Entry>
  {
    seq(|ls|, i requires 0 <= i < |ls| => Entry(ls[i].id, e))
  }

  lemma {:induction false} FirstRejectingAppend(a: seq<Recorder>, b: seq<Recorder>, e: Event)
    ensures FirstRejecting(a + b, e) ==
            if FirstRejecting(a, e) < |a| then FirstRejecting(a, e) else |a| + FirstRejecting(b, e)
  {
    if a != [] {
      assert (a + b)[1..] == a[1..] + b;
      FirstRejectingAppend(a[1..], b, e);
    } else {
      assert a + b == b;
    }
  }

  /** `d` is what delivering `e` to the recorders `ls` in order, stopping
      at the first that throws, would produce. */
  ghost predicate InOrder(ls: seq<Recorder>, d: Delivery, e: Event)
  {
    var k := FirstRejecting(ls, e);
    |d.calls| == (if k < |ls| then k + 1 else |ls|) &&
    d.outcome == (if k < |ls| then Fail(Rejected(ls[k].id, e)) else Pass) &&
    forall i {:trigger d.calls[i]} :: 0 <= i < |d.calls| ==> d.calls[i] == Entry(ls[i].id, e)
  }

  /** Relaying to two in-order deliveries, the second only when the first
      completed normally, is an in-order delivery to both lists. */
  lemma RelayInOrder(lp: seq<Recorder>, lq: seq<Recorder>, p: Delivery, q: Delivery, e: Event)
    requires InOrder(lp, p, e) && InOrder(lq, q, e)
    ensures InOrder(lp + lq, if p.outcome.Fail? then p else Delivery(p.calls + q.calls, q.outcome), e)
  {
    FirstRejectingAppend(lp, lq, e);
    if FirstRejecting(lp, e) < |lp| {
      RelayStopsAtPrimary(lp, lq, p, e);
    } else {
      RelayReachesSecondary(lp, lq, p, q, e);
    }
  }

  lemma RelayStopsAtPrimary(lp: seq<Recorder>, lq: seq<Recorder>, p: Delivery, e: Event)
    requires InOrder(lp, p, e) && FirstRejecting(lp, e) < |lp|
    requires FirstRejecting(lp + lq, e) == FirstRejecting(lp, e)
    ensures InOrder(lp + lq, p, e)
  {
    var kp := FirstRejecting(lp, e);
    assert (lp + lq)[kp] == lp[kp];
    forall i | 0 <= i < |p.calls| ensures p.calls[i] == Entry((lp + lq)[i].id, e) {
      assert (lp + lq)[i] == lp[i];
    }
  }

  lemma RelayReachesSecondary(lp: seq<Recorder>, lq: seq<Recorder>, p: Delivery, q: Delivery, e: Event)
    requires InOrder(lp, p, e) && InOrder(lq, q, e) && FirstRejecting(lp, e) == |lp|
    requires FirstRejecting(lp + lq, e) == |lp| + FirstRejecting(lq, e)
    ensures InOrder(lp + lq, Delivery(p.calls + q.calls, q.outcome), e)
  {
    var kq := FirstRejecting(lq, e);
    var calls := p.calls + q.calls;
    assert kq < |lq| ==> (lp + lq)[|lp| + kq] == lq[kq];
    forall i | 0 <= i < |lp| ensures calls[i] == Entry((lp + lq)[i].id, e) {
      assert (lp + lq)[i] == lp[i];
    }
    forall i | |lp| <= i < |calls| ensures calls[i] == Entry((lp + lq)[i].id, e) {
      assert (lp + lq)[i] == lq[i - |lp|];
    }
  }

  /** Delivering an event to any generator, tee or not, reaches its
      recorders from left to right, each once, up to and including the
      first one that throws; that recorder's exception is what the caller
      sees. If none throws, every recorder receives the event and the
      caller sees normal completion. */
  lemma {:induction false} DeliverInOrder(g: Generator, e: Event)
    requires WellFormed(g)
    ensures InOrder(Leaves(g), Deliver(g, e), e)
    decreases Height(g)
  {
    match g
    case Stub(rec) =>
    case TeeOf(t) =>
      DeliverInOrder(t.Primary, e);
      DeliverInOrder(t.Secondary, e);
      RelayInOrder(Leaves(t.Primary), Leaves(t.Secondary), Deliver(t.Primary, e), Deliver(t.Secondary, e), e);
  }

  /** What a delivery never does: it calls at least one and at most all of
      the backends, each call carries the event unaltered (the same
      namespace prefix, name, value and `an+b` coefficients), and a failure
      is the exception of the last backend called, unchanged. */
  lemma DeliverForwardsVerbatim(g: Generator, e: Event)
    requires WellFormed(g)
    ensures var d := Deliver(g, e);
            1 <= |d.calls| <= |Leaves(g)| &&
            (forall i :: 0 <= i < |d.calls| ==> d.calls[i].event == e) &&
            (d.outcome.Fail? ==> d.outcome == Fail(Rejected(d.calls[|d.calls| - 1].backend, e))) &&
            (d.outcome.Pass? <==> |d.calls| == |Leaves(g)| && forall j :: 0 <= j < |Leaves(g)| ==> e !in Leaves(g)[j].rejects)
  {
    DeliverInOrder(g, e);
  }

  /** An in-order delivery is determined by the recorders and the event:
      the tee's behaviour depends only on which backends it reaches, in
      which order. */
  lemma InOrderUnique(ls: seq<Recorder>, d: Delivery, d': Delivery, e: Event)
    requires InOrder(ls, d, e) && InOrder(ls, d', e)
    ensures d == d'
  {
    assert d.calls == d'.calls;
  }

  /** When every recorder accepts `e`, the in-order delivery calls each of
      them once and completes normally. */
  lemma InOrderAccepted(ls: seq<Recorder>, d: Delivery, e: Event)
    requires InOrder(ls, d, e)
    requires forall j :: 0 <= j < |ls| ==> e !in ls[j].rejects
    ensures d == Delivery(Broadcast(ls, e), Pass)
  {
    assert FirstRejecting(ls, e) == |ls|;
    assert d.calls == Broadcast(ls, e);
  }

  /** The forwarding law for a tee over two recorders: exactly the calls
      [Primary.e, Secondary.e] when Primary returns normally, only
      [Primary.e] when it throws, and the caller sees the exception of the
      backend that threw. */
  lemma TeeOfTwoRecorders(t: SelectorGeneratorTee, e: Event)
    requires t.Valid() && t.Primary.Stub? && t.Secondary.Stub?
    ensures var a, b := t.Primary.rec, t.Secondary.rec;
            Deliver(TeeOf(t), e) ==
              if e in a.rejects then Delivery([Entry(a.id, e)], Fail(Rejected(a.id, e)))
              else if e in b.rejects then Delivery([Entry(a.id, e), Entry(b.id, e)], Fail(Rejected(b.id, e)))
              else Delivery([Entry(a.id, e), Entry(b.id, e)], Pass)
  {
  }

  /** Two generators with the same recorders in the same order behave the
      same for every event, however their tees are nested. */
  lemma SameLeavesSameDelivery(g: Generator, g': Generator, e: Event)
    requires WellFormed(g) && WellFormed(g') && Leaves(g) == Leaves(g')
    ensures Deliver(g, e) == Deliver(g', e)
  {
    DeliverInOrder(g, e);
    DeliverInOrder(g', e);
    InOrderUnique(Leaves(g), Deliver(g, e), Deliver(g', e), e);
  }

  /** Regrouping nested tees does not change what any backend sees:
      Tee(Tee(x, y), z) and Tee(x, Tee(y, z)) issue the same calls in the
      same order and end the same way. */
  lemma TeeAssociative(inner: SelectorGeneratorTee, outer: SelectorGeneratorTee,
                       inner': SelectorGeneratorTee, outer': SelectorGeneratorTee, e: Event)
    requires outer.Valid() && outer'.Valid()
    requires outer.Primary == TeeOf(inner) && outer'.Secondary == TeeOf(inner')
    requires inner.Primary == outer'.Primary && inner.Secondary == inner'.Primary
    requires outer.Secondary == inner'.Secondary
    ensures Deliver(TeeOf(outer), e) == Deliver(TeeOf(outer'), e)
  {
    var x, y, z := Leaves(inner.Primary), Leaves(inner.Secondary), Leaves(outer.Secondary);
    assert Leaves(TeeOf(outer)) == (x + y) + z;
    assert Leaves(TeeOf(outer')) == x + (y + z);
    assert (x + y) + z == x + (y + z);
    SameLeavesSameDelivery(TeeOf(outer), TeeOf(outer'), e);
  }

  /** A tee whose Primary is itself a tee of A and B, and whose Secondary
      is C: each event reaches A, then B, then C, once each. */
  lemma NestedTeeOrder(inner: SelectorGeneratorTee, outer: SelectorGeneratorTee, e: Event)
    requires outer.Valid() && outer.Primary == TeeOf(inner) && outer.Secondary.Stub?
    requires inner.Primary.Stub? && inner.Secondary.Stub?
    requires e !in inner.Primary.rec.rejects && e !in inner.Secondary.rec.rejects && e !in outer.Secondary.rec.rejects
    ensures var a, b, c := inner.Primary.rec, inner.Secondary.rec, outer.Secondary.rec;
            Deliver(TeeOf(outer), e) == Delivery([Entry(a.id, e), Entry(b.id, e), Entry(c.id, e)], Pass)
  {
    var ls := Leaves(TeeOf(outer));
    assert inner.Primary == Stub(inner.Primary.rec) && inner.Secondary == Stub(inner.Secondary.rec);
    assert outer.Secondary == Stub(outer.Secondary.rec);
    assert Leaves(outer.Primary) == Leaves(inner.Primary) + Leaves(inner.Secondary);
    assert Leaves(outer.Primary) == [inner.Primary.rec, inner.Secondary.rec];
    assert ls == Leaves(outer.Primary) + Leaves(outer.Secondary);
    assert ls == [inner.Primary.rec, inner.Secondary.rec, outer.Secondary.rec];
    DeliverInOrder(TeeOf(outer), e);
    InOrderAccepted(ls, Deliver(TeeOf(outer), e), e);
  }

  /** The driver (the selector parser) feeds `events` in order and aborts
      the parse at the first exception. By the contract of `Handle`, a
      driver that calls `t.Handle` once per event and stops at the first
      `Fail` leaves `log.entries == old(log.entries) +
      Run(TeeOf(t), events).calls`, with `Run(TeeOf(t), events).outcome` as
      the last outcome it saw. */
  function Run(g: Generator, events: seq<Event>): Delivery
    requires WellFormed(g)
    decreases |events|
  {
    if events == [] then Delivery([], Pass)
    else
      var d := Deliver(g, events[0]);
      if d.outcome.Fail? then d
      else
        var rest := Run(g, events[1..]);
        Delivery(d.calls + rest.calls, rest.outcome)
  }

  /** Every event of `events`, each broadcast to all of `ls`. */
  function Grid(ls: seq<Recorder>, events: seq<Event>): seq<Entry>
    decreases |events|
  {
    if events == [] then [] else Broadcast(ls, events[0]) + Grid(ls, events[1..])
  }

  /** The calls recorded for backend `id`, in order. */
  function Project(calls: seq<Entry>, id: BackendId): (evs: seq<Event>)
    ensures |evs| <= |calls|
  {
    if calls == [] then []
    else (if calls[0].backend == id then [calls[0].event] else []) + Project(calls[1..], id)
  }

  ghost predicate AllAccept(ls: seq<Recorder>, events: seq<Event>)
  {
    forall i, j :: 0 <= i < |events| && 0 <= j < |ls| ==> events[i] !in ls[j].rejects
  }

  ghost predicate DistinctIds(ls: seq<Recorder>)
  {
    forall i, j :: 0 <= i < j < |ls| ==> ls[i].id != ls[j].id
  }

  lemma AcceptedHead(ls: seq<Recorder>, events: seq<Event>)
    requires AllAccept(ls, events) && events != []
    ensures forall j :: 0 <= j < |ls| ==> events[0] !in ls[j].rejects
    ensures AllAccept(ls, events[1..])
  {
    forall i, j | 0 <= i < |events| - 1 && 0 <= j < |ls|
      ensures events[1..][i] !in ls[j].rejects
    {
      assert events[1..][i] == events[i + 1];
    }
  }

  /** An event every backend accepts reaches all of them, and the parse
      goes on with the next event. */
  lemma RunAcceptedHead(g: Generator, events: seq<Event>)
    requires WellFormed(g) && events != []
    requires forall j :: 0 <= j < |Leaves(g)| ==> events[0] !in Leaves(g)[j].rejects
    ensures Run(g, events) == Delivery(Broadcast(Leaves(g), events[0]) + Run(g, events[1..]).calls, Run(g, events[1..]).outcome)
  {
    DeliverInOrder(g, events[0]);
    InOrderAccepted(Leaves(g), Deliver(g, events[0]), events[0]);
  }

  /** A parse in which no backend throws: every event reaches every
      recorder, event by event, and nothing else is called. */
  lemma {:induction false} RunAllAccepted(g: Generator, events: seq<Event>)
    requires WellFormed(g) && AllAccept(Leaves(g), events)
    ensures Run(g, events) == Delivery(Grid(Leaves(g), events), Pass)
    decreases |events|
  {
    if events != [] {
      AcceptedHead(Leaves(g), events);
      RunAcceptedHead(g, events);
      RunAllAccepted(g, events[1..]);
    }
  }

  /** A parse that some backend aborts at event `e`: the events before it
      reach everyone, `e` reaches the backends up to the one that throws,
      that exception ends the parse, and no later event is delivered. */
  lemma {:induction false} RunStopsAtFirstRejection(g: Generator, before: seq<Event>, e: Event, after: seq<Event>)
    requires WellFormed(g) && AllAccept(Leaves(g), before)
    requires FirstRejecting(Leaves(g), e) < |Leaves(g)|
    ensures Run(g, before + [e] + after) == Delivery(Grid(Leaves(g), before) + Deliver(g, e).calls, Deliver(g, e).outcome)
    ensures Run(g, before + [e] + after).outcome.Fail?
    decreases |before|
  {
    var ls := Leaves(g);
    DeliverInOrder(g, e);
    if before == [] {
      assert (before + [e] + after)[0] == e;
    } else {
      AcceptedHead(ls, before);
      RunStopsAtFirstRejection(g, before[1..], e, after);
      RunStopsAfterAcceptedHead(g, before, e, after);
    }
  }

  lemma RunStopsAfterAcceptedHead(g: Generator, before: seq<Event>, e: Event, after: seq<Event>)
    requires WellFormed(g) && before != []
    requires forall j :: 0 <= j < |Leaves(g)| ==> before[0] !in Leaves(g)[j].rejects
    requires Run(g, before[1..] + [e] + after) ==
             Delivery(Grid(Leaves(g), before[1..]) + Deliver(g, e).calls, Deliver(g, e).outcome)
    ensures Run(g, before + [e] + after) == Delivery(Grid(Leaves(g), before) + Deliver(g, e).calls, Deliver(g, e).outcome)
  {
    var events := before + [e] + after;
    assert events[0] == before[0] && events[1..] == before[1..] + [e] + after;
    RunAcceptedHead(g, events);
    var b, g', d := Broadcast(Leaves(g), before[0]), Grid(Leaves(g), before[1..]), Deliver(g, e);
    assert b + (g' + d.calls) == (b + g') + d.calls;
  }

  lemma {:induction false} GridLength(ls: seq<Recorder>, events: seq<Event>)
    ensures |Grid(ls, events)| == |events| * |ls|
    decreases |events|
  {
    if events != [] {
      GridLength(ls, events[1..]);
      assert |events| * |ls| == |ls| + (|events| - 1) * |ls|;
    }
  }

  /** One more event in a complete parse appends its broadcast to the
      grid: all calls for one event come before those for the next. */
  lemma {:induction false} GridSnoc(ls: seq<Recorder>, events: seq<Event>, e: Event)
    ensures Grid(ls, events + [e]) == Grid(ls, events) + Broadcast(ls, e)
    decreases |events|
  {
    if events == [] {
      assert events + [e] == [e];
      assert [e][1..] == [];
    } else {
      assert (events + [e])[0] == events[0];
      assert (events + [e])[1..] == events[1..] + [e];
      GridSnoc(ls, events[1..], e);
    }
  }

  lemma AcceptedPrefix(ls: seq<Recorder>, events: seq<Event>, k: nat)
    requires AllAccept(ls, events) && k <= |events|
    ensures AllAccept(ls, events[..k])
  {
    forall i, j | 0 <= i < k && 0 <= j < |ls|
      ensures events[..k][i] !in ls[j].rejects
    {
      assert events[..k][i] == events[i];
    }
  }

  lemma {:induction false} ProjectAppend(a: seq<Entry>, b: seq<Entry>, id: BackendId)
    ensures Project(a + b, id) == Project(a, id) + Project(b, id)
  {
    if a == [] {
      assert a + b == b;
    } else {
      var head := if a[0].backend == id then [a[0].event] else [];
      assert (a + b)[0] == a[0];
      assert (a + b)[1..] == a[1..] + b;
      assert Project(a + b, id) == head + Project(a[1..] + b, id);
      ProjectAppend(a[1..], b, id);
      assert head + (Project(a[1..], id) + Project(b, id)) == (head + Project(a[1..], id)) + Project(b, id);
    }
  }

  lemma {:induction false} ProjectBroadcastAbsent(ls: seq<Recorder>, e: Event, id: BackendId)
    requires forall j :: 0 <= j < |ls| ==> ls[j].id != id
    ensures Project(Broadcast(ls, e), id) == []
    decreases |ls|
  {
    if ls != [] {
      var b := Broadcast(ls, e);
      assert b[1..] == Broadcast(ls[1..], e);
      ProjectBroadcastAbsent(ls[1..], e, id);
    }
  }

  lemma {:induction false} ProjectBroadcastOnce(ls: seq<Recorder>, e: Event, j: nat)
    requires DistinctIds(ls) && j < |ls|
    ensures Project(Broadcast(ls, e), ls[j].id) == [e]
    decreases |ls|
  {
    var b := Broadcast(ls, e);
    assert b[1..] == Broadcast(ls[1..], e);
    if j == 0 {
      ProjectBroadcastAbsent(ls[1..], e, ls[0].id);
    } else {
      assert ls[1..][j - 1] == ls[j];
      ProjectBroadcastOnce(ls[1..], e, j - 1);
    }
  }

  /** In a complete parse each recorder's own log is exactly the event
      sequence fed in, provided recorders have distinct ids. */
  lemma {:induction false} ProjectGrid(ls: seq<Recorder>, events: seq<Event>, j: nat)
    requires DistinctIds(ls) && j < |ls|
    ensures Project(Grid(ls, events), ls[j].id) == events
    decreases |events|
  {
    if events != [] {
      ProjectAppend(Broadcast(ls, events[0]), Grid(ls, events[1..]), ls[j].id);
      ProjectBroadcastOnce(ls, events[0], j);
      ProjectGrid(ls, events[1..], j);
    }
  }

  /** In a complete parse, with recorders of distinct ids, each
      recorder's own log is the input and the grid has one call per event
      per recorder. */
  lemma GridFacts(ls: seq<Recorder>, events: seq<Event>)
    requires DistinctIds(ls)
    ensures |Grid(ls, events)| == |events| * |ls|
    ensures forall j :: 0 <= j < |ls| ==> Project(Grid(ls, events), ls[j].id) == events
  {
    GridLength(ls, events);
    forall j | 0 <= j < |ls| ensures Project(Grid(ls, events), ls[j].id) == events {
      ProjectGrid(ls, events, j);
    }
  }

  /** A parse in which no backend throws, fed through any generator: the
      parse succeeds, every backend's log equals the input, and the number
      of calls is (number of events) x (number of backends). The tee adds
      no call of its own and drops none. */
  lemma LogsMirrorInput(g: Generator, events: seq<Event>)
    requires WellFormed(g) && AllAccept(Leaves(g), events) && DistinctIds(Leaves(g))
    ensures Run(g, events).outcome == Pass
    ensures |Run(g, events).calls| == |events| * |Leaves(g)|
    ensures forall j :: 0 <= j < |Leaves(g)| ==> Project(Run(g, events).calls, Leaves(g)[j].id) == events
  {
    RunAllAccepted(g, events);
    GridFacts(Leaves(g), events);
  }

  /** Each further event of a parse in which no backend throws appends
      exactly its broadcast, backends left to right, after all calls for
      the earlier events. */
  lemma RunSnoc(g: Generator, events: seq<Event>, e: Event)
    requires WellFormed(g) && AllAccept(Leaves(g), events + [e])
    ensures Run(g, events).outcome == Pass
    ensures Run(g, events + [e]) == Delivery(Run(g, events).calls + Broadcast(Leaves(g), e), Pass)
  {
    AcceptedPrefix(Leaves(g), events + [e], |events|);
    assert (events + [e])[..|events|] == events;
    RunAllAccepted(g, events);
    RunAllAccepted(g, events + [e]);
    GridSnoc(Leaves(g), events, e);
  }

  /** For a tee over two recorders, a parse in which neither throws: each
      event appends exactly [Primary.e, Secondary.e] to the log, after the
      calls for every earlier event; each recorder's own log is the input;
      the log holds two calls per event. */
  lemma TwoRecorderParse(t: SelectorGeneratorTee, events: seq<Event>)
    requires t.Valid() && t.Primary.Stub? && t.Secondary.Stub?
    requires t.Primary.rec.id != t.Secondary.rec.id
    requires forall i :: 0 <= i < |events| ==> events[i] !in t.Primary.rec.rejects && events[i] !in t.Secondary.rec.rejects
    ensures var r, a, b := Run(TeeOf(t), events), t.Primary.rec, t.Secondary.rec;
            r.outcome == Pass && |r.calls| == 2 * |events| &&
            Project(r.calls, a.id) == events && Project(r.calls, b.id) == events
    ensures forall i :: 0 <= i < |events| ==>
              Run(TeeOf(t), events[..i + 1]).calls ==
              Run(TeeOf(t), events[..i]).calls + [Entry(t.Primary.rec.id, events[i]), Entry(t.Secondary.rec.id, events[i])]
  {
    var g := TeeOf(t);
    var ls := Leaves(g);
    assert t.Primary == Stub(t.Primary.rec) && t.Secondary == Stub(t.Secondary.rec);
    assert ls == Leaves(t.Primary) + Leaves(t.Secondary);
    assert ls == [t.Primary.rec, t.Secondary.rec];
    assert AllAccept(ls, events);
    LogsMirrorInput(g, events);
    assert Project(Run(g, events).calls, ls[0].id) == events;
    assert Project(Run(g, events).calls, ls[1].id) == events;
    forall i | 0 <= i < |events|
      ensures Run(g, events[..i + 1]).calls == Run(g, events[..i]).calls + [Entry(ls[0].id, events[i]), Entry(ls[1].id, events[i])]
    {
      TwoRecorderStep(t, events, i);
    }
  }

  lemma TwoRecorderStep(t: SelectorGeneratorTee, events: seq<Event>, i: nat)
    requires t.Valid() && t.Primary.Stub? && t.Secondary.Stub?
    requires Leaves(TeeOf(t)) == [t.Primary.rec, t.Secondary.rec]
    requires AllAccept(Leaves(TeeOf(t)), events) && i < |events|
    ensures Run(TeeOf(t), events[..i + 1]).calls ==
            Run(TeeOf(t), events[..i]).calls + [Entry(t.Primary.rec.id, events[i]), Entry(t.Secondary.rec.id, events[i])]
  {
    var ls := Leaves(TeeOf(t));
    assert events[..i + 1] == events[..i] + [events[i]];
    AcceptedPrefix(ls, events, i + 1);
    RunSnoc(TeeOf(t), events[..i], events[i]);
    assert Broadcast(ls, events[i]) == [Entry(ls[0].id, events[i]), Entry(ls[1].id, events[i])];
  }
}
