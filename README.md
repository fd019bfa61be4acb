# SelectorGeneratorTee, modelled in Dafny

Fizzler's CSS-selector parser reports each grammar production it recognises
by calling an `ISelectorGenerator`. The calls cover type and universal
selectors, id and class, the seven attribute operators of section 6.3 of W3C
Selectors Level 3, the structural pseudo-classes of section 6.6.5 and the
four combinators of section 8. `SelectorGeneratorTee` is the generator that
fans one parse out to two others. It holds a `Primary` and a `Secondary`
generator, fixed and null-checked at construction. It forwards every call,
with the same arguments, first to `Primary` and then to `Secondary`.

This project models that class and proves its forwarding law.

- `selector_events.dfy` (module `SelectorEvents`): the interface's 23
  operations as one `Event` datatype, one constructor per operation, with
  that operation's arguments. `NamespacePrefix` is an opaque value.
- `recorders.dfy` (module `Recorders`): stand-in backends. A `Recorder`
  appends `(id, event)` to a `CallLog` shared by all backends, then throws
  (`Fail(Rejected(id, event))`) if the event is in its `rejects` set.
- `selector_generator_tee.dfy` (module `Fizzler`): the class
  `SelectorGeneratorTee`. `Primary` and `Secondary` are `const` fields, so
  nothing after the constructor can change them. `Create` is the public
  constructor with its two null checks. `Handle` is the single relay that
  stands for all 23 forwarding methods. `Generator` is either a recorder or
  a tee, so tees nest. `Deliver(g, e)` is the specification: the calls one
  event causes and the outcome the caller sees.
- `tee_properties.dfy` (module `TeeProperties`): what the law implies.
  This covers order, fail-fast, nesting and associativity, and whole parses
  as the driver feeds them (`Run`, which aborts at the first exception).
- `tee_examples.dfy` (module `TeeExamples`): concrete runs through the
  class's contracts. One is `div.foo > span` through a tee of two recorders.
  The others are a tee of a tee, a failing Primary, a failing Secondary and
  null arguments.

## Model

| member | source | states |
|---|---|---|
| `Fizzler.SelectorGeneratorTee.Create` | Fizzler/SelectorGeneratorTee.cs:27-34 | A null primary fails with ArgumentNull("primary") whatever secondary is, so that check comes first. A non-null primary with a null secondary fails with ArgumentNull("secondary"). Otherwise the result is a new tee with Primary = primary and Secondary = secondary. No generator is called. |
| `Fizzler.SelectorGeneratorTee.constructor` | Fizzler/SelectorGeneratorTee.cs:32-33 | The fields are exactly the two arguments. Being `const`, they never change afterwards. |
| `Fizzler.SelectorGeneratorTee.Handle` | Fizzler/SelectorGeneratorTee.cs:36-241 | Any operation delivers the event to Primary. If Primary threw, the log holds only Primary's calls and the caller gets Primary's exception. Otherwise the log holds Primary's calls, then Secondary's, and the caller gets Secondary's outcome. Only the backends' log changes. |
| `Fizzler.Forward` | Fizzler/SelectorGeneratorTee.cs:10 | A call on any generator, a recorder or a nested tee (the tee is itself an ISelectorGenerator), appends exactly the calls `Deliver` specifies and returns its outcome. |
| `TeeProperties.TeeOfTwoRecorders` | Fizzler/SelectorGeneratorTee.cs:39-43 | For a tee over two recorders, an event issues exactly [Primary.e, Secondary.e] when Primary returns normally, and only [Primary.e] when it throws. The caller sees the exception of the backend that threw. |
| `TeeProperties.DeliverForwardsVerbatim` | Fizzler/SelectorGeneratorTee.cs:111-115 | Every forwarded call carries the event unaltered: prefix, name, value and the `a`, `b` of NthChild. At least one and at most all backends are called. A failure is the last callee's exception, unchanged. The event succeeds iff every backend accepts it. |
| `TeeProperties.DeliverInOrder` | Fizzler/SelectorGeneratorTee.cs:36-241 | For any nesting of tees, an event reaches the recorders left to right, once each, up to and including the first that throws. That recorder's exception reaches the caller. With no exception, every recorder is reached. |
| `TeeProperties.RelayInOrder` | Fizzler/SelectorGeneratorTee.cs:41-42 | Two sequential statements, the second skipped if the first throws, compose two in-order deliveries into one over the concatenated backends. |
| `TeeProperties.InOrderUnique` | Fizzler/SelectorGeneratorTee.cs:36-241 | Which backends a delivery reaches, and in which order, fix the whole delivery. Nothing else influences it. |
| `TeeProperties.SameLeavesSameDelivery` | Fizzler/SelectorGeneratorTee.cs:10 | Transparency: two generators with the same backends in the same order behave identically for every event. |
| `TeeProperties.TeeAssociative` | Fizzler/SelectorGeneratorTee.cs:27-33 | Tee(Tee(x, y), z) and Tee(x, Tee(y, z)) issue the same calls in the same order and end the same way. |
| `TeeProperties.NestedTeeOrder` | Fizzler/SelectorGeneratorTee.cs:39-43 | In Tee(Tee(A, B), C), an event that all three accept reaches A, then B, then C, once each. |
| `TeeProperties.RunAllAccepted` | Fizzler/SelectorGeneratorTee.cs:36-241 | In a parse where no backend throws, every event reaches every backend, event by event, and nothing else is called. |
| `TeeProperties.RunStopsAtFirstRejection` | Fizzler/SelectorGeneratorTee.cs:41-42 | In a parse a backend aborts at event e, earlier events reach everyone. Then e reaches the backends up to the one that throws, and its exception ends the parse. No later event is delivered. |
| `TeeProperties.LogsMirrorInput` | Fizzler/SelectorGeneratorTee.cs:36-241 | With no exception, the parse succeeds and each backend's own log equals the input sequence. The log holds events × backends calls: the tee adds none and drops none. |
| `TeeProperties.RunSnoc` | Fizzler/SelectorGeneratorTee.cs:39-43 | With no exception, each further event appends exactly one call per backend, left to right, after all calls for earlier events. |
| `TeeProperties.TwoRecorderParse` | Fizzler/SelectorGeneratorTee.cs:36-241 | For a tee over two recorders with no exception: each event appends exactly [Primary.e, Secondary.e] after all earlier events' calls. Each recorder's log equals the input, and there are two calls per event. |
| `TeeExamples.DivFooChildSpan` | Fizzler/SelectorGeneratorTee.cs:39-97 | Parsing `div.foo > span` (init, selector, type div, class foo, child, type span, close) through a tee of recorders 1 and 2 logs each event as (1, e) then (2, e). All seven calls return normally. |
| `TeeExamples.NestedTees` | Fizzler/SelectorGeneratorTee.cs:183-187 | In a tee of a tee, OnInit and NthChild(2, 1) each reach recorders 1, 2, 3 in that order, with the coefficients unchanged. |
| `TeeExamples.PrimaryRejects` | Fizzler/SelectorGeneratorTee.cs:201-205 | If Primary rejects `:empty`, Secondary is never called for it, and the caller gets Primary's exception. |
| `TeeExamples.SecondaryRejects` | Fizzler/SelectorGeneratorTee.cs:237-241 | If Secondary rejects `~`, Primary has already logged it. The caller gets Secondary's exception. |
| `TeeExamples.NullArguments` | Fizzler/SelectorGeneratorTee.cs:29-30 | With both arguments null the error names "primary". With only secondary null it names "secondary". |

## Left out

- The 23 forwarding methods are one `Handle` method over the `Event`
  datatype. They differ only in which operation and arguments they pass on,
  which the event value carries.
- Concrete generators, the selector parser and its tokenizer are outside
  this model. `Recorder` stands in for any backend.
- A real backend may decide to throw based on its own state. A `Recorder`
  rejects a fixed set of events, so the model does not cover
  history-dependent rejection. The tee's behaviour does not depend on why a
  backend throws.
- .NET exceptions are values. `ArgumentNullException` is
  `ArgumentNull(paramName)`, and a backend's exception is
  `Fail(Rejected(id, event))`. Exception types and stack unwinding are not
  modelled.
- `NamespacePrefix` is reduced to an optional text. The tee never
  inspects it; it only passes it on.
- The `string` arguments of `Type`, `Id`, `Class` and the `Attribute*`
  operations may be null in C#, and the tee forwards them unchecked (it
  null-checks only its constructor's arguments). Dafny strings cannot be
  null, so null arguments are not modelled. No proved property depends on
  this, since the tee never reads its arguments.
- `NthChild`'s coefficients are C# 32-bit `int`s but are modelled as
  unbounded `int`s. The tee does no arithmetic on them, so no wrap-around
  can arise.
- Legal call order is not checked: init first, close last, nothing after
  close. The class checks none of it, and neither does the model.
- A behaviour for calls before init or after close is not chosen either.
  The class has none; it forwards whatever it is given.
- `Fizzler.SelectorGeneratorTee.Create`: it requires any nested tee passed
  in to satisfy `Valid()`, i.e. to be acyclic. Tees alone cannot form a
  cycle, because a tee's fields are assigned only by its constructor, and
  every tee this model builds satisfies `Valid()`. A cycle through a custom
  backend that forwards to a target assigned later (say, a forwarder whose
  target is set to a new tee wrapping that forwarder) is possible in C#,
  and a call then recurses without end. That case is outside the model,
  whose only non-tee backends are recorders.
- No concurrency, blocking or cancellation is modelled. The class is
  purely synchronous.
- The shared `CallLog` is how the model observes call order. A real backend
  keeps its own private state, and the tee provides no channel between the
  two.
- The whole-parse lemmas are stated about the function
  `TeeProperties.Run`, not about a driver loop, since the class has none.
  By `Handle`'s contract, a driver that calls `t.Handle` once per event
  of `events` and stops at the first `Fail` leaves
  `log.entries == old(log.entries) + Run(TeeOf(t), events).calls`.
