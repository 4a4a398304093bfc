/** The read streamer (`_streamResults` in gun-tingo.js): the cursor's
    `data`, `error`, `end` and `close` handlers, which share the variables
    `buffer`, `hasResult` and `queryErr` and call `streamOut(error, payload)`.
    The cursor is a finite sequence of events delivered one at a time. */
module ReadStream {
  import opened Wrappers
  import opened Errors

  /** A cursor event. `Data(None)` is a falsy document; an error argument
      `None` is a falsy one (`end` is normally emitted without argument). */
  datatype Event<D> = Data(item: Option<D>) | Error(err: Option<string>) | End(err: Option<string>) | Close

  /** One call `streamOut(signal, payload)`; a call with one argument has
      payload `None`. */
  datatype Emission<D> = Emission(signal: Signal, payload: Option<seq<D>>)

  /** The variables the handlers share. */
  datatype State<D> = State(buffer: seq<D>, hasResult: bool, queryErr: Option<string>)

  /** The state and every emission so far. */
  datatype Run<D> = Run(state: State<D>, emitted: seq<Emission<D>>)

  function Init<D>(): State<D> {
    State([], false, None)
  }

  /** One handler invocation. `chunk` is the `this.chunkSize` the `data`
      handler reads; `None` when the object `this` is bound to has no such
      property, in which case the buffer never reaches it. */
  function Step<D>(s: State<D>, e: Event<D>, chunk: Option<nat>): Run<D> {
    match e
    case Data(item) =>
      if item.None? then Run(s, [])
      else
        var b := s.buffer + [item.value];
        if chunk == Some(|b|) then Run(State([], true, s.queryErr), [Emission(Ok, Some(b))])
        else Run(State(b, true, s.queryErr), [])
    case Error(err) =>
      Run(s.(queryErr := err), [])
    case End(err) =>
      var s' := s.(queryErr := err);
      if err.None? && !s.hasResult then Run(s', [Emission(NotFound, None)])
      else Run(s', [Emission(if err.Some? then Internal else Ok,
                             if |s.buffer| > 0 then Some(s.buffer) else None)])
    case Close =>
      Run(s, [Emission(if s.queryErr.Some? then Internal else Ok, None)])
  }

  /** The handlers applied to the events in arrival order. */
  function Fold<D>(events: seq<Event<D>>, chunk: Option<nat>): Run<D>
    decreases |events|
  {
    if events == [] then Run(Init(), [])
    else
      var r := Fold(events[..|events| - 1], chunk);
      var t := Step(r.state, events[|events| - 1], chunk);
      Run(t.state, r.emitted + t.emitted)
  }

  /** `_streamResults`: the handlers' shared variables as locals, updated
      event by event. */
  method StreamResults<D>(events: seq<Event<D>>, chunk: Option<nat>) returns (emitted: seq<Emission<D>>)
    ensures emitted == Fold(events, chunk).emitted
  {
    var hasResult := false;
    var queryErr: Option<string> := None;
    var buffer: seq<D> := [];
    emitted := [];
    var i := 0;
    while i < |events|
      invariant 0 <= i <= |events|
      invariant Fold(events[..i], chunk) == Run(State(buffer, hasResult, queryErr), emitted)
    {
      assert events[..i + 1][..i] == events[..i];
      match events[i] {
        case Data(item) =>
        if item.Some? {
          hasResult := true;
          buffer := buffer + [item.value];
          if chunk == Some(|buffer|) {
            emitted := emitted + [Emission(Ok, Some(buffer))];
            buffer := [];
          }
        }
      case Error(err) =>
        queryErr := err;
      case End(err) =>
        queryErr := err;
        if err.None? && !hasResult {
          emitted := emitted + [Emission(NotFound, None)];
        } else {
          emitted := emitted + [Emission(if queryErr.Some? then Internal else Ok,
                                         if |buffer| > 0 then Some(buffer) else None)];
        }
      case Close =>
        emitted := emitted + [Emission(if queryErr.Some? then Internal else Ok, None)];
      }
      i := i + 1;
    }
    assert events[..|events|] == events;
  }

  // ---------------------------------------------------------------------
  // Reference definitions over the event sequence alone

  predicate IsDoc<D>(e: Event<D>) {
    e.Data? && e.item.Some?
  }

  /** The truthy documents, in arrival order. */
  function Docs<D>(events: seq<Event<D>>): seq<D>
    decreases |events|
  {
    if events == [] then []
    else
      var e := events[|events| - 1];
      Docs(events[..|events| - 1]) + (if IsDoc(e) then [e.item.value] else [])
  }

  /** The argument of the last `error` or `end` event. */
  function LastErr<D>(events: seq<Event<D>>): Option<string>
    decreases |events|
  {
    if events == [] then None
    else
      var e := events[|events| - 1];
      if e.Error? || e.End? then e.err else LastErr(events[..|events| - 1])
  }

  /** The concatenation of all non-null payloads. */
  function Payloads<D>(out: seq<Emission<D>>): seq<D>
    decreases |out|
  {
    if out == [] then []
    else
      var m := out[|out| - 1];
      Payloads(out[..|out| - 1]) + (if m.payload.Some? then m.payload.value else [])
  }

  /** The events of a cursor that yields `docs` and nothing else. */
  function DataEvents<D>(docs: seq<D>): (events: seq<Event<D>>)
    decreases |docs|
  {
    if docs == [] then []
    else DataEvents(docs[..|docs| - 1]) + [Data(Some(docs[|docs| - 1]))]
  }

  lemma DataEventsSnoc<D>(docs: seq<D>, d: D)
    ensures DataEvents(docs + [d]) == DataEvents(docs) + [Data(Some(d))]
  {
    assert (docs + [d])[..|docs|] == docs;
  }

  // ---------------------------------------------------------------------
  // Properties of the fold

  lemma FoldSnoc<D>(events: seq<Event<D>>, e: Event<D>, chunk: Option<nat>)
    ensures Fold(events + [e], chunk)
            == Run(Step(Fold(events, chunk).state, e, chunk).state,
                   Fold(events, chunk).emitted + Step(Fold(events, chunk).state, e, chunk).emitted)
  {
    assert (events + [e])[..|events|] == events;
  }

  /** `hasResult` is set exactly when some truthy document has arrived. */
  lemma {:induction false} HasResultIffDocs<D>(events: seq<Event<D>>, chunk: Option<nat>)
    ensures Fold(events, chunk).state.hasResult <==> Docs(events) != []
  {
    if events != [] {
      var p := events[..|events| - 1];
      assert events == p + [events[|events| - 1]];
      FoldSnoc(p, events[|events| - 1], chunk);
      HasResultIffDocs(p, chunk);
    }
  }

  /** `queryErr` is the argument of the last `error` or `end` event: an
      `end` replaces any error an earlier `error` event recorded. */
  lemma {:induction false} QueryErrIsLastErr<D>(events: seq<Event<D>>, chunk: Option<nat>)
    ensures Fold(events, chunk).state.queryErr == LastErr(events)
  {
    if events != [] {
      var p := events[..|events| - 1];
      assert events == p + [events[|events| - 1]];
      FoldSnoc(p, events[|events| - 1], chunk);
      QueryErrIsLastErr(p, chunk);
    }
  }

  /** With a chunk size of at least 1, the buffer is always shorter than it. */
  lemma {:induction false} BufferBelowChunk<D>(events: seq<Event<D>>, n: nat)
    requires n >= 1
    ensures |Fold(events, Some(n)).state.buffer| < n
  {
    if events != [] {
      var p := events[..|events| - 1];
      assert events == p + [events[|events| - 1]];
      FoldSnoc(p, events[|events| - 1], Some(n));
      BufferBelowChunk(p, n);
    }
  }

  /** Every emission made by a `data` event carries exactly `n` documents
      and a null error. */
  lemma DataFlushIsFullChunk<D>(events: seq<Event<D>>, d: Option<D>, n: nat)
    requires n >= 1
    ensures var out := Step(Fold(events, Some(n)).state, Data(d), Some(n)).emitted;
            out == [] || (|out| == 1 && out[0].signal == Ok && out[0].payload.Some?
                          && |out[0].payload.value| == n)
  {
  }

  /** Without a chunk size, no `data` event emits anything: the documents
      stay in the buffer until `end`. */
  lemma {:induction false} NoChunkNeverFlushes<D>(events: seq<Event<D>>)
    requires forall i :: 0 <= i < |events| ==> events[i].Data?
    ensures Fold(events, None).emitted == []
    ensures Fold(events, None).state.buffer == Docs(events)
  {
    if events != [] {
      var p := events[..|events| - 1];
      assert events == p + [events[|events| - 1]];
      FoldSnoc(p, events[|events| - 1], None);
      NoChunkNeverFlushes(p);
    }
  }

  /** One more event adds its document to `Docs` when it is a truthy
      `data` event, and nothing otherwise. */
  lemma DocsSnoc<D>(events: seq<Event<D>>, e: Event<D>)
    ensures Docs(events + [e]) == Docs(events) + (if IsDoc(e) then [e.item.value] else [])
  {
    assert (events + [e])[..|events|] == events;
  }

  lemma PayloadsSnoc<D>(out: seq<Emission<D>>, m: Emission<D>)
    ensures Payloads(out + [m]) == Payloads(out) + (if m.payload.Some? then m.payload.value else [])
  {
    assert (out + [m])[..|out|] == out;
  }

  /** One non-`end` step keeps emitted-then-buffered equal to the documents. */
  lemma StepConserves<D>(r: Run<D>, e: Event<D>, chunk: Option<nat>)
    requires !e.End?
    ensures var t := Step(r.state, e, chunk);
            Payloads(r.emitted + t.emitted) + t.state.buffer
            == Payloads(r.emitted) + r.state.buffer + (if IsDoc(e) then [e.item.value] else [])
  {
    var t := Step(r.state, e, chunk);
    if t.emitted == [] {
      assert r.emitted + t.emitted == r.emitted;
    } else {
      assert t.emitted == [t.emitted[0]];
      PayloadsSnoc(r.emitted, t.emitted[0]);
    }
  }

  /** Before `end`, no document is lost, duplicated or reordered: what was
      emitted followed by what is buffered is the documents in arrival
      order. Falsy documents are dropped. */
  lemma {:induction false} DocsConserved<D>(events: seq<Event<D>>, chunk: Option<nat>)
    requires forall i :: 0 <= i < |events| ==> !events[i].End?
    ensures Payloads(Fold(events, chunk).emitted) + Fold(events, chunk).state.buffer == Docs(events)
  {
    if events != [] {
      var p := events[..|events| - 1];
      var e := events[|events| - 1];
      assert events == p + [e];
      FoldSnoc(p, e, chunk);
      DocsConserved(p, chunk);
      DocsSnoc(p, e);
      StepConserves(Fold(p, chunk), e, chunk);
    }
  }

  lemma {:induction false} PayloadsAppend<D>(a: seq<Emission<D>>, b: seq<Emission<D>>)
    ensures Payloads(a + b) == Payloads(a) + Payloads(b)
    decreases |b|
  {
    if b == [] {
      assert a + b == a;
    } else {
      var b' := b[..|b| - 1];
      assert (a + b)[..|a + b| - 1] == a + b';
      PayloadsAppend(a, b');
    }
  }

  /** `end` emits exactly once. It reports not-found, with no payload,
      exactly when it carries no error and no truthy document arrived;
      otherwise its error is internal exactly when its own argument is set,
      and it carries the unflushed remainder, if any. */
  lemma EndEmission<D>(events: seq<Event<D>>, err: Option<string>, chunk: Option<nat>)
    ensures var out := Fold(events + [End(err)], chunk).emitted;
            var buf := Fold(events, chunk).state.buffer;
            && out[..|out| - 1] == Fold(events, chunk).emitted
            && |out| == |Fold(events, chunk).emitted| + 1
            && (out[|out| - 1] == Emission(NotFound, None) <==> err.None? && Docs(events) == [])
            && (!(err.None? && Docs(events) == []) ==>
                  out[|out| - 1] == Emission(if err.Some? then Internal else Ok,
                                             if buf != [] then Some(buf) else None))
  {
    FoldSnoc(events, End(err), chunk);
    HasResultIffDocs(events, chunk);
  }

  /** Everything emitted up to and including the first `end` carries the
      truthy documents in arrival order, each exactly once. */
  lemma DocsDeliveredByEnd<D>(events: seq<Event<D>>, err: Option<string>, chunk: Option<nat>)
    requires forall i :: 0 <= i < |events| ==> !events[i].End?
    ensures Payloads(Fold(events + [End(err)], chunk).emitted) == Docs(events)
  {
    FoldSnoc(events, End(err), chunk);
    DocsConserved(events, chunk);
    HasResultIffDocs(events, chunk);
    var r := Fold(events, chunk);
    var t := Step(r.state, End(err), chunk);
    PayloadsAppend(r.emitted, t.emitted);
    assert Payloads(t.emitted) == Payloads(t.emitted[..0]) + (if t.emitted[0].payload.Some? then t.emitted[0].payload.value else []);
  }

  /** `close` always emits once more, without payload: internal exactly
      when the last `error` or `end` event carried an error. */
  lemma CloseEmission<D>(events: seq<Event<D>>, chunk: Option<nat>)
    ensures Fold(events + [Close], chunk).emitted
            == Fold(events, chunk).emitted + [Emission(if LastErr(events).Some? then Internal else Ok, None)]
  {
    FoldSnoc(events, Close, chunk);
    QueryErrIsLastErr(events, chunk);
  }

  /** An `end` without argument erases an error reported before it: the
      query below failed, yet the engine is told "not found" and then a
      clean close. */
  lemma ErrorBeforeEndIsForgotten<D>(msg: string, chunk: Option<nat>)
    ensures Fold<D>([Error(Some(msg)), End(None), Close], chunk).emitted
            == [Emission(NotFound, None), Emission(Ok, None)]
  {
    var failed: seq<Event<D>> := [Error(Some(msg))];
    assert Fold(failed, chunk) == Run(State([], false, Some(msg)), []) by {
      FoldSnoc([], failed[0], chunk);
      assert [] + [failed[0]] == failed;
    }
    CleanEndThenClose(failed, chunk);
    assert failed + [End(None), Close] == [Error(Some(msg)), End(None), Close];
  }

  /** With a document before the error, the same `end` reports success:
      the document is delivered with a null error and the close is clean. */
  lemma ErrorAfterDocumentIsSuccess<D>(d: D, msg: string, chunk: Option<nat>)
    requires chunk != Some(1)
    ensures Fold<D>([Data(Some(d)), Error(Some(msg)), End(None), Close], chunk).emitted
            == [Emission(Ok, Some([d])), Emission(Ok, None)]
  {
    var delivered: seq<Event<D>> := [Data(Some(d))];
    var failed := delivered + [Error(Some(msg))];
    assert Fold(delivered, chunk) == Run(State([d], true, None), []) by {
      FoldSnoc([], delivered[0], chunk);
      assert [] + [delivered[0]] == delivered;
    }
    assert Fold(failed, chunk) == Run(State([d], true, Some(msg)), []) by {
      FoldSnoc(delivered, Error(Some(msg)), chunk);
    }
    CleanEndThenClose(failed, chunk);
    assert failed + [End(None), Close] == [Data(Some(d)), Error(Some(msg)), End(None), Close];
  }

  /** A cursor with no documents: not-found, then a clean close. */
  lemma EmptyCursorIsNotFound<D>(chunk: Option<nat>)
    ensures Fold<D>([End(None), Close], chunk).emitted == [Emission(NotFound, None), Emission(Ok, None)]
  {
    var e: Event<D> := End(None);
    FoldSnoc([], e, chunk);
    FoldSnoc([e], Close, chunk);
    assert [e] + [Close] == [e, Close];
  }

  /** Fewer documents than the chunk size are only buffered. */
  lemma {:induction false} FillBelowChunk<D>(docs: seq<D>, chunk: Option<nat>)
    requires forall k :: 1 <= k <= |docs| ==> chunk != Some(k)
    ensures Fold(DataEvents(docs), chunk) == Run(State(docs, docs != [], None), [])
  {
    if docs != [] {
      var p := docs[..|docs| - 1];
      var d := docs[|docs| - 1];
      assert docs == p + [d];
      DataEventsSnoc(p, d);
      FoldSnoc(DataEvents(p), Data(Some(d)), chunk);
      FillBelowChunk(p, chunk);
      assert chunk != Some(|docs|);
    }
  }

  /** A clean `end` followed by `close`, after any events. */
  lemma CleanEndThenClose<D>(events: seq<Event<D>>, chunk: Option<nat>)
    ensures var s := Fold(events, chunk).state;
            Fold(events + [End(None), Close], chunk).emitted
            == Fold(events, chunk).emitted
               + [if !s.hasResult then Emission(NotFound, None)
                  else Emission(Ok, if |s.buffer| > 0 then Some(s.buffer) else None),
                  Emission(Ok, None)]
  {
    FoldSnoc(events, End(None), chunk);
    FoldSnoc(events + [End(None)], Close, chunk);
    assert events + [End(None)] + [Close] == events + [End(None), Close];
  }

  /** A document that brings the buffer to the chunk size flushes it. */
  lemma FlushStep<D>(s: State<D>, d: D, n: nat)
    requires |s.buffer| + 1 == n
    ensures Step(s, Data(Some(d)), Some(n)) == Run(State([], true, s.queryErr), [Emission(Ok, Some(s.buffer + [d]))])
  {
  }

  /** The `n`-th document fills the buffer and flushes it. */
  lemma {:induction false} FullChunkFlushed<D>(docs: seq<D>, n: nat)
    requires n >= 1 && |docs| == n
    ensures Fold(DataEvents(docs), Some(n)) == Run(State([], true, None), [Emission(Ok, Some(docs))])
  {
    var p := docs[..n - 1];
    var d := docs[n - 1];
    var ev := DataEvents(p);
    assert docs == p + [d];
    DataEventsSnoc(p, d);
    assert DataEvents(docs) == ev + [Data(Some(d))];
    FillBelowChunk(p, Some(n));
    var before := Fold(ev, Some(n));
    assert before == Run(State(p, p != [], None), []);
    FlushStep(before.state, d, n);
    FoldSnoc(ev, Data(Some(d)), Some(n));
    assert before.emitted + [Emission(Ok, Some(docs))] == [Emission(Ok, Some(docs))];
  }

  /** One document after a full chunk stays buffered (chunk size at least 2). */
  lemma {:induction false} OneAfterFullChunk<D>(docs: seq<D>, n: nat)
    requires n >= 2 && |docs| == n + 1
    ensures Fold(DataEvents(docs), Some(n)) == Run(State([docs[n]], true, None), [Emission(Ok, Some(docs[..n]))])
  {
    var full := docs[..n];
    assert docs == full + [docs[n]];
    FullChunkFlushed(full, n);
    DataEventsSnoc(full, docs[n]);
    FoldSnoc(DataEvents(full), Data(Some(docs[n])), Some(n));
  }

  /** Exactly `n` documents with chunk size `n`: one chunk at the boundary,
      then a successful `end` without payload, then the close signal. */
  lemma ExactChunk<D>(docs: seq<D>, n: nat)
    requires n >= 1 && |docs| == n
    ensures Fold(DataEvents(docs) + [End(None), Close], Some(n)).emitted
            == [Emission(Ok, Some(docs)), Emission(Ok, None), Emission(Ok, None)]
  {
    FullChunkFlushed(docs, n);
    CleanEndThenClose(DataEvents(docs), Some(n));
  }

  /** `n + 1` documents with chunk size `n` (at least 2): one full chunk,
      then the last document alone at `end`, then the close signal. */
  lemma ChunkPlusOne<D>(docs: seq<D>, n: nat)
    requires n >= 2 && |docs| == n + 1
    ensures Fold(DataEvents(docs) + [End(None), Close], Some(n)).emitted
            == [Emission(Ok, Some(docs[..n])), Emission(Ok, Some([docs[n]])), Emission(Ok, None)]
  {
    OneAfterFullChunk(docs, n);
    CleanEndThenClose(DataEvents(docs), Some(n));
  }

  /** Over `data` and `error` events only chunk flushes are emitted: a null
      error and a payload of exactly the chunk size. */
  lemma {:induction false} OnlyFlushesBeforeEnd<D>(events: seq<Event<D>>, chunk: Option<nat>)
    requires forall i :: 0 <= i < |events| ==> events[i].Data? || events[i].Error?
    ensures forall m :: m in Fold(events, chunk).emitted ==>
              m.signal == Ok && m.payload.Some? && chunk == Some(|m.payload.value|)
  {
    if events != [] {
      var p := events[..|events| - 1];
      assert events == p + [events[|events| - 1]];
      FoldSnoc(p, events[|events| - 1], chunk);
      OnlyFlushesBeforeEnd(p, chunk);
    }
  }

  /** A cursor as the driver delivers it: documents and errors, then `end`,
      then `close`. The engine sees the flushed chunks, then exactly one
      `end` emission, which is not-found exactly when there was no document
      and no error on `end`, then the close signal; and all payloads
      together are the truthy documents in arrival order. */
  lemma CursorOutcome<D>(body: seq<Event<D>>, err: Option<string>, chunk: Option<nat>)
    requires forall i :: 0 <= i < |body| ==> body[i].Data? || body[i].Error?
    ensures var out := Fold(body + [End(err), Close], chunk).emitted;
            && |out| >= 2
            && (forall i :: 0 <= i < |out| - 2 ==>
                  out[i].signal == Ok && out[i].payload.Some? && chunk == Some(|out[i].payload.value|))
            && (out[|out| - 2] == Emission(NotFound, None) <==> err.None? && Docs(body) == [])
            && out[|out| - 1] == Emission(if err.Some? then Internal else Ok, None)
            && Payloads(out) == Docs(body)
  {
    var withEnd := body + [End(err)];
    var before := Fold(body, chunk).emitted;
    var mid := Fold(withEnd, chunk).emitted;
    var close := Emission(if err.Some? then Internal else Ok, None);
    EndEmission(body, err, chunk);
    DocsDeliveredByEnd(body, err, chunk);
    OnlyFlushesBeforeEnd(body, chunk);
    CloseEmission(withEnd, chunk);
    assert LastErr(withEnd) == err by {
      assert withEnd[..|withEnd| - 1] == body;
    }
    assert withEnd + [Close] == body + [End(err), Close];
    var out := mid + [close];
    assert Fold(body + [End(err), Close], chunk).emitted == out;
    PayloadsSnoc(mid, close);
    forall i | 0 <= i < |out| - 2
      ensures out[i].signal == Ok && out[i].payload.Some? && chunk == Some(|out[i].payload.value|)
    {
      assert out[i] == mid[..|mid| - 1][i] == before[i];
      assert before[i] in before;
    }
  }
}
