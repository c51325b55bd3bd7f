/** The response writer that remembers the status it sent: the first header wins. */
module ResponseWriter {
  import opened Common

  type Bytes = seq<bv8>

  /** What reaches the server's own writer. */
  datatype Event = HeaderSent(code: int) | BodySent(data: Bytes)

  datatype Op = WriteHeader(code: int) | Write(data: Bytes)

  /** A wrapper and the writer below it. */
  datatype State = State(status: int, wroteHeader: bool, sent: seq<Event>)

  function Fresh(): State {
    State(200, false, [])
  }

  function Apply(x: State, op: Op): State {
    match op
    case WriteHeader(code) =>
      if x.wroteHeader then x else State(code, true, x.sent + [HeaderSent(code)])
    case Write(data) =>
      var y := if x.wroteHeader then x else State(200, true, x.sent + [HeaderSent(200)]);
      y.(sent := y.sent + [BodySent(data)])
  }

  function Run(x: State, ops: seq<Op>): State
    decreases |ops|
  {
    if ops == [] then x else Run(Apply(x, ops[0]), ops[1..])
  }

  /** The status of a response is settled by the first thing written to it. */
  function StatusOf(ops: seq<Op>): int {
    if ops != [] && ops[0].WriteHeader? then ops[0].code else 200
  }

  /** The bodies written, in order. */
  function Bodies(ops: seq<Op>): seq<Event> {
    if ops == [] then []
    else (if ops[0].Write? then [BodySent(ops[0].data)] else []) + Bodies(ops[1..])
  }

  lemma {:induction false} RunOn(x: State, ops: seq<Op>)
    requires x.wroteHeader
    ensures Run(x, ops) == x.(sent := x.sent + Bodies(ops))
    decreases |ops|
  {
    if ops == [] {
      assert x.sent + [] == x.sent;
    } else {
      var y, rest := Apply(x, ops[0]), Bodies(ops[1..]);
      RunOn(y, ops[1..]);
      if ops[0].Write? {
        assert x.sent + [BodySent(ops[0].data)] + rest == x.sent + ([BodySent(ops[0].data)] + rest);
      } else {
        assert [] + rest == rest;
      }
    }
  }

  /** Whatever a handler writes, the server's writer gets one header, the first one, before any body,
      and then all bodies in order; the wrapper reports the status that was sent. A handler that
      writes nothing sends nothing and is reported as 200. */
  lemma OneHeaderFirst(ops: seq<Op>)
    ensures var x := Run(Fresh(), ops);
            && x.status == StatusOf(ops)
            && x.sent == if ops == [] then [] else [HeaderSent(StatusOf(ops))] + Bodies(ops)
  {
    if ops != [] {
      var y := Apply(Fresh(), ops[0]);
      RunOn(y, ops[1..]);
      assert y.sent + Bodies(ops[1..]) == [HeaderSent(StatusOf(ops))] + Bodies(ops);
    }
  }

  /** The header's code is the first one asked for, or 200 if a body came first. */
  lemma HeaderIsFirst(ops: seq<Op>)
    ensures var x := Run(Fresh(), ops);
            && (ops == [] ==> x.sent == [] && x.status == 200)
            && (ops != [] ==>
                  x.sent != [] && x.sent[0] == HeaderSent(x.status)
                  && x.status == (if ops[0].WriteHeader? then ops[0].code else 200))
  {
    OneHeaderFirst(ops);
    hide Run;
  }

  /** The server's own writer. */
  class Underlying {
    var sent: seq<Event>

    constructor ()
      ensures sent == []
    {
      sent := [];
    }
  }

  class ResponseWriter {
    const inner: Underlying
    var statusCode: int
    var wroteHeader: bool

    ghost function Value(): State
      reads this, inner
    {
      State(statusCode, wroteHeader, inner.sent)
    }

    constructor (inner: Underlying)
      ensures this.inner == inner && Value() == State(200, false, inner.sent)
    {
      this.inner := inner;
      statusCode, wroteHeader := 200, false;
    }

    method DoWriteHeader(code: int)
      modifies this, inner
      ensures Value() == Apply(old(Value()), WriteHeader(code))
    {
      if wroteHeader {
        return;
      }
      statusCode := code;
      wroteHeader := true;
      inner.sent := inner.sent + [HeaderSent(code)];
    }

    method DoWrite(data: Bytes)
      modifies this, inner
      ensures Value() == Apply(old(Value()), Write(data))
    {
      if !wroteHeader {
        DoWriteHeader(200);
      }
      inner.sent := inner.sent + [BodySent(data)];
    }
  }

  /** A writer as a middleware receives it. */
  datatype Writer = Raw(underlying: Underlying) | Wrapped(wrapper: ResponseWriter)

  /** Wraps a writer at most once: all middlewares share one wrapper and so one status. */
  method NewSafeResponseWriter(w: Writer) returns (rw: ResponseWriter)
    ensures w.Wrapped? ==> rw == w.wrapper
    ensures w.Raw? ==> fresh(rw) && rw.inner == w.underlying && rw.Value() == State(200, false, w.underlying.sent)
  {
    match w {
      case Wrapped(existing) => rw := existing;
      case Raw(u) => rw := new ResponseWriter(u);
    }
  }

  /** A handler's writes through any number of middlewares, each of which wraps the writer it is
      given before it passes it on. */
  method ServeThrough(u: Underlying, depth: nat, ops: seq<Op>) returns (rw: ResponseWriter)
    requires u.sent == []
    modifies u
    ensures fresh(rw) && rw.inner == u && rw.statusCode == StatusOf(ops)
    ensures u.sent == if ops == [] then [] else [HeaderSent(StatusOf(ops))] + Bodies(ops)
  {
    rw := NewSafeResponseWriter(Raw(u));
    for layer := 0 to depth
      invariant fresh(rw) && rw.inner == u && u.sent == [] && rw.Value() == Fresh()
    {
      rw := NewSafeResponseWriter(Wrapped(rw));
    }
    for i := 0 to |ops|
      invariant fresh(rw) && rw.inner == u
      invariant Run(rw.Value(), ops[i..]) == Run(Fresh(), ops)
    {
      assert ops[i..][0] == ops[i] && ops[i..][1..] == ops[i + 1..];
      match ops[i] {
        case WriteHeader(code) => rw.DoWriteHeader(code);
        case Write(data) => rw.DoWrite(data);
      }
    }
    OneHeaderFirst(ops);
  }
}
