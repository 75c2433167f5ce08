/** One socket connection: its state, its TLS handshake, its read buffer and the lines offered to
    its socket. Only pool connections use TLS. */
module Connections {
  import opened Wrappers
  import opened Stratum
  import opened Framing

  datatype ConnState = Disconnected | Connecting | Connected | Authenticated | Error {
    /** Every state from Connected on in declaration order, Error included. */
    predicate IsConnected() {
      Connected? || Authenticated? || Error?
    }
  }

  datatype Kind = PoolSide | WorkerSide

  /** What SSL_connect reports. */
  datatype SslResult = SslDone | SslWantRead | SslWantWrite | SslFailed

  /** What the write call reports. */
  datatype WriteResult = WroteAll | WrotePart | WouldBlock | WriteFailed

  /** What the read call reports. */
  datatype Input = Data(bytes: string) | NothingNow | EndOrError

  /** The visible state of a connection; `sent` records the lines that passed the guard of
      `send_line`, oldest first. */
  datatype Conn = Conn(kind: Kind, state: ConnState, attached: bool, tlsComplete: bool,
                       wantRead: bool, wantWrite: bool, shouldClose: bool, sent: seq<Msg>)
  {
    predicate HandshakePending() {
      kind == PoolSide && !tlsComplete
    }

    predicate CanSend() {
      state.IsConnected() || tlsComplete
    }
  }

  function NewConn(kind: Kind): Conn {
    Conn(kind, if kind == WorkerSide then Connected else Connecting, false, false, false, false, false, [])
  }

  /** A plain socket that would block is closed like one that failed. */
  predicate Breaks(kind: Kind, w: WriteResult) {
    w == WriteFailed || (w == WouldBlock && kind == WorkerSide)
  }

  function Offer(c: Conn, m: Msg, w: WriteResult): Conn {
    if !c.CanSend() then c
    else c.(sent := c.sent + [m], shouldClose := c.shouldClose || Breaks(c.kind, w))
  }

  /** A handshake step, and the state its callback is told about, if the state changed. */
  datatype Handshake = Handshake(conn: Conn, told: Option<ConnState>)

  function Enter(c: Conn, s: ConnState): Handshake {
    Handshake(c.(state := s), if c.state == s then None else Some(s))
  }

  function Abort(c: Conn): Handshake {
    Enter(c.(shouldClose := true), Error)
  }

  function HandshakeStep(c: Conn, attachOk: bool, r: SslResult): Handshake {
    if !c.HandshakePending() then Handshake(c, None)
    else if !c.attached && !attachOk then Abort(c)
    else
      var a := c.(attached := true, wantRead := false, wantWrite := false);
      match r
      case SslDone => Enter(a.(tlsComplete := true), Connected)
      case SslWantRead => Handshake(a.(wantRead := true), None)
      case SslWantWrite => Handshake(a.(wantWrite := true), None)
      case SslFailed => Abort(a)
  }

  /** A step on a finished handshake or a worker connection changes nothing. Otherwise the handshake is
      complete exactly when TLS is attached and the connect is done; the connection fails, closes and is
      told so when attaching or connecting fails; and what the connect wants is remembered alone. */
  lemma HandshakeOutcome(c: Conn, attachOk: bool, r: SslResult)
    ensures var h := HandshakeStep(c, attachOk, r);
      var pending := c.kind == PoolSide && !c.tlsComplete;
      var ready := c.attached || attachOk;
      && (!pending ==> h.conn == c && h.told == None)
      && (pending ==>
            && (h.conn.tlsComplete <==> ready && r == SslDone)
            && (h.conn.attached <==> ready)
            && (ready && r == SslDone ==> h.conn.state == Connected)
            && (!ready || r == SslFailed ==> h.conn.state == ConnState.Error)
            && (ready && (r == SslWantRead || r == SslWantWrite) ==> h.conn.state == c.state)
            && (h.conn.shouldClose <==> c.shouldClose || !ready || r == SslFailed)
            && (ready ==> (h.conn.wantRead <==> r == SslWantRead) && (h.conn.wantWrite <==> r == SslWantWrite))
            && h.told == (if h.conn.state == c.state then None else Some(h.conn.state)))
      && h.conn.sent == c.sent && h.conn.kind == c.kind
  {
  }

  /** A line is offered exactly when the connection counts as connected, errors included, or its handshake
      is complete. It closes on a write error, and a worker connection also when the write would block. */
  lemma OfferOutcome(c: Conn, m: Msg, w: WriteResult)
    ensures var o := Offer(c, m, w);
      var can := c.state == Connected || c.state == Authenticated || c.state == ConnState.Error || c.tlsComplete;
      && o.sent == (if can then c.sent + [m] else c.sent)
      && (o.shouldClose <==> c.shouldClose || (can && (w == WriteFailed || (w == WouldBlock && c.kind == WorkerSide))))
      && o == c.(sent := o.sent, shouldClose := o.shouldClose)
  {
  }

  class Connection {
    const kind: Kind
    var state: ConnState
    var attached: bool
    var tlsComplete: bool
    var wantRead: bool
    var wantWrite: bool
    var shouldClose: bool
    var sent: seq<Msg>
    var readBuffer: string

    ghost function View(): Conn
      reads this
    {
      Conn(kind, state, attached, tlsComplete, wantRead, wantWrite, shouldClose, sent)
    }

    constructor (kind: Kind)
      ensures View() == NewConn(kind) && readBuffer == ""
    {
      this.kind := kind;
      state := if kind == WorkerSide then Connected else Connecting;
      attached, tlsComplete, wantRead, wantWrite, shouldClose := false, false, false, false, false;
      sent, readBuffer := [], "";
    }

    method SetState(s: ConnState) returns (told: Option<ConnState>)
      modifies this`state
      ensures Handshake(View(), told) == Enter(old(View()), s)
    {
      told := None;
      if state != s {
        state := s;
        told := Some(s);
      }
    }

    method PerformTlsHandshake(attachOk: bool, r: SslResult) returns (done: bool, told: Option<ConnState>)
      modifies this`state, this`attached, this`tlsComplete, this`wantRead, this`wantWrite, this`shouldClose
      ensures Handshake(View(), told) == HandshakeStep(old(View()), attachOk, r)
      ensures done == tlsComplete
    {
      told := None;
      if kind != PoolSide || tlsComplete {
        return tlsComplete, None;
      }
      if !attached {
        if !attachOk {
          told := SetState(Error);
          shouldClose := true;
          return false, told;
        }
        attached := true;
      }
      wantRead := false;
      wantWrite := false;
      match r {
        case SslDone =>
          tlsComplete := true;
          told := SetState(Connected);
        case SslWantRead =>
          wantRead := true;
        case SslWantWrite =>
          wantWrite := true;
        case SslFailed =>
          told := SetState(Error);
          shouldClose := true;
      }
      done := tlsComplete;
    }

    method SendLine(m: Msg, w: WriteResult) returns (ok: bool)
      modifies this`sent, this`shouldClose
      ensures View() == Offer(old(View()), m, w)
      ensures ok <==> old(View()).CanSend() && (w == WroteAll || (w == WouldBlock && kind == PoolSide))
    {
      if !state.IsConnected() && !tlsComplete {
        return false;
      }
      sent := sent + [m];
      if w == WouldBlock && kind == PoolSide {
        return true;
      }
      if w == WouldBlock || w == WriteFailed {
        shouldClose := true;
        return false;
      }
      ok := w == WroteAll;
    }

    /** One read; the lines are handed to the message callback in the order of `delivered`. */
    method ReadData(input: Input) returns (n: int, delivered: seq<string>)
      modifies this`readBuffer, this`shouldClose
      ensures View() == old(View()).(shouldClose := old(shouldClose) ||
                (!old(View()).HandshakePending() && input.EndOrError?))
      ensures Received(delivered, readBuffer) ==
        if old(View()).HandshakePending() || !input.Data? then Received([], old(readBuffer))
        else Received(Lines(old(readBuffer) + input.bytes), Tail(old(readBuffer) + input.bytes))
      ensures n < 0 <==> !old(View()).HandshakePending() && input.EndOrError?
    {
      delivered := [];
      if kind == PoolSide && !tlsComplete {
        return 0, [];
      }
      match input {
        case NothingNow =>
          n := 0;
        case EndOrError =>
          shouldClose := true;
          n := -1;
        case Data(bytes) =>
          readBuffer := readBuffer + bytes;
          delivered := ProcessReadBuffer();
          n := |bytes|;
      }
    }

    /** Takes the complete lines out of the read buffer. */
    method ProcessReadBuffer() returns (delivered: seq<string>)
      modifies this`readBuffer
      ensures delivered == Lines(old(readBuffer))
      ensures readBuffer == Tail(old(readBuffer))
    {
      delivered := [];
      ghost var raw: seq<string> := [];
      var newline := FindNewline(readBuffer);
      while newline < |readBuffer|
        invariant newline == FindNewline(readBuffer)
        invariant RawLines(old(readBuffer)) == raw + RawLines(readBuffer)
        invariant Tail(old(readBuffer)) == Tail(readBuffer)
        invariant delivered == DropReturns(raw)
        decreases |readBuffer|
      {
        var line := readBuffer[..newline];
        TakeLine(old(readBuffer), raw, readBuffer, newline);
        raw := raw + [line];
        readBuffer := readBuffer[newline + 1..];
        if line != "" && line[|line| - 1] == '\r' {
          line := line[..|line| - 1];
        }
        delivered := delivered + [line];
        newline := FindNewline(readBuffer);
      }
    }
  }
}
