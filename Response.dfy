/**
 * The Jetty response adapter of jooby (jooby.JettyResponse): framing and the
 * text and binary write paths over a servlet response, the two decorators
 * that keep application code from closing the transport, and the body-writer
 * delegation of send and render.
 *
 * The servlet response is an in-memory object whose trace records, in order,
 * every framing call, every write and close that reaches the transport's
 * writer or stream, and every call into a registered body writer.
 */
module Response {
  import opened Wrappers
  import opened Media

  /** HttpStatus.NOT_ACCEPTABLE. */
  const NOT_ACCEPTABLE := 406

  /** A Java char: one UTF-16 code unit. */
  type Unit = u: int | 0 <= u < 0x1_0000

  /** A byte as an OutputStream writes it. */
  type Byte = b: int | 0 <= b < 0x100

  /** What a write path can fail with. */
  datatype Failure =
    | HttpException(status: int, message: string)
    | IndexOutOfBounds
    | StrategyFailure(reason: string)

  /** A response body: a CharSequence, any other object, or a View built by render. */
  datatype Value =
    | CharSequence(chars: seq<Unit>)
    | Object(id: nat)
    | View(name: string, model: Option<Value>)

  /** The body-writer strategy: the one built by notAcceptableWriter, or a registered writer. */
  datatype BodyWriter = NotAcceptableWriter(mediaType: MediaType) | Registered(id: nat, fails: Option<Failure>)

  datatype Event =
    | ContentTypeSet(contentType: string)
    | CharacterEncodingSet(charset: string)
    | StatusSet(code: int)
    | HeaderSet(header: string, headerValue: string)
    | CharsWritten(chars: seq<Unit>)
    | BytesWritten(bytes: seq<Byte>)
    | WriterClosed
    | StreamClosed
    | BodyWriterCalled(writer: nat, value: Option<Value>)

  /** The calls that fix content type, charset and status. */
  predicate IsFraming(e: Event) {
    e.ContentTypeSet? || e.CharacterEncodingSet? || e.StatusSet?
  }

  /** The bounds check of Writer and OutputStream range writes. */
  predicate InRange(off: int, len: int, n: int) {
    0 <= off && 0 <= len && off + len <= n
  }

  /** What a sequence of operations did: the events it caused, and the failure that stopped it, if any. */
  datatype Run = Run(events: seq<Event>, failure: Option<Failure>)

  /** Runs operations in order; the first failing one stops the run. */
  function RunAll<Op>(ops: seq<Op>, effect: Op -> Run): Run {
    if ops == [] then Run([], None)
    else
      var prev := RunAll(ops[..|ops| - 1], effect);
      if prev.failure.Some? then prev
      else
        var last := effect(ops[|ops| - 1]);
        Run(prev.events + last.events, last.failure)
  }

  /** Once a prefix of the operations has failed, the rest of them are never run. */
  lemma {:induction false} RunAllStops<Op>(ops: seq<Op>, effect: Op -> Run, i: nat)
    requires i <= |ops| && RunAll(ops[..i], effect).failure.Some?
    ensures RunAll(ops, effect) == RunAll(ops[..i], effect)
    decreases |ops| - i
  {
    if i < |ops| {
      assert ops[..i + 1][..i] == ops[..i];
      RunAllStops(ops, effect, i + 1);
    } else {
      assert ops[..i] == ops;
    }
  }

  /** Running one more operation after a prefix that did not fail. */
  lemma RunAllStep<Op>(ops: seq<Op>, effect: Op -> Run, i: nat)
    requires i < |ops| && RunAll(ops[..i], effect).failure.None?
    ensures RunAll(ops[..i + 1], effect)
      == Run(RunAll(ops[..i], effect).events + effect(ops[i]).events, effect(ops[i]).failure)
  {
    assert ops[..i + 1][..i] == ops[..i];
  }

  /** A strategy's own code: its operations, then the failure it ends with, if any. */
  function Then(run: Run, failure: Option<Failure>): Run {
    if run.failure.Some? then run else Run(run.events, failure)
  }

  // ---------------------------------------------------------------------
  // The servlet response

  class ServletResponse {
    var status: int
    var contentType: Option<string>
    var characterEncoding: Option<string>
    var headers: map<string, string>
    var trace: seq<Event>

    constructor (status: int)
      ensures this.status == status && contentType == None && characterEncoding == None
      ensures headers == map[] && trace == []
    {
      this.status := status;
      contentType, characterEncoding := None, None;
      headers, trace := map[], [];
    }

    /** Only the trace changed, by the given events. */
    twostate predicate Appended(events: seq<Event>)
      reads this
    {
      && trace == old(trace) + events
      && status == old(status) && contentType == old(contentType)
      && characterEncoding == old(characterEncoding) && headers == old(headers)
    }

    method SetContentType(t: string)
      modifies this
      ensures contentType == Some(t) && trace == old(trace) + [ContentTypeSet(t)]
      ensures status == old(status) && characterEncoding == old(characterEncoding) && headers == old(headers)
    {
      contentType := Some(t);
      trace := trace + [ContentTypeSet(t)];
    }

    method SetCharacterEncoding(c: string)
      modifies this
      ensures characterEncoding == Some(c) && trace == old(trace) + [CharacterEncodingSet(c)]
      ensures status == old(status) && contentType == old(contentType) && headers == old(headers)
    {
      characterEncoding := Some(c);
      trace := trace + [CharacterEncodingSet(c)];
    }

    method SetStatus(s: int)
      modifies this
      ensures status == s && trace == old(trace) + [StatusSet(s)]
      ensures contentType == old(contentType) && characterEncoding == old(characterEncoding)
      ensures headers == old(headers)
    {
      status := s;
      trace := trace + [StatusSet(s)];
    }

    method SetHeader(name: string, value: string)
      modifies this
      ensures headers == old(headers)[name := value] && trace == old(trace) + [HeaderSet(name, value)]
      ensures status == old(status) && contentType == old(contentType)
      ensures characterEncoding == old(characterEncoding)
    {
      headers := headers[name := value];
      trace := trace + [HeaderSet(name, value)];
    }

    /** The transport writer's write(String) and write(char[]). */
    method WriterWrite(chars: seq<Unit>)
      modifies this
      ensures Appended([CharsWritten(chars)])
    {
      trace := trace + [CharsWritten(chars)];
    }

    /** The transport writer's write(int): the low 16 bits are the character. */
    method WriterWriteCode(c: int)
      modifies this
      ensures Appended([CharsWritten([c % 0x1_0000])])
    {
      trace := trace + [CharsWritten([c % 0x1_0000])];
    }

    /** The transport writer's write(char[], int, int). */
    method WriterWriteRange(cbuf: seq<Unit>, off: int, len: int) returns (failure: Option<Failure>)
      modifies this
      ensures failure == if InRange(off, len, |cbuf|) then None else Some(IndexOutOfBounds)
      ensures Appended(if InRange(off, len, |cbuf|) then [CharsWritten(cbuf[off..off + len])] else [])
    {
      if InRange(off, len, |cbuf|) {
        trace := trace + [CharsWritten(cbuf[off..off + len])];
        failure := None;
      } else {
        failure := Some(IndexOutOfBounds);
      }
    }

    method WriterClose()
      modifies this
      ensures Appended([WriterClosed])
    {
      trace := trace + [WriterClosed];
    }

    /** The transport stream's write(int): the low 8 bits are the byte. */
    method StreamWriteCode(b: int)
      modifies this
      ensures Appended([BytesWritten([b % 0x100])])
    {
      trace := trace + [BytesWritten([b % 0x100])];
    }

    /** The transport stream's write(byte[]). */
    method StreamWrite(bytes: seq<Byte>)
      modifies this
      ensures Appended([BytesWritten(bytes)])
    {
      trace := trace + [BytesWritten(bytes)];
    }

    /** The transport stream's write(byte[], int, int). */
    method StreamWriteRange(bytes: seq<Byte>, off: int, len: int) returns (failure: Option<Failure>)
      modifies this
      ensures failure == if InRange(off, len, |bytes|) then None else Some(IndexOutOfBounds)
      ensures Appended(if InRange(off, len, |bytes|) then [BytesWritten(bytes[off..off + len])] else [])
    {
      if InRange(off, len, |bytes|) {
        trace := trace + [BytesWritten(bytes[off..off + len])];
        failure := None;
      } else {
        failure := Some(IndexOutOfBounds);
      }
    }

    method StreamClose()
      modifies this
      ensures Appended([StreamClosed])
    {
      trace := trace + [StreamClosed];
    }

    /** A registered body writer was handed a value; what it then writes is not part of this model. */
    method BodyWriterInvoked(id: nat, value: Option<Value>)
      modifies this
      ensures Appended([BodyWriterCalled(id, value)])
    {
      trace := trace + [BodyWriterCalled(id, value)];
    }
  }

  // ---------------------------------------------------------------------
  // NotCloseableWriter

  /** The calls a text strategy can make on the writer it is given. */
  datatype WriterOp =
    | WriteCharArray(cbuf: seq<Unit>)
    | WriteChar(c: int)
    | WriteString(str: seq<Unit>)
    | WriteStringRange(str: seq<Unit>, off: int, len: int)
    | WriteCharArrayRange(cbuf: seq<Unit>, off: int, len: int)
    | Flush
    | Close

  /** What each call on a NotCloseableWriter does to the transport. */
  function WriterOpEffect(op: WriterOp): Run {
    match op
    case WriteCharArray(cbuf) => Run([CharsWritten(cbuf)], None)
    case WriteChar(c) => Run([CharsWritten([c % 0x1_0000])], None)
    case WriteString(str) => Run([CharsWritten(str)], None)
    case WriteStringRange(str, off, len) =>
      if InRange(off, len, |str|) then Run([CharsWritten(str[off..off + len])], None)
      else Run([], Some(IndexOutOfBounds))
    case WriteCharArrayRange(cbuf, off, len) =>
      if InRange(off, len, |cbuf|) then Run([CharsWritten(cbuf[off..off + len])], None)
      else Run([], Some(IndexOutOfBounds))
    case Flush => Run([], None)
    case Close => Run([], None)
  }

  /** Whatever a text strategy does through the decorator, the transport only ever sees writes. */
  lemma {:induction false} WriterOpsOnlyWrite(ops: seq<WriterOp>)
    ensures forall e :: e in RunAll(ops, WriterOpEffect).events ==> e.CharsWritten?
  {
    if ops != [] {
      WriterOpsOnlyWrite(ops[..|ops| - 1]);
    }
  }

  /** Forwards every write to the transport writer; flush and close do nothing. */
  class NotCloseableWriter {
    const writer: ServletResponse

    constructor (writer: ServletResponse)
      ensures this.writer == writer
    {
      this.writer := writer;
    }

    method WriteCharArray(cbuf: seq<Unit>)
      modifies writer
      ensures writer.Appended(WriterOpEffect(WriterOp.WriteCharArray(cbuf)).events)
    {
      writer.WriterWrite(cbuf);
    }

    method WriteChar(c: int)
      modifies writer
      ensures writer.Appended(WriterOpEffect(WriterOp.WriteChar(c)).events)
    {
      writer.WriterWriteCode(c);
    }

    method WriteString(str: seq<Unit>)
      modifies writer
      ensures writer.Appended(WriterOpEffect(WriterOp.WriteString(str)).events)
    {
      writer.WriterWrite(str);
    }

    /**
     * write(String, int, int) is Writer's own: it copies the range (failing
     * when it is out of bounds) and passes it to write(char[], 0, len).
     */
    method WriteStringRange(str: seq<Unit>, off: int, len: int) returns (failure: Option<Failure>)
      modifies writer
      ensures writer.Appended(WriterOpEffect(WriterOp.WriteStringRange(str, off, len)).events)
      ensures failure == WriterOpEffect(WriterOp.WriteStringRange(str, off, len)).failure
    {
      if !InRange(off, len, |str|) {
        return Some(IndexOutOfBounds);
      }
      var cbuf := str[off..off + len];
      failure := WriteCharArrayRange(cbuf, 0, len);
      assert cbuf[0..len] == cbuf;
    }

    method WriteCharArrayRange(cbuf: seq<Unit>, off: int, len: int) returns (failure: Option<Failure>)
      modifies writer
      ensures writer.Appended(WriterOpEffect(WriterOp.WriteCharArrayRange(cbuf, off, len)).events)
      ensures failure == WriterOpEffect(WriterOp.WriteCharArrayRange(cbuf, off, len)).failure
    {
      failure := writer.WriterWriteRange(cbuf, off, len);
    }

    method Flush()
      ensures unchanged(writer)
    {
    }

    method Close()
      ensures unchanged(writer)
    {
    }

    /** One call of a strategy on this writer. */
    method Apply(op: WriterOp) returns (failure: Option<Failure>)
      modifies writer
      ensures writer.Appended(WriterOpEffect(op).events)
      ensures failure == WriterOpEffect(op).failure
    {
      failure := None;
      match op {
        case WriteCharArray(cbuf) => WriteCharArray(cbuf);
        case WriteChar(c) => WriteChar(c);
        case WriteString(str) => WriteString(str);
        case WriteStringRange(str, off, len) => failure := WriteStringRange(str, off, len);
        case WriteCharArrayRange(cbuf, off, len) => failure := WriteCharArrayRange(cbuf, off, len);
        case Flush => Flush();
        case Close => Close();
      }
    }
  }

  /** A text strategy's calls on the decorator, in order, up to the first failure. */
  method RunWriterOps(out: NotCloseableWriter, ops: seq<WriterOp>) returns (failure: Option<Failure>)
    modifies out.writer
    ensures out.writer.Appended(RunAll(ops, WriterOpEffect).events)
    ensures failure == RunAll(ops, WriterOpEffect).failure
  {
    failure := None;
    var i := 0;
    while i < |ops| && failure.None?
      invariant 0 <= i <= |ops|
      invariant failure == RunAll(ops[..i], WriterOpEffect).failure
      invariant out.writer.Appended(RunAll(ops[..i], WriterOpEffect).events)
    {
      RunAllStep(ops, WriterOpEffect, i);
      failure := out.Apply(ops[i]);
      i := i + 1;
    }
    if failure.Some? {
      RunAllStops(ops, WriterOpEffect, i);
    } else {
      assert ops[..i] == ops;
    }
  }

  // ---------------------------------------------------------------------
  // NotCloseableStream

  /** The calls a binary strategy can make on the stream it is given. */
  datatype StreamOp =
    | WriteByte(b: int)
    | WriteBytes(bytes: seq<Byte>)
    | WriteBytesRange(bytes: seq<Byte>, off: int, len: int)
    | FlushStream
    | CloseStream

  /** What each call on a NotCloseableStream does to the transport. */
  function StreamOpEffect(op: StreamOp): Run {
    match op
    case WriteByte(b) => Run([BytesWritten([b % 0x100])], None)
    case WriteBytes(bytes) => Run([BytesWritten(bytes)], None)
    case WriteBytesRange(bytes, off, len) =>
      if InRange(off, len, |bytes|) then Run([BytesWritten(bytes[off..off + len])], None)
      else Run([], Some(IndexOutOfBounds))
    case FlushStream => Run([], None)
    case CloseStream => Run([], None)
  }

  /** Whatever a binary strategy does through the decorator, the transport only ever sees writes. */
  lemma {:induction false} StreamOpsOnlyWrite(ops: seq<StreamOp>)
    ensures forall e :: e in RunAll(ops, StreamOpEffect).events ==> e.BytesWritten?
  {
    if ops != [] {
      StreamOpsOnlyWrite(ops[..|ops| - 1]);
    }
  }

  /** Forwards the three writes to the transport stream; flush and close are OutputStream's, which do nothing. */
  class NotCloseableStream {
    const out: ServletResponse

    constructor (out: ServletResponse)
      ensures this.out == out
    {
      this.out := out;
    }

    method WriteByte(b: int)
      modifies out
      ensures out.Appended(StreamOpEffect(StreamOp.WriteByte(b)).events)
    {
      out.StreamWriteCode(b);
    }

    method WriteBytes(bytes: seq<Byte>)
      modifies out
      ensures out.Appended(StreamOpEffect(StreamOp.WriteBytes(bytes)).events)
    {
      out.StreamWrite(bytes);
    }

    method WriteBytesRange(bytes: seq<Byte>, off: int, len: int) returns (failure: Option<Failure>)
      modifies out
      ensures out.Appended(StreamOpEffect(StreamOp.WriteBytesRange(bytes, off, len)).events)
      ensures failure == StreamOpEffect(StreamOp.WriteBytesRange(bytes, off, len)).failure
    {
      failure := out.StreamWriteRange(bytes, off, len);
    }

    method Flush()
      ensures unchanged(out)
    {
    }

    method Close()
      ensures unchanged(out)
    {
    }

    /** One call of a strategy on this stream. */
    method Apply(op: StreamOp) returns (failure: Option<Failure>)
      modifies out
      ensures out.Appended(StreamOpEffect(op).events)
      ensures failure == StreamOpEffect(op).failure
    {
      failure := None;
      match op {
        case WriteByte(b) => WriteByte(b);
        case WriteBytes(bytes) => WriteBytes(bytes);
        case WriteBytesRange(bytes, off, len) => failure := WriteBytesRange(bytes, off, len);
        case FlushStream => Flush();
        case CloseStream => Close();
      }
    }
  }

  /** A binary strategy's calls on the decorator, in order, up to the first failure. */
  method RunStreamOps(stream: NotCloseableStream, ops: seq<StreamOp>) returns (failure: Option<Failure>)
    modifies stream.out
    ensures stream.out.Appended(RunAll(ops, StreamOpEffect).events)
    ensures failure == RunAll(ops, StreamOpEffect).failure
  {
    failure := None;
    var i := 0;
    while i < |ops| && failure.None?
      invariant 0 <= i <= |ops|
      invariant failure == RunAll(ops[..i], StreamOpEffect).failure
      invariant stream.out.Appended(RunAll(ops[..i], StreamOpEffect).events)
    {
      RunAllStep(ops, StreamOpEffect, i);
      failure := stream.Apply(ops[i]);
      i := i + 1;
    }
    if failure.Some? {
      RunAllStops(ops, StreamOpEffect, i);
    } else {
      assert ops[..i] == ops;
    }
  }

  // ---------------------------------------------------------------------
  // Strategies and the traces of the write paths

  /** A Text strategy: calls on the writer, then possibly a failure; or the one send(status, body) builds. */
  datatype TextStrategy =
    | TextScript(ops: seq<WriterOp>, failure: Option<Failure>)
    | SendBody(body: Option<Value>)

  /** A Binary strategy: calls on the stream, then possibly a failure. */
  datatype BinaryStrategy = BinaryScript(ops: seq<StreamOp>, failure: Option<Failure>)

  /** writer.write(response, value). */
  function WriterCall(w: BodyWriter, value: Option<Value>): Run {
    match w
    case NotAcceptableWriter(mt) => Run([], Some(HttpException(NOT_ACCEPTABLE, Name(mt))))
    case Registered(id, fails) => Run([BodyWriterCalled(id, value)], fails)
  }

  /** What a text strategy does, given the response's body writer. */
  function TextStrategyRun(s: TextStrategy, w: BodyWriter): Run {
    match s
    case TextScript(ops, failure) => Then(RunAll(ops, WriterOpEffect), failure)
    case SendBody(body) =>
      if body.Some? && body.value.CharSequence? then WriterOpEffect(WriterOp.WriteString(body.value.chars))
      else WriterCall(w, body)
  }

  function BinaryStrategyRun(s: BinaryStrategy): Run {
    Then(RunAll(s.ops, StreamOpEffect), s.failure)
  }

  /** Content type, charset and status, in that order. */
  function Framing(mt: MediaType, charset: string, status: int): seq<Event> {
    [ContentTypeSet(Name(mt)), CharacterEncodingSet(charset), StatusSet(status)]
  }

  /** The trace of the text path: framing, the strategy, and a close only when the strategy returned normally. */
  function TextTrace(mt: MediaType, charset: string, status: int, run: Run): seq<Event> {
    Framing(mt, charset, status) + run.events + (if run.failure.None? then [WriterClosed] else [])
  }

  /** The trace of the binary path: content type only, the strategy, and a close only after success. */
  function BytesTrace(mt: MediaType, run: Run): seq<Event> {
    [ContentTypeSet(Name(mt))] + run.events + (if run.failure.None? then [StreamClosed] else [])
  }

  /** A text strategy never frames and never closes: it can only write or hand its value to the body writer. */
  lemma TextStrategyOnlyWrites(s: TextStrategy, w: BodyWriter)
    ensures forall e :: e in TextStrategyRun(s, w).events ==> e.CharsWritten? || e.BodyWriterCalled?
  {
    if s.TextScript? {
      WriterOpsOnlyWrite(s.ops);
    }
  }

  /**
   * The text path frames first (content type "type/subtype", then charset,
   * then status), frames nothing afterwards, and closes the transport writer
   * exactly once, as its last step, when and only when the strategy succeeds.
   */
  lemma TextPathOrder(mt: MediaType, charset: string, status: int, s: TextStrategy, w: BodyWriter)
    ensures var run := TextStrategyRun(s, w); var t := TextTrace(mt, charset, status, run);
      && |t| >= 3
      && t[..3] == [ContentTypeSet(mt.mainType + "/" + mt.subType), CharacterEncodingSet(charset), StatusSet(status)]
      && (forall i :: 3 <= i < |t| ==> !IsFraming(t[i]))
      && multiset(t)[WriterClosed] == (if run.failure.None? then 1 else 0)
      && (run.failure.None? ==> t[|t| - 1] == WriterClosed)
  {
    var run := TextStrategyRun(s, w);
    var t := TextTrace(mt, charset, status, run);
    TextStrategyOnlyWrites(s, w);
    assert WriterClosed !in run.events;
    forall i | 3 <= i < |t|
      ensures !IsFraming(t[i])
    {
      if i < 3 + |run.events| {
        assert t[i] == run.events[i - 3] && run.events[i - 3] in run.events;
      } else {
        assert t[i] == WriterClosed;
      }
    }
  }

  /** The binary path sets only the content type, and closes the stream exactly once, last, after success. */
  lemma BytesPathOrder(mt: MediaType, s: BinaryStrategy)
    ensures var run := BinaryStrategyRun(s); var t := BytesTrace(mt, run);
      && t[0] == ContentTypeSet(mt.mainType + "/" + mt.subType)
      && (forall i :: 1 <= i < |t| ==> !IsFraming(t[i]))
      && (forall e :: e in t ==> !e.CharacterEncodingSet? && !e.StatusSet?)
      && multiset(t)[StreamClosed] == (if run.failure.None? then 1 else 0)
      && (run.failure.None? ==> t[|t| - 1] == StreamClosed)
  {
    var run := BinaryStrategyRun(s);
    var t := BytesTrace(mt, run);
    StreamOpsOnlyWrite(s.ops);
    assert StreamClosed !in run.events;
    forall i | 1 <= i < |t|
      ensures !IsFraming(t[i])
    {
      if i < 1 + |run.events| {
        assert t[i] == run.events[i - 1] && run.events[i - 1] in run.events;
      } else {
        assert t[i] == StreamClosed;
      }
    }
  }

  /** send with a CharSequence writes it verbatim between framing and close, and never calls the body writer. */
  lemma SendCharSequenceWritesVerbatim(mt: MediaType, charset: string, status: int, chars: seq<Unit>, w: BodyWriter)
    ensures var t := TextTrace(mt, charset, status, TextStrategyRun(SendBody(Some(CharSequence(chars))), w));
      && t == Framing(mt, charset, status) + [CharsWritten(chars), WriterClosed]
      && forall e :: e in t ==> !e.BodyWriterCalled?
  {
  }

  /**
   * With the default writer, sending anything but a CharSequence frames the
   * response, then fails with 406 naming the media type, and leaves the
   * transport writer open.
   */
  lemma DefaultWriterSendFails(mt: MediaType, writerType: MediaType, charset: string, status: int, body: Option<Value>)
    requires body.None? || !body.value.CharSequence?
    ensures var run := TextStrategyRun(SendBody(body), NotAcceptableWriter(writerType));
      && run.failure == Some(HttpException(406, writerType.mainType + "/" + writerType.subType))
      && TextTrace(mt, charset, status, run) == Framing(mt, charset, status)
      && WriterClosed !in TextTrace(mt, charset, status, run)
  {
  }

  /**
   * A registered body writer that fails: the response is framed and the
   * writer called, the failure propagates, and the transport writer stays open.
   */
  lemma RegisteredWriterSendFailure(mt: MediaType, charset: string, status: int, id: nat, f: Failure, body: Option<Value>)
    requires body.None? || !body.value.CharSequence?
    ensures var run := TextStrategyRun(SendBody(body), Registered(id, Some(f)));
      && run.failure == Some(f)
      && TextTrace(mt, charset, status, run) == Framing(mt, charset, status) + [BodyWriterCalled(id, body)]
      && WriterClosed !in TextTrace(mt, charset, status, run)
  {
  }

  // ---------------------------------------------------------------------
  // JettyResponse

  class JettyResponse {
    const response: ServletResponse
    const charset: string
    var writer: BodyWriter
    var mediaType: MediaType
    var status: int

    /** A missing media type is text/html; a missing writer always answers 406 for that media type. */
    constructor (response: ServletResponse, writer: Option<BodyWriter>, mediaType: Option<MediaType>, charset: string)
      ensures this.response == response && this.charset == charset
      ensures this.mediaType == mediaType.GetOr(Html)
      ensures this.writer == if writer.Some? then writer.value else NotAcceptableWriter(mediaType.GetOr(Html))
      ensures this.status == response.status
    {
      this.response := response;
      this.mediaType := mediaType.GetOr(Html);
      this.writer := if writer.Some? then writer.value else NotAcceptableWriter(mediaType.GetOr(Html));
      this.charset := charset;
      this.status := response.status;
    }

    /** status(s): only the adapter's field changes; the transport keeps its status. */
    method SetStatus(s: int)
      modifies this`status
      ensures status == s && unchanged(response)
    {
      status := s;
    }

    /** type(t): only the adapter's field changes. */
    method SetType(t: MediaType)
      modifies this`mediaType
      ensures mediaType == t && unchanged(response)
    {
      mediaType := t;
    }

    /** status(): what the transport reports, not the adapter's field. */
    method Status() returns (s: int)
      ensures s == response.status
    {
      s := response.status;
    }

    /** bytes(mediaType, strategy). */
    method Bytes(mt: MediaType, strategy: BinaryStrategy) returns (failure: Option<Failure>)
      modifies response
      ensures failure == BinaryStrategyRun(strategy).failure
      ensures response.trace == old(response.trace) + BytesTrace(mt, BinaryStrategyRun(strategy))
      ensures response.contentType == Some(Name(mt))
      ensures response.status == old(response.status)
      ensures response.characterEncoding == old(response.characterEncoding)
      ensures response.headers == old(response.headers)
    {
      response.SetContentType(mt.mainType + "/" + mt.subType);
      var stream := new NotCloseableStream(response);
      failure := RunStreamOps(stream, strategy.ops);
      if failure.None? {
        failure := strategy.failure;
      }
      if failure.None? {
        response.StreamClose();
      }
    }

    /** writer.write(this, value). */
    method CallBodyWriter(value: Option<Value>) returns (failure: Option<Failure>)
      modifies response
      ensures failure == WriterCall(writer, value).failure
      ensures response.Appended(WriterCall(writer, value).events)
    {
      match writer {
        case NotAcceptableWriter(mt) =>
          failure := Some(HttpException(NOT_ACCEPTABLE, mt.mainType + "/" + mt.subType));
        case Registered(id, fails) =>
          response.BodyWriterInvoked(id, value);
          failure := fails;
      }
    }

    /** The strategy step of the text path, on a writer adapter that ignores close. */
    method RunTextStrategy(strategy: TextStrategy) returns (failure: Option<Failure>)
      modifies response
      ensures failure == TextStrategyRun(strategy, writer).failure
      ensures response.Appended(TextStrategyRun(strategy, writer).events)
    {
      var out := new NotCloseableWriter(response);
      match strategy {
        case TextScript(ops, f) =>
          failure := RunWriterOps(out, ops);
          if failure.None? {
            failure := f;
          }
        case SendBody(body) =>
          if body.Some? && body.value.CharSequence? {
            out.WriteString(body.value.chars);
            failure := None;
          } else {
            failure := CallBodyWriter(body);
          }
      }
    }

    /** text(status, mediaType, strategy). */
    method Text(status: int, mt: MediaType, strategy: TextStrategy) returns (failure: Option<Failure>)
      modifies response
      ensures failure == TextStrategyRun(strategy, writer).failure
      ensures response.trace == old(response.trace) + TextTrace(mt, charset, status, TextStrategyRun(strategy, writer))
      ensures response.status == status && response.contentType == Some(Name(mt))
      ensures response.characterEncoding == Some(charset) && response.headers == old(response.headers)
    {
      response.SetContentType(mt.mainType + "/" + mt.subType);
      response.SetCharacterEncoding(charset);
      response.SetStatus(status);
      failure := RunTextStrategy(strategy);
      if failure.None? {
        response.WriterClose();
      }
    }

    /** send(body): send(status, body) with the current status field. */
    method Send(body: Option<Value>) returns (failure: Option<Failure>)
      modifies response
      ensures failure == TextStrategyRun(SendBody(body), writer).failure
      ensures response.trace
        == old(response.trace) + TextTrace(mediaType, charset, status, TextStrategyRun(SendBody(body), writer))
      ensures response.status == status && response.contentType == Some(Name(mediaType))
      ensures response.characterEncoding == Some(charset) && response.headers == old(response.headers)
    {
      failure := SendWithStatus(status, body);
    }

    /**
     * send(status, body): the text path with the current media type; a
     * CharSequence is written as is, anything else goes to the body writer.
     */
    method SendWithStatus(status: int, body: Option<Value>) returns (failure: Option<Failure>)
      modifies response
      ensures failure == TextStrategyRun(SendBody(body), writer).failure
      ensures response.trace
        == old(response.trace) + TextTrace(mediaType, charset, status, TextStrategyRun(SendBody(body), writer))
      ensures response.status == status && response.contentType == Some(Name(mediaType))
      ensures response.characterEncoding == Some(charset) && response.headers == old(response.headers)
    {
      failure := Text(status, mediaType, SendBody(body));
    }

    /** send(strategy): the text path with the current status and media type. */
    method SendStrategy(strategy: TextStrategy) returns (failure: Option<Failure>)
      modifies response
      ensures failure == TextStrategyRun(strategy, writer).failure
      ensures response.trace
        == old(response.trace) + TextTrace(mediaType, charset, status, TextStrategyRun(strategy, writer))
      ensures response.status == status && response.contentType == Some(Name(mediaType))
      ensures response.characterEncoding == Some(charset) && response.headers == old(response.headers)
    {
      failure := Text(status, mediaType, strategy);
    }

    /** send(status, strategy): the text path with the current media type. */
    method SendStrategyWithStatus(status: int, strategy: TextStrategy) returns (failure: Option<Failure>)
      modifies response
      ensures failure == TextStrategyRun(strategy, writer).failure
      ensures response.trace
        == old(response.trace) + TextTrace(mediaType, charset, status, TextStrategyRun(strategy, writer))
      ensures response.status == status && response.contentType == Some(Name(mediaType))
      ensures response.characterEncoding == Some(charset) && response.headers == old(response.headers)
    {
      failure := Text(status, mediaType, strategy);
    }

    /** render(viewName, model): always a View for the body writer, with no framing and no close by the adapter. */
    method Render(viewName: string, model: Option<Value>) returns (failure: Option<Failure>)
      modifies response
      ensures failure == WriterCall(writer, Some(View(viewName, model))).failure
      ensures response.Appended(WriterCall(writer, Some(View(viewName, model))).events)
    {
      failure := CallBodyWriter(Some(View(viewName, model)));
    }

    /** header(name, value). */
    method Header(name: string, value: string)
      modifies response
      ensures response.headers == old(response.headers)[name := value]
      ensures response.trace == old(response.trace) + [HeaderSet(name, value)]
      ensures response.status == old(response.status) && response.contentType == old(response.contentType)
      ensures response.characterEncoding == old(response.characterEncoding)
    {
      response.SetHeader(name, value);
    }
  }
}
