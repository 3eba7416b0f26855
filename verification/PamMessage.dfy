/**
 The messages between the checkpass child and its parent: a 4-byte length, then
 a JSON document holding one event.
 */
module PamMessage {
  import opened AuthTypes

  type byte = x: int | 0 <= x < 256

  const WORD: int := 0x1_0000_0000

  // ----- frames

  /** The four bytes of a uint32_t on a little-endian machine; larger numbers
      lose their upper part. */
  function LengthBytes(n: nat): seq<byte> {
    [n % 256, n / 256 % 256, n / 65536 % 256, n / 16777216 % 256]
  }

  function LengthOf(bytes: seq<byte>): nat
    requires |bytes| == 4
  {
    bytes[0] + 256 * (bytes[1] as int) + 65536 * (bytes[2] as int) + 16777216 * (bytes[3] as int)
  }

  function Frame(payload: seq<byte>): seq<byte> {
    LengthBytes(|payload|) + payload
  }

  function Frames(payloads: seq<seq<byte>>): seq<byte> {
    if payloads == [] then [] else Frame(payloads[0]) + Frames(payloads[1..])
  }

  /** read(2) of at most `n` bytes: what it returns and what is left. */
  function ReadUpTo(stream: seq<byte>, n: nat): (seq<byte>, seq<byte>) {
    var k := if n <= |stream| then n else |stream|;
    (stream[..k], stream[k..])
  }

  /** The length variable starts at zero, so a short read leaves zero bytes. */
  function Padded(header: seq<byte>): seq<byte>
    requires |header| <= 4
  {
    header + [0, 0, 0, 0][|header|..]
  }

  /** One payload off the stream, or None when fewer bytes than announced follow. */
  function RecvPayload(stream: seq<byte>): (Option<seq<byte>>, seq<byte>) {
    var (header, afterHeader) := ReadUpTo(stream, 4);
    var length := LengthOf(Padded(header));
    var (body, rest) := ReadUpTo(afterHeader, length);
    (if |body| < length then None else Some(body), rest)
  }

  /** `n` payloads in a row. */
  function RecvPayloads(stream: seq<byte>, n: nat): (seq<Option<seq<byte>>>, seq<byte>) {
    if n == 0 then ([], stream)
    else
      var (p, rest) := RecvPayload(stream);
      var (ps, end) := RecvPayloads(rest, n - 1);
      ([p] + ps, end)
  }

  lemma Quotients(n: nat)
    ensures n / 65536 == n / 256 / 256 && n / 16777216 == n / 256 / 256 / 256
  {
  }

  lemma RemainderUnique(n: nat, low: nat, q: nat)
    requires n == low + WORD * q && low < WORD
    ensures low == n % WORD
  {
  }

  lemma LengthRoundTrip(n: nat)
    ensures LengthOf(LengthBytes(n)) == n % WORD
    ensures n < 256 ==> LengthBytes(n) == [n, 0, 0, 0]
  {
    var a := n / 256;
    var b := a / 256;
    var c := b / 256;
    Quotients(n);
    assert n == n % 256 + 256 * a && a == a % 256 + 256 * b && b == b % 256 + 256 * c;
    RemainderUnique(n, LengthOf(LengthBytes(n)), c / 256);
  }

  lemma RecvAfterHeader(header: seq<byte>, tail: seq<byte>)
    requires |header| == 4
    ensures
      var (body, rest) := ReadUpTo(tail, LengthOf(header));
      RecvPayload(header + tail) == (if |body| < LengthOf(header) then None else Some(body), rest)
  {
    var stream := header + tail;
    assert stream[..4] == header && stream[4..] == tail;
    assert Padded(header) == header;
  }

  lemma RecvFrame(payload: seq<byte>, rest: seq<byte>)
    ensures
      var (body, rest') := ReadUpTo(payload + rest, |payload| % WORD);
      RecvPayload(Frame(payload) + rest) == (if |body| < |payload| % WORD then None else Some(body), rest')
  {
    LengthRoundTrip(|payload|);
    assert Frame(payload) + rest == LengthBytes(|payload|) + (payload + rest);
    RecvAfterHeader(LengthBytes(|payload|), payload + rest);
  }

  /** A frame is read back, and exactly the frame is consumed, if and only if its
      payload's length fits the header. */
  lemma FrameRoundTrip(payload: seq<byte>, rest: seq<byte>)
    ensures RecvPayload(Frame(payload) + rest) == (Some(payload), rest) <==> |payload| < WORD
  {
    RecvFrame(payload, rest);
    if |payload| < WORD {
      assert (payload + rest)[..|payload|] == payload && (payload + rest)[|payload|..] == rest;
    } else {
      assert |payload| % WORD < |payload|;
    }
  }

  /** A stream of frames decodes to exactly the list of payloads. */
  lemma {:induction false} FrameStreamRoundTrip(payloads: seq<seq<byte>>, rest: seq<byte>)
    requires forall p :: p in payloads ==> |p| < WORD
    ensures
      var (got, end) := RecvPayloads(Frames(payloads) + rest, |payloads|);
      end == rest && |got| == |payloads|
      && forall i :: 0 <= i < |payloads| ==> got[i] == Some(payloads[i])
    decreases |payloads|
  {
    if payloads != [] {
      FrameRoundTrip(payloads[0], Frames(payloads[1..]) + rest);
      FramesCons(payloads, rest);
      FrameStreamRoundTrip(payloads[1..], rest);
      var got := RecvPayloads(Frames(payloads) + rest, |payloads|).0;
      var more := RecvPayloads(Frames(payloads[1..]) + rest, |payloads| - 1).0;
      assert got == [Some(payloads[0])] + more;
    }
  }

  lemma {:induction false} FramesCons(payloads: seq<seq<byte>>, rest: seq<byte>)
    requires payloads != []
    ensures Frames(payloads) + rest == Frame(payloads[0]) + (Frames(payloads[1..]) + rest)
  {
  }

  /** A frame cut short by a dying writer yields no payload, or an empty one. */
  lemma TornFrame(payload: seq<byte>, cut: nat)
    requires |payload| < WORD && cut < |Frame(payload)|
    ensures RecvPayload(Frame(payload)[..cut]).0 in {None, Some([])}
  {
    var torn := Frame(payload)[..cut];
    LengthRoundTrip(|payload|);
    if cut >= 4 {
      assert torn == LengthBytes(|payload|) + payload[..cut - 4];
      RecvAfterHeader(LengthBytes(|payload|), payload[..cut - 4]);
    }
  }

  // ----- documents

  datatype JsonValue =
    | Null
    | Bool(b: bool)
    | Number(n: int)
    | Fraction
    | String(s: string)
    | Compound

  type JsonObject = map<string, JsonValue>

  datatype Document = ObjectDoc(fields: JsonObject) | ArrayDoc

  /** Qt's JSON printer and parser. */
  datatype Codec = Codec(print_: JsonObject -> seq<byte>, parse: seq<byte> -> Option<Document>)

  function Lookup(o: JsonObject, key: string): JsonValue {
    if key in o then o[key] else Null
  }

  /** QJsonValue::toInt: zero unless the value is a number in the range of int. */
  function ToInt(v: JsonValue): int {
    if v.Number? && -0x8000_0000 <= v.n < 0x8000_0000 then v.n else 0
  }

  function ToBool(v: JsonValue): bool {
    v.Bool? && v.b
  }

  function ToString(v: JsonValue): string {
    if v.String? then v.s else ""
  }

  // ----- events

  function TypeCode(e: PamEvent): int {
    match e
    case ErrorEvent(_) => 0
    case PromptRequest(_, _) => 1
    case PromptReply(_, _) => 2
    case MessageEvent(_, _) => 3
    case Complete(_, _, _) => 4
  }

  function Encode(e: PamEvent): JsonObject {
    var common := map["event" := Number(TypeCode(e)), "text" := String(e.text)];
    match e
    case ErrorEvent(_) => common
    case PromptRequest(secret, _) => common["secret" := Bool(secret)]
    case PromptReply(result, _) => common["reply_result" := Bool(result)]
    case MessageEvent(isError, _) => common["error_info" := Bool(isError)]
    case Complete(isComplete, authResult, _) =>
      common["complete" := Bool(isComplete)]["auth_result" := Bool(authResult)]
  }

  function Decode(o: JsonObject): Option<PamEvent> {
    if o == map[] || Lookup(o, "event").Null? then None
    else
      var code := ToInt(Lookup(o, "event"));
      if code < 0 || code >= 5 || Lookup(o, "text").Null? then None
      else
        var text := ToString(Lookup(o, "text"));
        if code == 0 then Some(ErrorEvent(text))
        else if code == 1 then
          var secret := Lookup(o, "secret");
          if !secret.Bool? then None else Some(PromptRequest(secret.b, text))
        else if code == 2 then
          var result := Lookup(o, "reply_result");
          if result.Null? || !ToBool(result) then None else Some(PromptReply(ToBool(result), text))
        else if code == 3 then
          var isError := Lookup(o, "error_info");
          if !isError.Bool? then None else Some(MessageEvent(isError.b, text))
        else
          var complete, result := Lookup(o, "complete"), Lookup(o, "auth_result");
          if !complete.Bool? || !result.Bool? then None
          else Some(Complete(complete.b, result.b, text))
  }

  /** The one event that is sent but never accepted. */
  predicate Refused(e: PamEvent) {
    e.PromptReply? && !e.result
  }

  /** An event survives the trip through its object if and only if it is not a
      negative reply, and a negative reply is rejected. */
  lemma EventRoundTrip(e: PamEvent)
    ensures Decode(Encode(e)) == Some(e) <==> !Refused(e)
    ensures Refused(e) ==> Decode(Encode(e)) == None
  {
    assert "event" in Encode(e);
  }

  /** The object says `e`: the code as a number or as what reads as its zero, some
      text, and every flag of that kind of event as a boolean, a reply's being true. */
  predicate Says(o: JsonObject, e: PamEvent) {
    && !Lookup(o, "event").Null?
    && !Lookup(o, "text").Null? && ToString(Lookup(o, "text")) == e.text
    && var code := ToInt(Lookup(o, "event"));
       match e
       case ErrorEvent(_) => code == 0
       case PromptRequest(secret, _) => code == 1 && Lookup(o, "secret") == Bool(secret)
       case PromptReply(result, _) => code == 2 && result && Lookup(o, "reply_result") == Bool(true)
       case MessageEvent(isError, _) => code == 3 && Lookup(o, "error_info") == Bool(isError)
       case Complete(isComplete, authResult, _) =>
         code == 4 && Lookup(o, "complete") == Bool(isComplete) && Lookup(o, "auth_result") == Bool(authResult)
  }

  /** An object is accepted as an event if and only if it says so; so one that says
      nothing, for lack of a flag say, is rejected. */
  lemma AcceptedIffSaid(o: JsonObject, e: PamEvent)
    ensures Decode(o) == Some(e) <==> Says(o, e)
  {
    if Says(o, e) {
      assert "event" in o;
    }
  }

  /** Fields that are not the event's own do not matter. */
  lemma ExtraFieldsIgnored(o: JsonObject, e: PamEvent)
    requires !Refused(e) && forall key :: key in Encode(e) ==> key in o && o[key] == Encode(e)[key]
    ensures Decode(o) == Some(e)
  {
    assert "event" in Encode(e) && "text" in Encode(e);
    match e {
      case ErrorEvent(_) =>
      case PromptRequest(_, _) => assert "secret" in Encode(e);
      case PromptReply(_, _) => assert "reply_result" in Encode(e);
      case MessageEvent(_, _) => assert "error_info" in Encode(e);
      case Complete(_, _, _) => assert "complete" in Encode(e) && "auth_result" in Encode(e);
    }
    AcceptedIffSaid(o, e);
  }

  /** Whatever object an event was accepted from, the event survives being sent
      on: nothing that recv accepts is lost or changed by a further trip. */
  lemma AcceptedEventIsStable(o: JsonObject)
    ensures Decode(o).Some? ==> Decode(Encode(Decode(o).value)) == Decode(o)
  {
    if Decode(o).Some? {
      EventRoundTrip(Decode(o).value);
    }
  }

  /** A value that is not a number reads as event code zero, so such an object is
      accepted as an error event whatever its other fields say. */
  lemma NonNumericEventIsError(o: JsonObject)
    requires var v := Lookup(o, "event"); !v.Null? && !v.Number?
    requires !Lookup(o, "text").Null?
    ensures Decode(o) == Some(ErrorEvent(ToString(Lookup(o, "text"))))
  {
    assert "event" in o;
  }

  // ----- events on a stream

  function EventFrame(c: Codec, e: PamEvent): seq<byte> {
    Frame(c.print_(Encode(e)))
  }

  function EventFrames(c: Codec, es: seq<PamEvent>): seq<byte> {
    if es == [] then [] else EventFrame(c, es[0]) + EventFrames(c, es[1..])
  }

  /** The parser undoes the printer on this event's object, and the printed text
      fits a QByteArray. */
  predicate CarriesEvent(c: Codec, e: PamEvent) {
    var payload := c.print_(Encode(e));
    c.parse(payload) == Some(ObjectDoc(Encode(e))) && |payload| < WORD
  }

  /** What is asked of a codec, about no more than the events at hand. */
  predicate Carries(c: Codec, es: seq<PamEvent>) {
    c.parse([]) == None && forall i :: 0 <= i < |es| ==> CarriesEvent(c, es[i])
  }

  lemma CarriesRest(c: Codec, es: seq<PamEvent>)
    requires Carries(c, es) && es != []
    ensures CarriesEvent(c, es[0]) && Carries(c, es[1..])
  {
    assert forall i :: 0 <= i < |es| - 1 ==> es[1..][i] == es[i + 1];
  }

  /** The first position of `o`, or the length. */
  function Position(os: seq<JsonObject>, o: JsonObject): (n: nat)
    ensures n <= |os|
  {
    if os == [] || os[0] == o then 0 else 1 + Position(os[1..], o)
  }

  lemma {:induction false} PositionFound(os: seq<JsonObject>, i: nat)
    requires i < |os|
    ensures Position(os, os[i]) <= i && os[Position(os, os[i])] == os[i]
    decreases |os|
  {
    if os[0] != os[i] {
      PositionFound(os[1..], i - 1);
    }
  }

  /** A codec that prints positions in unary. */
  function UnaryCodec(os: seq<JsonObject>): Codec {
    Codec(o => seq(Position(os, o) + 1, _ => 0),
          text => if 0 < |text| <= |os| then Some(ObjectDoc(os[|text| - 1])) else None)
  }

  /** There are such codecs, for any events; they also keep the texts of all other
      events short. */
  lemma {:induction false} CarriesIsSatisfiable(es: seq<PamEvent>)
    requires |es| + 1 < WORD
    ensures exists c ::
      Carries(c, es) && forall e: PamEvent :: |c.print_(Encode(e))| < WORD
  {
    var os := seq(|es|, i requires 0 <= i < |es| => Encode(es[i]));
    var c := UnaryCodec(os);
    forall i | 0 <= i < |es|
      ensures CarriesEvent(c, es[i])
    {
      PositionFound(os, i);
      assert os[i] == Encode(es[i]);
    }
    assert Carries(c, es);
  }

  function Recv(c: Codec, stream: seq<byte>): (Option<PamEvent>, seq<byte>) {
    var (payload, rest) := RecvPayload(stream);
    match payload
    case None => (None, rest)
    case Some(p) =>
      match c.parse(p)
      case Some(ObjectDoc(o)) => (Decode(o), rest)
      case _ => (None, rest)
  }

  /** Receiving from the frames of a list of events gives its first event and
      leaves the frames of the others; a refused reply is consumed too. */
  lemma {:induction false} RecvFirst(c: Codec, es: seq<PamEvent>, rest: seq<byte>)
    requires es != [] && CarriesEvent(c, es[0])
    ensures Recv(c, EventFrames(c, es) + rest)
         == (if Refused(es[0]) then None else Some(es[0]), EventFrames(c, es[1..]) + rest)
  {
    var payload := c.print_(Encode(es[0]));
    FrameRoundTrip(payload, EventFrames(c, es[1..]) + rest);
    assert EventFrames(c, es) + rest == Frame(payload) + (EventFrames(c, es[1..]) + rest);
    EventRoundTrip(es[0]);
  }

  lemma EndOfStream(c: Codec)
    requires c.parse([]) == None
    ensures Recv(c, []).0 == None
  {
  }

  /** A frame cut short by a dying writer, anywhere, decodes to failure. */
  lemma RecvTorn(c: Codec, e: PamEvent, cut: nat)
    requires c.parse([]) == None && |c.print_(Encode(e))| < WORD && cut < |EventFrame(c, e)|
    ensures Recv(c, EventFrame(c, e)[..cut]).0 == None
  {
    TornFrame(c.print_(Encode(e)), cut);
  }

  /** Receiving from a stream that is nothing but frames. */
  lemma {:induction false} RecvFrames(c: Codec, es: seq<PamEvent>)
    requires Carries(c, es)
    ensures
      if es == [] then Recv(c, EventFrames(c, es)).0 == None
      else Recv(c, EventFrames(c, es)) == (if Refused(es[0]) then None else Some(es[0]), EventFrames(c, es[1..]))
  {
    if es == [] {
      EndOfStream(c);
    } else {
      RecvFirst(c, es, []);
      assert EventFrames(c, es) + [] == EventFrames(c, es);
      assert EventFrames(c, es[1..]) + [] == EventFrames(c, es[1..]);
    }
  }

  /** Everything received until the first failure. */
  function RecvAll(c: Codec, stream: seq<byte>): seq<PamEvent>
    decreases |stream|
  {
    var (e, rest) := Recv(c, stream);
    if e.None? || stream == [] then [] else [e.value] + RecvAll(c, rest)
  }

  lemma {:induction false} RecvAllCons(c: Codec, es: seq<PamEvent>, rest: seq<byte>)
    requires es != [] && CarriesEvent(c, es[0]) && !Refused(es[0])
    ensures RecvAll(c, EventFrames(c, es) + rest) == [es[0]] + RecvAll(c, EventFrames(c, es[1..]) + rest)
  {
    RecvFirst(c, es, rest);
    assert EventFrames(c, es) + rest != [];
  }

  /** The receiver of a whole stream sees exactly the events sent, in order, up
      to a frame torn by the sender's death. */
  lemma {:induction false} StreamRoundTrip(c: Codec, es: seq<PamEvent>, last: PamEvent, cut: nat)
    requires Carries(c, es) && forall e :: e in es ==> !Refused(e)
    requires |c.print_(Encode(last))| < WORD && cut < |EventFrame(c, last)|
    ensures RecvAll(c, EventFrames(c, es) + EventFrame(c, last)[..cut]) == es
    decreases |es|
  {
    var torn := EventFrame(c, last)[..cut];
    if es == [] {
      RecvTorn(c, last, cut);
      assert [] + torn == torn;
    } else {
      CarriesRest(c, es);
      RecvAllCons(c, es, torn);
      StreamRoundTrip(c, es[1..], last, cut);
    }
  }

  lemma {:induction false} EventFramesAppend(c: Codec, es: seq<PamEvent>, e: PamEvent)
    ensures EventFrames(c, es + [e]) == EventFrames(c, es) + EventFrame(c, e)
    decreases |es|
  {
    if es == [] {
      assert es + [e] == [e];
      assert EventFrames(c, [e]) == EventFrame(c, e) + EventFrames(c, []);
    } else {
      assert (es + [e])[1..] == es[1..] + [e];
      EventFramesAppend(c, es[1..], e);
    }
  }

  // ----- the channel functions

  /** One end-to-end pipe.  Once the reader is gone, writes deliver nothing. */
  class Pipe {
    var bytes: seq<byte>
    var readerOpen: bool

    constructor ()
      ensures bytes == [] && readerOpen
    {
      bytes, readerOpen := [], true;
    }

    method Write(data: seq<byte>) returns (written: int)
      modifies this`bytes
      ensures bytes == if readerOpen then old(bytes) + data else old(bytes)
      ensures written == if readerOpen then |data| else -1
    {
      if readerOpen {
        bytes := bytes + data;
        written := |data|;
      } else {
        written := -1;
      }
    }

    method Read(n: nat) returns (got: seq<byte>)
      modifies this`bytes
      ensures (got, bytes) == ReadUpTo(old(bytes), n)
    {
      var k := if n <= |bytes| then n else |bytes|;
      got := bytes[..k];
      bytes := bytes[k..];
    }
  }

  method Send(c: Codec, fd: Pipe, content: JsonObject) returns (ok: bool)
    modifies fd`bytes
    ensures ok == fd.readerOpen
    ensures fd.bytes == if fd.readerOpen then old(fd.bytes) + Frame(c.print_(content)) else old(fd.bytes)
  {
    var text := c.print_(content);
    var byteArray := LengthBytes(|text|);
    byteArray := byteArray + text;
    var written := fd.Write(byteArray);
    ok := written == |byteArray|;
  }

  /** Reports success whether or not the write reached anybody. */
  method SendEvent(c: Codec, fd: Pipe, e: PamEvent) returns (ok: bool)
    modifies fd`bytes
    ensures ok
    ensures fd.bytes == if fd.readerOpen then old(fd.bytes) + EventFrame(c, e) else old(fd.bytes)
  {
    var jsonObject: JsonObject := map[];
    jsonObject := jsonObject["event" := Number(TypeCode(e))];
    jsonObject := jsonObject["text" := String(e.text)];
    match e {
      case ErrorEvent(_) =>
      case PromptRequest(secret, _) => jsonObject := jsonObject["secret" := Bool(secret)];
      case PromptReply(result, _) => jsonObject := jsonObject["reply_result" := Bool(result)];
      case MessageEvent(isError, _) => jsonObject := jsonObject["error_info" := Bool(isError)];
      case Complete(isComplete, authResult, _) =>
        jsonObject := jsonObject["complete" := Bool(isComplete)];
        jsonObject := jsonObject["auth_result" := Bool(authResult)];
    }
    assert jsonObject == Encode(e);
    var _ := Send(c, fd, jsonObject);
    ok := true;
  }

  method RecvEvent(c: Codec, fd: Pipe) returns (event: Option<PamEvent>)
    modifies fd`bytes
    ensures (event, fd.bytes) == Recv(c, old(fd.bytes))
  {
    var header := fd.Read(4);
    var length := LengthOf(Padded(header));
    var byteArray := fd.Read(length);
    if |byteArray| < length {
      return None;
    }
    var doc := c.parse(byteArray);
    if doc.None? || doc.value.ArrayDoc? {
      return None;
    }
    event := Decode(doc.value.fields);
  }
}
