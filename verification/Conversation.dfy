/** The PAM conversation function of the checkpass child. */
module Conversation {
  import opened AuthTypes
  import opened PamMessage

  datatype Style = EchoOff | EchoOn | ErrorMsg | TextInfo | OtherStyle

  datatype PamMsg = PamMsg(style: Style, text: string)

  datatype ReturnCode = PamSuccess | PamConvErr

  predicate IsPrompt(m: PamMsg) {
    m.style.EchoOff? || m.style.EchoOn?
  }

  /** The event written for one message; an unknown style writes none. */
  function Announce(m: PamMsg): seq<PamEvent> {
    match m.style
    case EchoOff => [PromptRequest(true, m.text)]
    case EchoOn => [PromptRequest(false, m.text)]
    case ErrorMsg => [MessageEvent(true, m.text)]
    case TextInfo => [MessageEvent(false, m.text)]
    case OtherStyle => []
  }

  function Announcements(msgs: seq<PamMsg>): seq<PamEvent> {
    if msgs == [] then [] else Announce(msgs[0]) + Announcements(msgs[1..])
  }

  /** What a conversation does: events sent, responses handed to PAM, whether it
      succeeded, and what is left of the input. */
  datatype Talk = Talk(sent: seq<PamEvent>, responses: seq<Option<string>>, ok: bool, rest: seq<byte>)

  /** `t` with earlier events and responses put in front. */
  function Preceded(sent: seq<PamEvent>, responses: seq<Option<string>>, t: Talk): Talk {
    Talk(sent + t.sent, if t.ok then responses + t.responses else [], t.ok, t.rest)
  }

  lemma PrecededTwice(a: seq<PamEvent>, p: seq<Option<string>>, b: seq<PamEvent>, q: seq<Option<string>>, t: Talk)
    ensures Preceded(a, p, Preceded(b, q, t)) == Preceded(a + b, p + q, t)
  {
    assert a + (b + t.sent) == a + b + t.sent;
    assert p + (q + t.responses) == p + q + t.responses;
  }

  function Converse(c: Codec, msgs: seq<PamMsg>, input: seq<byte>): Talk
    decreases |msgs|
  {
    if msgs == [] then Talk([], [], true, input)
    else
      var (reply, rest) := Exchange(c, msgs[0], input);
      if reply.None? then Talk(Announce(msgs[0]), [], false, rest)
      else Preceded(Announce(msgs[0]), [reply.value], Converse(c, msgs[1..], rest))
  }

  /** The response to one message, or None when the conversation fails at it. */
  function Exchange(c: Codec, m: PamMsg, input: seq<byte>): (Option<Option<string>>, seq<byte>) {
    if !IsPrompt(m) then (Some(None), input)
    else
      var (reply, rest) := Recv(c, input);
      if reply.Some? && reply.value.PromptReply? && reply.value.result
      then (Some(Some(reply.value.text)), rest)
      else (None, rest)
  }

  lemma {:induction false} EventFramesConcat(c: Codec, es: seq<PamEvent>, fs: seq<PamEvent>)
    ensures EventFrames(c, es + fs) == EventFrames(c, es) + EventFrames(c, fs)
    decreases |es|
  {
    if es == [] {
      assert es + fs == fs;
    } else {
      assert (es + fs)[0] == es[0] && (es + fs)[1..] == es[1..] + fs;
      EventFramesConcat(c, es[1..], fs);
    }
  }

  function Delivered(open: bool, before: seq<byte>, frames: seq<byte>): seq<byte> {
    if open then before + frames else before
  }

  lemma {:induction false} DeliveredConcat(c: Codec, open: bool, before: seq<byte>, es: seq<PamEvent>, fs: seq<PamEvent>)
    ensures Delivered(open, Delivered(open, before, EventFrames(c, es)), EventFrames(c, fs))
         == Delivered(open, before, EventFrames(c, es + fs))
  {
    EventFramesConcat(c, es, fs);
    ConcatAssociates(before, EventFrames(c, es), EventFrames(c, fs));
  }

  lemma ConcatAssociates(a: seq<byte>, b: seq<byte>, c: seq<byte>)
    ensures a + b + c == a + (b + c)
  {
  }

  lemma {:induction false} ConverseStep(c: Codec, msgs: seq<PamMsg>, i: nat, sent: seq<PamEvent>,
                     done: seq<Option<string>>, input: seq<byte>)
    requires i < |msgs|
    ensures
      var (reply, rest) := Exchange(c, msgs[i], input);
      Preceded(sent, done, Converse(c, msgs[i..], input))
      == if reply.None? then Talk(sent + Announce(msgs[i]), [], false, rest)
         else Preceded(sent + Announce(msgs[i]), done + [reply.value], Converse(c, msgs[i + 1..], rest))
  {
    assert msgs[i..][0] == msgs[i] && msgs[i..][1..] == msgs[i + 1..];
    var (reply, rest) := Exchange(c, msgs[i], input);
    if reply.Some? {
      PrecededTwice(sent, done, Announce(msgs[i]), [reply.value], Converse(c, msgs[i + 1..], rest));
    }
  }

  /** The body of the conversation's switch. */
  method HandleMessage(c: Codec, msg: PamMsg, output: Pipe, input: Pipe)
    returns (resp: Option<string>, ret: ReturnCode)
    requires output != input
    modifies output`bytes, input`bytes
    ensures
      var (reply, rest) := Exchange(c, msg, old(input.bytes));
      && input.bytes == rest
      && (ret == PamSuccess <==> reply.Some?)
      && (ret == PamSuccess ==> resp == reply.value)
    ensures output.bytes == Delivered(output.readerOpen, old(output.bytes), EventFrames(c, Announce(msg)))
  {
    resp, ret := None, PamSuccess;
    if msg.style.EchoOff? || msg.style.EchoOn? {
      var event := PromptRequest(msg.style.EchoOff?, msg.text);
      assert EventFrames(c, [event]) == EventFrame(c, event);
      var delivered := SendEvent(c, output, event);
      if !delivered {
        return None, PamConvErr;
      }
      var received := RecvEvent(c, input);
      if received.None? || !received.value.PromptReply? || !received.value.result {
        return None, PamConvErr;
      }
      resp := Some(received.value.text);
    } else if msg.style.ErrorMsg? || msg.style.TextInfo? {
      var event := MessageEvent(msg.style.ErrorMsg?, msg.text);
      assert EventFrames(c, [event]) == EventFrame(c, event);
      var delivered := SendEvent(c, output, event);
      if !delivered {
        return None, PamConvErr;
      }
    }
  }

  /** The `conv` callback: `memory` says whether the reply array could be
      allocated. */
  method Converser(c: Codec, msgs: seq<PamMsg>, output: Pipe, input: Pipe, memory: bool)
    returns (resp: seq<Option<string>>, ret: ReturnCode)
    requires output != input
    modifies output`bytes, input`bytes
    ensures !memory ==> ret == PamConvErr && output.bytes == old(output.bytes) && input.bytes == old(input.bytes)
    ensures memory ==>
      var t := Converse(c, msgs, old(input.bytes));
      && (ret == PamSuccess <==> t.ok)
      && (t.ok ==> resp == t.responses)
      && input.bytes == t.rest
      && output.bytes == Delivered(output.readerOpen, old(output.bytes), EventFrames(c, t.sent))
  {
    resp := [];
    if !memory {
      return resp, PamConvErr;
    }
    var reply := new Option<string>[|msgs|](_ => None);
    ghost var before, start := output.bytes, input.bytes;
    ghost var sent: seq<PamEvent> := [];
    ghost var t := Converse(c, msgs, start);
    assert msgs[0..] == msgs && Preceded([], [], t) == t;
    ret := PamSuccess;
    var i := 0;
    while i < |msgs| && ret == PamSuccess
      invariant 0 <= i <= |msgs| && reply.Length == |msgs|
      invariant output.bytes == Delivered(output.readerOpen, before, EventFrames(c, sent))
      invariant Progress(c, msgs, t, i, sent, reply[..i], input.bytes, ret)
    {
      ret := HandleNext(c, msgs, i, reply, output, input, t, sent);
      DeliveredConcat(c, output.readerOpen, before, sent, Announce(msgs[i]));
      sent := sent + Announce(msgs[i]);
      i := i + 1;
    }
    if ret == PamSuccess {
      assert reply[..i] == reply[..];
      ProgressDone(c, msgs, t, sent, reply[..], input.bytes);
      resp := reply[..];
    }
  }

  /** The body of the conversation's loop. */
  method HandleNext(c: Codec, msgs: seq<PamMsg>, i: nat, reply: array<Option<string>>, output: Pipe, input: Pipe,
                    ghost t: Talk, ghost sent: seq<PamEvent>)
    returns (ret: ReturnCode)
    requires output != input && i < |msgs| == reply.Length
    requires Progress(c, msgs, t, i, sent, reply[..i], input.bytes, PamSuccess)
    modifies output`bytes, input`bytes, reply
    ensures Progress(c, msgs, t, i + 1, sent + Announce(msgs[i]), reply[..i + 1], input.bytes, ret)
    ensures output.bytes == Delivered(output.readerOpen, old(output.bytes), EventFrames(c, Announce(msgs[i])))
  {
    ghost var done, before := reply[..i], input.bytes;
    var response;
    response, ret := HandleMessage(c, msgs[i], output, input);
    ProgressStep(c, msgs, t, i, sent, done, before, response, ret);
    reply[i] := response;
    assert reply[..i + 1] == done + [response];
  }

  /** After `i` messages, `t` is what has been done so far and what is to come. */
  ghost predicate Progress(c: Codec, msgs: seq<PamMsg>, t: Talk, i: nat, sent: seq<PamEvent>,
                           done: seq<Option<string>>, input: seq<byte>, ret: ReturnCode)
    requires i <= |msgs|
  {
    match ret
    case PamConvErr => t == Talk(sent, [], false, input)
    case PamSuccess => t == Preceded(sent, done, Converse(c, msgs[i..], input))
  }

  lemma ProgressStep(c: Codec, msgs: seq<PamMsg>, t: Talk, i: nat, sent: seq<PamEvent>,
                     done: seq<Option<string>>, input: seq<byte>, response: Option<string>, ret: ReturnCode)
    requires i < |msgs| && Progress(c, msgs, t, i, sent, done, input, PamSuccess)
    requires
      var reply := Exchange(c, msgs[i], input).0;
      (ret == PamSuccess <==> reply.Some?) && (ret == PamSuccess ==> response == reply.value)
    ensures Progress(c, msgs, t, i + 1, sent + Announce(msgs[i]), done + [response], Exchange(c, msgs[i], input).1, ret)
  {
    ConverseStep(c, msgs, i, sent, done, input);
  }

  lemma ProgressDone(c: Codec, msgs: seq<PamMsg>, t: Talk, sent: seq<PamEvent>, done: seq<Option<string>>, input: seq<byte>)
    requires Progress(c, msgs, t, |msgs|, sent, done, input, PamSuccess)
    ensures t == Talk(sent, done, true, input)
  {
    assert msgs[|msgs|..] == [] && sent + [] == sent && done + [] == done;
  }

  // ----- lock step

  function PromptCount(msgs: seq<PamMsg>): nat {
    if msgs == [] then 0 else (if IsPrompt(msgs[0]) then 1 else 0) + PromptCount(msgs[1..])
  }

  /** How many positive replies the input starts with. */
  function Lead(es: seq<PamEvent>): nat {
    if es != [] && es[0].PromptReply? && es[0].result then 1 + Lead(es[1..]) else 0
  }

  /** How many messages are handled with `budget` positive replies, the failing
      prompt included. */
  function HandledWith(msgs: seq<PamMsg>, budget: nat): nat {
    if msgs == [] then 0
    else if !IsPrompt(msgs[0]) then 1 + HandledWith(msgs[1..], budget)
    else if budget == 0 then 1
    else 1 + HandledWith(msgs[1..], budget - 1)
  }

  lemma {:induction false} HandledWithin(msgs: seq<PamMsg>, budget: nat)
    ensures HandledWith(msgs, budget) <= |msgs|
    ensures PromptCount(msgs) <= budget ==> HandledWith(msgs, budget) == |msgs|
    decreases |msgs|
  {
    if msgs != [] {
      if !IsPrompt(msgs[0]) {
        HandledWithin(msgs[1..], budget);
      } else if budget > 0 {
        HandledWithin(msgs[1..], budget - 1);
      }
    }
  }

  lemma {:induction false} LeadBound(es: seq<PamEvent>)
    ensures Lead(es) <= |es|
    decreases |es|
  {
    if es != [] {
      LeadBound(es[1..]);
    }
  }

  lemma {:induction false} ExchangeOnFrames(c: Codec, m: PamMsg, es: seq<PamEvent>)
    requires Carries(c, es) && IsPrompt(m)
    ensures
      var (reply, rest) := Exchange(c, m, EventFrames(c, es));
      if Lead(es) == 0 then reply == None
      else |es| > 0 && reply == Some(Some(es[0].text)) && rest == EventFrames(c, es[1..])
  {
    RecvFrames(c, es);
  }

  lemma AnnouncementsCons(msgs: seq<PamMsg>, n: nat)
    requires 0 < n <= |msgs|
    ensures Announcements(msgs[..n]) == Announce(msgs[0]) + Announcements(msgs[1..][..n - 1])
  {
    assert msgs[..n][0] == msgs[0] && msgs[..n][1..] == msgs[1..][..n - 1];
  }

  /** The conversation seen at the level of events: what is sent, the responses,
      whether it succeeds, and the events left over when it does. */
  datatype Meeting = Meeting(sent: seq<PamEvent>, responses: seq<Option<string>>, ok: bool, left: seq<PamEvent>)

  function Meet(msgs: seq<PamMsg>, es: seq<PamEvent>): Meeting {
    if msgs == [] then Meeting([], [], true, es)
    else if IsPrompt(msgs[0]) && Lead(es) == 0 then Meeting(Announce(msgs[0]), [], false, [])
    else
      var prompt := IsPrompt(msgs[0]);
      var m := Meet(msgs[1..], if prompt then es[1..] else es);
      Meeting(Announce(msgs[0]) + m.sent,
              if m.ok then [if prompt then Some(es[0].text) else None] + m.responses else [],
              m.ok, m.left)
  }

  lemma {:induction false} ConverseMeets(c: Codec, msgs: seq<PamMsg>, es: seq<PamEvent>)
    requires Carries(c, es)
    ensures
      var t, m := Converse(c, msgs, EventFrames(c, es)), Meet(msgs, es);
      && t.sent == m.sent && t.responses == m.responses && t.ok == m.ok
      && (t.ok ==> t.rest == EventFrames(c, m.left))
    decreases |msgs|
  {
    if msgs != [] {
      if IsPrompt(msgs[0]) {
        ExchangeOnFrames(c, msgs[0], es);
        if Lead(es) > 0 {
          CarriesRest(c, es);
          ConverseMeets(c, msgs[1..], es[1..]);
        }
      } else {
        ConverseMeets(c, msgs[1..], es);
      }
    }
  }

  lemma {:induction false} MeetSucceedsIff(msgs: seq<PamMsg>, es: seq<PamEvent>)
    ensures Meet(msgs, es).ok <==> PromptCount(msgs) <= Lead(es)
    ensures Meet(msgs, es).ok ==> |Meet(msgs, es).responses| == |msgs|
    decreases |msgs|
  {
    if msgs != [] && !(IsPrompt(msgs[0]) && Lead(es) == 0) {
      MeetSucceedsIff(msgs[1..], if IsPrompt(msgs[0]) then es[1..] else es);
    }
  }

  /** The conversation of any length succeeds if and only if there is a positive
      reply for every prompt. */
  lemma {:induction false} LockStep(c: Codec, msgs: seq<PamMsg>, es: seq<PamEvent>)
    requires Carries(c, es)
    ensures Converse(c, msgs, EventFrames(c, es)).ok <==> PromptCount(msgs) <= Lead(es)
  {
    ConverseMeets(c, msgs, es);
    MeetSucceedsIff(msgs, es);
  }

  lemma {:induction false} MeetSendsAPrefix(msgs: seq<PamMsg>, es: seq<PamEvent>)
    ensures HandledWith(msgs, Lead(es)) <= |msgs|
    ensures Meet(msgs, es).sent == Announcements(msgs[..HandledWith(msgs, Lead(es))])
    decreases |msgs|
  {
    HandledWithin(msgs, Lead(es));
    if msgs != [] {
      AnnouncementsCons(msgs, HandledWith(msgs, Lead(es)));
      if !(IsPrompt(msgs[0]) && Lead(es) == 0) {
        MeetSendsAPrefix(msgs[1..], if IsPrompt(msgs[0]) then es[1..] else es);
      } else {
        assert Announce(msgs[0]) + [] == Announce(msgs[0]);
      }
    }
  }

  /** Events are written in array order; the first prompt without a positive
      reply, and then nothing further, is the last thing sent. */
  lemma {:induction false} SentInOrder(c: Codec, msgs: seq<PamMsg>, es: seq<PamEvent>)
    requires Carries(c, es)
    ensures
      var handled := HandledWith(msgs, Lead(es));
      && handled <= |msgs|
      && Converse(c, msgs, EventFrames(c, es)).sent == Announcements(msgs[..handled])
      && (PromptCount(msgs) <= Lead(es) ==> handled == |msgs|)
  {
    HandledWithin(msgs, Lead(es));
    MeetSendsAPrefix(msgs, es);
    ConverseMeets(c, msgs, es);
  }

  lemma {:induction false} MeetConsumes(msgs: seq<PamMsg>, es: seq<PamEvent>)
    requires PromptCount(msgs) <= Lead(es)
    ensures Meet(msgs, es).ok && PromptCount(msgs) <= |es|
    ensures Meet(msgs, es).left == es[PromptCount(msgs)..]
    decreases |msgs|
  {
    LeadBound(es);
    if msgs == [] {
      assert es[0..] == es;
    } else if IsPrompt(msgs[0]) {
      MeetConsumes(msgs[1..], es[1..]);
      assert es[1..][PromptCount(msgs[1..])..] == es[PromptCount(msgs)..];
    } else {
      MeetConsumes(msgs[1..], es);
    }
  }

  /** A successful conversation consumes exactly one reply per prompt. */
  lemma {:induction false} OneReplyPerPrompt(c: Codec, msgs: seq<PamMsg>, es: seq<PamEvent>)
    requires Carries(c, es) && PromptCount(msgs) <= Lead(es)
    ensures PromptCount(msgs) <= |es|
    ensures Converse(c, msgs, EventFrames(c, es)).rest == EventFrames(c, es[PromptCount(msgs)..])
  {
    MeetConsumes(msgs, es);
    ConverseMeets(c, msgs, es);
  }

  lemma {:induction false} MeetResponds(msgs: seq<PamMsg>, es: seq<PamEvent>, i: nat)
    requires PromptCount(msgs) <= Lead(es) && i < |msgs|
    ensures
      var responses, number := Meet(msgs, es).responses, PromptCount(msgs[..i]);
      && |responses| == |msgs|
      && (IsPrompt(msgs[i]) ==> number < |es| && responses[i] == Some(es[number].text))
      && (!IsPrompt(msgs[i]) ==> responses[i] == None)
    decreases |msgs|
  {
    MeetSucceedsIff(msgs, es);
    LeadBound(es);
    if i > 0 {
      assert msgs[..i][0] == msgs[0] && msgs[..i][1..] == msgs[1..][..i - 1];
      MeetResponds(msgs[1..], if IsPrompt(msgs[0]) then es[1..] else es, i - 1);
    }
  }

  /** On success response number i is the text of the reply to prompt i, counted
      among prompts, and empty for a message that is not a prompt. */
  lemma {:induction false} ResponsesMatch(c: Codec, msgs: seq<PamMsg>, es: seq<PamEvent>, i: nat)
    requires Carries(c, es) && PromptCount(msgs) <= Lead(es) && i < |msgs|
    ensures
      var t := Converse(c, msgs, EventFrames(c, es));
      var number := PromptCount(msgs[..i]);
      && t.ok && |t.responses| == |msgs|
      && (IsPrompt(msgs[i]) ==> number < |es| && t.responses[i] == Some(es[number].text))
      && (!IsPrompt(msgs[i]) ==> t.responses[i] == None)
  {
    LockStep(c, msgs, es);
    MeetResponds(msgs, es, i);
    ConverseMeets(c, msgs, es);
  }
}
