/** The server-sent-event consumer (Services/SSEService.swift).

    A chunk of the stream is cut into lines on every newline character;
    each line that starts with exactly `data: ` loses that prefix and the
    rest is handed to the JSON decoder; each successful decode is published
    as one event, in line order, and a failed decode skips only that line.
    This is the `data:` field of the WHATWG HTML Living Standard, section
    9.2 "Server-sent events", without the rest of that framing.

    The service is a two-state machine over `streamRequest`: `connect` is a
    no-op while a request exists, `disconnect` cancels and clears it.
    Subscribers see a Combine `PassthroughSubject`: once it has sent a
    completion it ignores everything sent to it afterwards.

    The JSON decoder is the function `decode` given at construction; the
    UTF-8 decoding of a chunk is done by the caller of `OnStreamData`. */
module Sse {
  import opened Base

  const DataPrefix: string := "data: "

  /** Foundation's `.newlines`: U+000A to U+000D, U+0085, U+2028, U+2029. */
  predicate IsNewline(c: char)
  {
    ('\U{000A}' <= c <= '\U{000D}') || c == '\U{0085}' || c == '\U{2028}' || c == '\U{2029}'
  }

  /** `s` holds no newline character. */
  predicate NoNewline(s: string)
  {
    forall i :: 0 <= i < |s| ==> !IsNewline(s[i])
  }

  /** Position of the first newline character of `s`. */
  function FirstNewline(s: string): (r: Option<nat>)
    ensures r.Some? ==> r.value < |s| && IsNewline(s[r.value]) && NoNewline(s[..r.value])
    ensures r.None? <==> NoNewline(s)
    decreases |s|
  {
    if s == [] then None
    else if IsNewline(s[0]) then Some(0)
    else match FirstNewline(s[1..])
      case Some(k) => assert s[..k + 1] == [s[0]] + s[1..][..k]; Some(k + 1)
      case None => None
  }

  /** `components(separatedBy: .newlines)`: the text between newline
      characters, empty lines included; there is always at least one. */
  function Lines(s: string): (lines: seq<string>)
    ensures |lines| >= 1
    ensures forall k :: 0 <= k < |lines| ==> NoNewline(lines[k])
    decreases |s|
  {
    match FirstNewline(s)
    case None => [s]
    case Some(i) => [s[..i]] + Lines(s[i + 1..])
  }

  /** Text without a newline is one line. */
  lemma LinesOfOneLine(s: string)
    requires NoNewline(s)
    ensures Lines(s) == [s]
  {
  }

  /** A newline preceded by newline-free text is the first newline. */
  lemma {:induction false} FirstNewlineAt(s: string, i: nat)
    requires i < |s| && IsNewline(s[i]) && NoNewline(s[..i])
    ensures FirstNewline(s) == Some(i)
    decreases i
  {
    if i > 0 {
      assert s[0] == s[..i][0];
      assert s[1..][..i - 1] == s[..i][1..];
      FirstNewlineAt(s[1..], i - 1);
    }
  }

  /** A newline ends a line: newline-free text `a`, a newline, and `b`
      are the line `a` followed by the lines of `b`. */
  lemma LinesAround(a: string, c: char, b: string)
    requires IsNewline(c) && NoNewline(a)
    ensures Lines(a + [c] + b) == [a] + Lines(b)
  {
    var s := a + [c] + b;
    assert s[..|a|] == a;
    assert s[|a| + 1..] == b;
    FirstNewlineAt(s, |a|);
  }

  /** The payload handed to the decoder: the line with exactly its first
      six characters, the prefix, removed. */
  function Payload(line: string): (payload: string)
    requires HasPrefix(line, DataPrefix)
    ensures DataPrefix + payload == line
    ensures |payload| == |line| - 6
  {
    line[|DataPrefix|..]
  }

  /** The event one line yields: none unless it is a `data: ` line whose
      payload decodes. */
  function LineEvent<E>(line: string, decode: string -> Option<E>): (e: Option<E>)
    ensures e.Some? <==> HasPrefix(line, DataPrefix) && decode(line[|DataPrefix|..]).Some?
    ensures e.Some? ==> decode(line[|DataPrefix|..]) == e
  {
    if HasPrefix(line, DataPrefix) then decode(Payload(line)) else None
  }

  /** What `parse` publishes for a list of lines, in line order. */
  function EventsOf<E>(lines: seq<string>, decode: string -> Option<E>): (events: seq<E>)
    ensures |events| <= |lines|
    decreases |lines|
  {
    if lines == [] then []
    else
      var n := |lines| - 1;
      EventsOf(lines[..n], decode) + LineEvents(lines[n], decode)
  }

  /** The events of one chunk of text: at most one per line. */
  function ChunkEvents<E>(text: string, decode: string -> Option<E>): (events: seq<E>)
    ensures |events| <= |Lines(text)|
  {
    EventsOf(Lines(text), decode)
  }

  /** One line yields at most its decoded payload, and only if it starts
      with `data: `: a blank line, a comment or any other field yields
      nothing, and so does a `data: ` line whose payload fails to decode. */
  lemma OneLine<E>(line: string, decode: string -> Option<E>)
    ensures EventsOf([line], decode) ==
              if HasPrefix(line, DataPrefix) && decode(Payload(line)).Some?
              then [decode(Payload(line)).value] else []
  {
    assert [line][..0] == [];
  }

  /** Lines are handled independently and in order: the events of two runs
      of lines are the events of the first run followed by those of the
      second, so a skipped line never stops the lines after it. */
  lemma {:induction false} EventsOfConcat<E>(front: seq<string>, back: seq<string>, decode: string -> Option<E>)
    ensures EventsOf(front + back, decode) == EventsOf(front, decode) + EventsOf(back, decode)
    decreases |back|
  {
    if back == [] {
      assert front + back == front;
    } else {
      var n := |back| - 1;
      assert front + back == (front + back[..n]) + [back[n]];
      assert back == back[..n] + [back[n]];
      EventsOfAppend(front + back[..n], back[n], decode);
      EventsOfAppend(back[..n], back[n], decode);
      EventsOfConcat(front, back[..n], decode);
    }
  }

  /** One more line at the end adds its contribution at the end. */
  lemma EventsOfAppend<E>(lines: seq<string>, line: string, decode: string -> Option<E>)
    ensures EventsOf(lines + [line], decode) == EventsOf(lines, decode) + LineEvents(line, decode)
  {
    assert (lines + [line])[..|lines|] == lines;
  }

  /** Gluing newline-free texts keeps them newline-free. */
  lemma NoNewlineConcat(a: string, b: string)
    requires NoNewline(a) && NoNewline(b)
    ensures NoNewline(a + b)
  {
    forall i | 0 <= i < |a + b| ensures !IsNewline((a + b)[i]) {
      if i >= |a| {
        assert (a + b)[i] == b[i - |a|];
      }
    }
  }

  /** The contribution of one line, as a sequence: the decoded payload of
      a `data: ` line, or nothing. */
  function LineEvents<E>(line: string, decode: string -> Option<E>): (events: seq<E>)
    ensures |events| <= 1
    ensures events != [] <==> HasPrefix(line, DataPrefix) && decode(line[|DataPrefix|..]).Some?
    ensures events != [] ==> decode(line[|DataPrefix|..]) == Some(events[0])
  {
    var e := LineEvent(line, decode);
    if e.Some? then [e.value] else []
  }

  /** Two newline-free texts separated by a newline are two lines. */
  lemma LinesOfTwo(l1: string, l2: string)
    requires NoNewline(l1) && NoNewline(l2)
    ensures Lines(l1 + "\n" + l2) == [l1, l2]
  {
    LinesAround(l1, '\n', l2);
    LinesOfOneLine(l2);
  }

  /** Three newline-free texts separated by newlines are three lines. */
  lemma LinesOfThree(l1: string, l2: string, l3: string)
    requires NoNewline(l1) && NoNewline(l2) && NoNewline(l3)
    ensures Lines(l1 + "\n" + l2 + "\n" + l3) == [l1, l2, l3]
  {
    assert l1 + "\n" + l2 + "\n" + l3 == l1 + ['\n'] + (l2 + "\n" + l3);
    LinesAround(l1, '\n', l2 + "\n" + l3);
    LinesOfTwo(l2, l3);
  }

  /** The events of two lines. */
  lemma EventsOfTwo<E>(l1: string, l2: string, decode: string -> Option<E>)
    ensures EventsOf([l1, l2], decode) == LineEvents(l1, decode) + LineEvents(l2, decode)
  {
    assert [l1, l2] == [l1] + [l2];
    EventsOfConcat([l1], [l2], decode);
    OneLine(l1, decode);
    OneLine(l2, decode);
  }

  /** The events of three lines. */
  lemma EventsOfThree<E>(l1: string, l2: string, l3: string, decode: string -> Option<E>)
    ensures EventsOf([l1, l2, l3], decode) ==
              LineEvents(l1, decode) + LineEvents(l2, decode) + LineEvents(l3, decode)
  {
    assert [l1, l2, l3] == [l1, l2] + [l3];
    EventsOfConcat([l1, l2], [l3], decode);
    EventsOfTwo(l1, l2, decode);
    OneLine(l3, decode);
  }

  /** A `data: ` line whose payload decodes yields exactly that event. */
  lemma DataLineEvent<E>(payload: string, decode: string -> Option<E>, e: E)
    requires decode(payload) == Some(e)
    ensures LineEvents(DataPrefix + payload, decode) == [e]
  {
    assert Payload(DataPrefix + payload) == payload;
  }

  /** Two `data: ` lines around a comment line: exactly the two decoded
      payloads are published, in the order of their lines. */
  lemma TwoDataLinesAroundComment<E>(p1: string, comment: string, p2: string,
                                     decode: string -> Option<E>, e1: E, e2: E)
    requires NoNewline(p1) && NoNewline(p2) && NoNewline(comment)
    requires !HasPrefix(comment, DataPrefix)
    requires decode(p1) == Some(e1) && decode(p2) == Some(e2)
    ensures ChunkEvents(DataPrefix + p1 + "\n" + comment + "\n" + DataPrefix + p2, decode) == [e1, e2]
  {
    var l1, l3 := DataPrefix + p1, DataPrefix + p2;
    assert DataPrefix + p1 + "\n" + comment + "\n" + DataPrefix + p2 == l1 + "\n" + comment + "\n" + l3;
    assert NoNewline(DataPrefix);
    NoNewlineConcat(DataPrefix, p1);
    NoNewlineConcat(DataPrefix, p2);
    LinesOfThree(l1, comment, l3);
    EventsOfThree(DataPrefix + p1, comment, DataPrefix + p2, decode);
    DataLineEvent(p1, decode, e1);
    DataLineEvent(p2, decode, e2);
  }

  /** A malformed `data: ` line does not stop the chunk: the next valid
      line still yields its event. */
  lemma MalformedLineSkipped<E>(bad: string, good: string, decode: string -> Option<E>, e: E)
    requires NoNewline(bad) && NoNewline(good)
    requires decode(bad).None? && decode(good) == Some(e)
    ensures ChunkEvents(DataPrefix + bad + "\n" + DataPrefix + good, decode) == [e]
  {
    var l1, l2 := DataPrefix + bad, DataPrefix + good;
    assert DataPrefix + bad + "\n" + DataPrefix + good == l1 + "\n" + l2;
    assert NoNewline(DataPrefix);
    NoNewlineConcat(DataPrefix, bad);
    NoNewlineConcat(DataPrefix, good);
    LinesOfTwo(l1, l2);
    EventsOfTwo(DataPrefix + bad, DataPrefix + good, decode);
    assert Payload(DataPrefix + bad) == bad;
    DataLineEvent(good, decode, e);
  }

  /** How a subject's stream ends: normally, or with an error. */
  datatype Completion = Finished | Failed(error: Error)

  /** The request headers every stream is opened with. */
  const StreamHeaders: map<string, string> :=
    map["Accept" := "text/event-stream", "Cache-Control" := "no-cache", "Connection" := "keep-alive"]

  /** One `DataStreamRequest`: a GET of `url` with `headers`; `serial`
      numbers the requests the service has made. */
  datatype StreamRequest = StreamRequest(url: string, headers: map<string, string>, serial: nat)

  /** Combine's `PassthroughSubject`: subscribers receive the values it is
      sent, in order, until it is sent a completion; everything sent after
      that is ignored. So what subscribers see is always `received`
      followed by `completion`, when there is one. */
  class PassthroughSubject<E> {
    /** The values delivered to subscribers, in order. */
    var received: seq<E>
    /** The completion delivered to subscribers, once sent. */
    var completion: Option<Completion>

    constructor ()
      ensures received == [] && completion == None
    {
      received, completion := [], None;
    }

    /** `send(_:)`: delivered only while the subject has not completed. */
    method Send(e: E)
      modifies this
      ensures received == old(received) + (if old(completion).Some? then [] else [e])
      ensures completion == old(completion)
    {
      if completion.None? {
        received := received + [e];
      }
    }

    /** `send(completion:)`: only the first completion counts. */
    method SendCompletion(c: Completion)
      modifies this
      ensures received == old(received)
      ensures completion == if old(completion).Some? then old(completion) else Some(c)
    {
      if completion.None? {
        completion := Some(c);
      }
    }
  }

  class AlamofireSseService<E> {
    /** The JSON decoder for `ServerEvent`. */
    const decode: string -> Option<E>
    /** `eventSubject`, whose publisher subscribers see. */
    const subject: PassthroughSubject<E>
    /** The live request, if any. */
    var streamRequest: Option<StreamRequest>
    /** Every request the service has made, in order. */
    var requests: seq<StreamRequest>
    /** Every request the service has cancelled, in order. */
    var cancelled: seq<StreamRequest>

    /** At most one stream is live: every request other than the current
        one has been cancelled, and the current one has not. */
    ghost predicate Valid()
      reads this
    {
      && (forall k :: 0 <= k < |requests| ==> requests[k].serial == k)
      && (streamRequest.Some? ==>
            |requests| > 0 && streamRequest.value == requests[|requests| - 1] && streamRequest.value !in cancelled)
      && (forall k :: 0 <= k < |requests| ==> requests[k] in cancelled || streamRequest == Some(requests[k]))
      && (forall x :: x in cancelled ==> x.serial < |requests|)
    }

    constructor (decode: string -> Option<E>)
      ensures Valid() && fresh(subject)
      ensures this.decode == decode
      ensures streamRequest == None && requests == [] && cancelled == []
      ensures subject.received == [] && subject.completion == None
    {
      this.decode := decode;
      subject := new PassthroughSubject();
      streamRequest := None;
      requests, cancelled := [], [];
    }

    /** `connect(to:)`: opens a stream only when none exists. */
    method Connect(url: string)
      requires Valid()
      modifies this
      ensures Valid()
      ensures old(streamRequest).Some? ==> streamRequest == old(streamRequest) && requests == old(requests)
      ensures old(streamRequest).None? ==>
                var r := StreamRequest(url, StreamHeaders, |old(requests)|);
                streamRequest == Some(r) && requests == old(requests) + [r]
      ensures cancelled == old(cancelled)
    {
      if streamRequest.Some? {
        return;
      }
      var r := StreamRequest(url, StreamHeaders, |requests|);
      requests := requests + [r];
      streamRequest := Some(r);
    }

    /** `disconnect()`: cancels the live request, if any, and clears it;
        calling it again changes nothing. */
    method Disconnect()
      requires Valid()
      modifies this
      ensures Valid()
      ensures streamRequest == None
      ensures cancelled == old(cancelled) + (if old(streamRequest).Some? then [old(streamRequest).value] else [])
      ensures requests == old(requests)
    {
      if streamRequest.Some? {
        cancelled := cancelled + [streamRequest.value];
      }
      streamRequest := None;
    }

    /** The body of `parse`'s loop for one line: a `data: ` line whose
        payload decodes is sent, every other line is skipped. */
    method ParseLine(line: string)
      modifies subject
      ensures subject.received ==
                old(subject.received) + (if old(subject.completion).Some? then [] else LineEvents(line, decode))
      ensures subject.completion == old(subject.completion)
    {
      if HasPrefix(line, DataPrefix) {
        var json := line[|DataPrefix|..];
        var decoded := decode(json);
        if decoded.Some? {
          subject.Send(decoded.value);
        }
      }
    }

    /** The loop of `parse(eventString:)`: each line in order. */
    method ParseLines(lines: seq<string>)
      modifies subject
      ensures subject.received ==
                old(subject.received) + (if old(subject.completion).Some? then [] else EventsOf(lines, decode))
      ensures subject.completion == old(subject.completion)
    {
      for i := 0 to |lines|
        invariant subject.received ==
                    old(subject.received) + (if old(subject.completion).Some? then [] else EventsOf(lines[..i], decode))
        invariant subject.completion == old(subject.completion)
      {
        assert lines[..i + 1] == lines[..i] + [lines[i]];
        EventsOfAppend(lines[..i], lines[i], decode);
        ParseLine(lines[i]);
      }
      assert lines[..|lines|] == lines;
    }

    /** `parse(eventString:)`: publishes the chunk's events in line order. */
    method Parse(text: string)
      modifies subject
      ensures subject.received ==
                old(subject.received) + (if old(subject.completion).Some? then [] else ChunkEvents(text, decode))
      ensures subject.completion == old(subject.completion)
    {
      ParseLines(Lines(text));
    }

    /** A `.stream(.success(data))` event; `text` is the chunk's UTF-8
        decoding, absent when the bytes are not valid UTF-8 (the chunk is
        then dropped). */
    method OnStreamData(text: Option<string>)
      modifies subject
      ensures subject.received == old(subject.received) +
                (if old(subject.completion).Some? || text.None? then [] else ChunkEvents(text.value, decode))
      ensures subject.completion == old(subject.completion)
    {
      if text.Some? {
        Parse(text.value);
      }
    }

    /** A `.stream(.failure(error))` event: the failure is sent, but the
        request is kept, so `connect` stays a no-op. */
    method OnStreamFailure(error: Error)
      modifies subject
      ensures subject.received == old(subject.received)
      ensures subject.completion ==
                if old(subject.completion).Some? then old(subject.completion) else Some(Failed(error))
    {
      subject.SendCompletion(Failed(error));
    }

    /** A `.complete` event: sends the failure if the completion carries an
        error and `.finished` otherwise, then disconnects. */
    method OnComplete(error: Option<Error>)
      requires Valid()
      modifies this, subject
      ensures Valid()
      ensures streamRequest == None
      ensures subject.received == old(subject.received)
      ensures subject.completion ==
                if old(subject.completion).Some? then old(subject.completion)
                else Some(if error.Some? then Failed(error.value) else Finished)
      ensures cancelled == old(cancelled) + (if old(streamRequest).Some? then [old(streamRequest).value] else [])
      ensures requests == old(requests)
    {
      subject.SendCompletion(if error.Some? then Failed(error.value) else Finished);
      Disconnect();
    }
  }
}
