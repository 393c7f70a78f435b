/**
 * The back end's /api/translate route: the blank-prompt guard and the
 * generator that relays an upstream chat-completion event stream to the
 * browser (backend/server.py:74-155).
 *
 * The upstream response is an input: its status, the lines the HTTP client
 * delivers, and the exception (if any) the client raises after the last of
 * them. json.loads is abstracted by the Json datatype and handed in as the
 * function decode. The relay handles a simplified subset of Server-Sent
 * Events (section 9.2 of the WHATWG HTML Living Standard): only lines that
 * start with exactly "data: " count, a payload is a single line, and
 * "event:" and "id:" fields are ignored like any other line.
 */
module Relay {
  import opened Wrappers
  import opened Text
  import opened JsonText

  // ---------------------------------------------------------------------
  // The upstream response
  // ---------------------------------------------------------------------

  /** The exceptions the relay tells apart: httpx.TimeoutException, any other
      httpx.RequestError, and any other Exception. */
  datatype Failure = Timeout | RequestError | Unexpected

  datatype Upstream =
    /** Opening the request raised before a response arrived. */
    | Unreachable(failure: Failure)
    /** A response: its status, the lines of its body, and the exception
        the client raises after them, if any. With status 200 that is the
        exception raised when reading past the last line; with any other
        status it is the exception raised by `await response.aread()`
        while reading the error body, and the lines are not read. */
    | Response(status: nat, lines: seq<string>, end: Option<Failure>)

  // ---------------------------------------------------------------------
  // What json.loads makes of a payload, reduced to what the relay inspects
  // ---------------------------------------------------------------------

  /** A decoded payload. A "choices" member that is not an array behaves as
      one of the sequences below does: empty when len() is 0, otherwise as
      a sequence whose first element is a NonObjectChoice (indexing or .get
      raises). */
  datatype Json =
    /** json.loads raised JSONDecodeError. */
    | Undecodable
    /** A JSON object, with its "choices" member when it has one. */
    | Object(choices: Option<seq<Choice>>)
    /** Any other JSON value. For numbers, booleans and null the test
        `"choices" in parsed` raises TypeError; for an array or string that
        holds "choices" the lookup parsed["choices"] raises; otherwise the
        value has no choices. */
    | NonObject(lookupRaises: bool)

  datatype Choice =
    /** An object, with its "delta" member when it has one. */
    | ChoiceObject(delta: Option<Delta>)
    /** Anything else: .get raises AttributeError. */
    | NonObjectChoice

  datatype Delta =
    /** An object; content is its "content" member, None when that is
        absent or null. */
    | DeltaObject(content: Option<string>)
    /** Anything else, null included: .get raises AttributeError. */
    | NonObjectDelta

  // ---------------------------------------------------------------------
  // Downstream events and their wire form
  // ---------------------------------------------------------------------

  datatype Event = Content(text: string) | Error(message: string)

  const TimeoutMessage := "Request timeout. Please try again."
  const NetworkMessage := "Network error. Please check your connection."
  const UnexpectedMessage := "An unexpected error occurred. Please try again."
  const ApiErrorPrefix := "API Error: "

  /** The message of the error frame each exception handler yields. */
  function FailureMessage(f: Failure): string
  {
    match f
    case Timeout => TimeoutMessage
    case RequestError => NetworkMessage
    case Unexpected => UnexpectedMessage
  }

  /** The message for a non-200 upstream status, f'API Error: {status}'. */
  function ApiErrorMessage(status: nat): string
  {
    ApiErrorPrefix + NatToString(status)
  }

  /** The reported status can be read back from the message. */
  lemma ApiErrorMessageNamesStatus(status: nat)
    ensures var m := ApiErrorMessage(status);
      |m| > |ApiErrorPrefix| && m[..|ApiErrorPrefix|] == ApiErrorPrefix &&
      forall i :: |ApiErrorPrefix| <= i < |m| ==> '0' <= m[i] <= '9'
    ensures DigitsValue(ApiErrorMessage(status)[|ApiErrorPrefix|..]) == status
  {
    var m := ApiErrorMessage(status);
    assert m[|ApiErrorPrefix|..] == NatToString(status);
    NatToStringRoundTrip(status);
  }

  const DataPrefix := "data: "
  const ContentKey := "{\"content\": "
  const ErrorKey := "{\"error\": "

  /** json.dumps({"content": c}) or json.dumps({"error": m}). */
  function Payload(e: Event): string
  {
    match e
    case Content(c) => ContentKey + Quote(c) + "}"
    case Error(m) => ErrorKey + Quote(m) + "}"
  }

  /** What the relay yields for one event: "data: " + payload + "\n\n". */
  function Frame(e: Event): string
  {
    DataPrefix + Payload(e) + "\n\n"
  }

  function Frames(es: seq<Event>): (fs: seq<string>)
    ensures |fs| == |es|
  {
    seq(|es|, i requires 0 <= i < |es| => Frame(es[i]))
  }

  lemma FramesAppend(es: seq<Event>, e: Event)
    ensures Frames(es + [e]) == Frames(es) + [Frame(e)]
  {
  }

  /** How a reader of the downstream stream recovers an event from one
      frame: the "data: " line up to the blank line, holding a one-member
      object {"content": ...} or {"error": ...}. */
  function ParseFrame(f: string): Option<Event>
  {
    if |f| >= |DataPrefix| + 2 && f[..|DataPrefix|] == DataPrefix && f[|f| - 2..] == "\n\n"
    then ParsePayload(f[|DataPrefix|..|f| - 2])
    else None
  }

  function ParsePayload(b: string): Option<Event>
  {
    if |b| >= |ContentKey| + 3 && b[..|ContentKey| + 1] == ContentKey + "\"" && b[|b| - 2..] == "\"}" then
      match Unescape(b[|ContentKey| + 1..|b| - 2])
      case Some(c) => Some(Content(c))
      case None => None
    else if |b| >= |ErrorKey| + 3 && b[..|ErrorKey| + 1] == ErrorKey + "\"" && b[|b| - 2..] == "\"}" then
      match Unescape(b[|ErrorKey| + 1..|b| - 2])
      case Some(m) => Some(Error(m))
      case None => None
    else None
  }

  /** The three parts of a + b + c can be cut back out of it. */
  lemma Unframe(a: string, b: string, c: string)
    ensures var s := a + b + c;
      |s| == |a| + |b| + |c| && s[..|a|] == a && s[|a|..|s| - |c|] == b && s[|s| - |c|..] == c
  {
  }

  lemma PayloadIsPrintable(e: Event)
    ensures Printable(Payload(e))
  {
    var s := match e case Content(c) => c case Error(m) => m;
    var key := if e.Content? then ContentKey else ErrorKey;
    assert Printable(key);
    QuoteIsPrintable(s);
    PrintableAppend(key, Quote(s));
    PrintableAppend(key + Quote(s), "}");
    assert Payload(e) == key + Quote(s) + "}";
  }

  lemma PrintableMiddle(a: string, b: string, c: string)
    requires Printable(b)
    ensures var s := a + b + c;
      forall i :: |a| <= i < |s| - |c| ==> s[i] != '\n' && s[i] != '\r'
  {
    var s := a + b + c;
    forall i | |a| <= i < |s| - |c|
      ensures s[i] != '\n' && s[i] != '\r'
    {
      assert s[i] == b[i - |a|];
    }
  }

  /** Every frame is one Server-Sent Event: a single "data: " line (the
      payload holds no line break, since json.dumps escapes them) ended by
      a blank line. */
  lemma FrameIsOneEvent(e: Event)
    ensures var f := Frame(e);
      |f| >= |DataPrefix| + 2 && f[..|DataPrefix|] == DataPrefix && f[|f| - 2..] == "\n\n" &&
      forall i :: |DataPrefix| <= i < |f| - 2 ==> f[i] != '\n' && f[i] != '\r'
  {
    PayloadIsPrintable(e);
    Unframe(DataPrefix, Payload(e), "\n\n");
    PrintableMiddle(DataPrefix, Payload(e), "\n\n");
  }

  lemma ParseObject(key: string, s: string)
    requires |key| >= 3
    ensures var b := key + Quote(s) + "}";
      |b| >= |key| + 3 && b[..|key| + 1] == key + "\"" && b[|b| - 2..] == "\"}" &&
      b[|key| + 1..|b| - 2] == Escape(s) && b[2] == key[2]
  {
    var k, e := key + "\"", Escape(s);
    assert key + Quote(s) + "}" == k + e + "\"}";
    Unframe(k, e, "\"}");
  }

  lemma ParsePayloadRoundTrip(e: Event)
    ensures ParsePayload(Payload(e)) == Some(e)
  {
    match e
    case Content(c) =>
      ParseObject(ContentKey, c);
      UnescapeEscape(c);
    case Error(m) =>
      var b := Payload(e);
      ParseObject(ErrorKey, m);
      UnescapeEscape(m);
      assert b[..|ContentKey| + 1][2] != (ContentKey + "\"")[2];
  }

  /** A reader gets back exactly the event the relay framed. */
  lemma ParseFrameRoundTrip(e: Event)
    ensures ParseFrame(Frame(e)) == Some(e)
  {
    Unframe(DataPrefix, Payload(e), "\n\n");
    ParsePayloadRoundTrip(e);
  }

  // ---------------------------------------------------------------------
  // The specification: what each line leads to, and the relayed events
  // ---------------------------------------------------------------------

  const DoneSentinel := "[DONE]"

  /** A payload that strips (Python's str.strip()) to the [DONE] sentinel. */
  predicate IsDoneMarker(data: string)
  {
    Trim(data, IsPySpace) == DoneSentinel
  }

  /** The effect of one upstream line. */
  datatype Step = Skip | Emit(content: string) | Stop | Raise

  /** The effect of a decoded payload:
      `if "choices" in parsed and len(parsed["choices"]) > 0`, then
      `parsed["choices"][0].get("delta", {}).get("content", "")`, emitted
      when non-empty; a lookup that raises ends the stream. */
  function PayloadStep(j: Json): (r: Step)
    ensures r.Emit? ==> r.content != ""
  {
    match j
    case Undecodable => Skip
    case NonObject(raises) => if raises then Raise else Skip
    case Object(None) => Skip
    case Object(Some(cs)) =>
      if |cs| == 0 then Skip
      else match cs[0]
        case NonObjectChoice => Raise
        case ChoiceObject(None) => Skip
        case ChoiceObject(Some(NonObjectDelta)) => Raise
        case ChoiceObject(Some(DeltaObject(c))) =>
          if c.Some? && c.value != "" then Emit(c.value) else Skip
  }

  /** The effect of one upstream line: only "data: " lines count, and a
      payload that strips to [DONE] ends the relay. */
  function Classify(line: string, decode: string -> Json): (r: Step)
    ensures !(DataPrefix <= line) ==> r == Skip
    ensures r.Emit? ==> r.content != ""
  {
    if !(DataPrefix <= line) then Skip
    else
      var data := line[|DataPrefix|..];
      if IsDoneMarker(data) then Stop else PayloadStep(decode(data))
  }

  /** The effect of each of the lines, in order. */
  function Steps(lines: seq<string>, decode: string -> Json): (steps: seq<Step>)
    ensures |steps| == |lines|
    ensures forall i :: 0 <= i < |lines| ==> steps[i] == Classify(lines[i], decode)
  {
    seq(|lines|, i requires 0 <= i < |lines| => Classify(lines[i], decode))
  }

  lemma StepsAppend(a: seq<string>, b: seq<string>, decode: string -> Json)
    ensures Steps(a + b, decode) == Steps(a, decode) + Steps(b, decode)
  {
    var l, r := Steps(a + b, decode), Steps(a, decode) + Steps(b, decode);
    forall i | 0 <= i < |a + b|
      ensures l[i] == r[i]
    {
      if i < |a| {
        assert (a + b)[i] == a[i];
      } else {
        assert (a + b)[i] == b[i - |a|];
      }
    }
  }

  /** How the loop over the lines ended. */
  datatype Termination = Exhausted | SawDone | Raised

  datatype Relayed = Relayed(events: seq<Event>, how: Termination)

  /** The loop of generate_stream over the effects of the lines of a 200
      response: the events it relays, and how it ended. */
  function RelaySteps(steps: seq<Step>): Relayed
  {
    if steps == [] then Relayed([], Exhausted)
    else
      match steps[0]
      case Skip => RelaySteps(steps[1..])
      case Emit(c) =>
        var r := RelaySteps(steps[1..]);
        Relayed([Content(c)] + r.events, r.how)
      case Stop => Relayed([], SawDone)
      case Raise => Relayed([Error(UnexpectedMessage)], Raised)
  }

  /** The same loop over the lines themselves. */
  function RelayLines(lines: seq<string>, decode: string -> Json): Relayed
  {
    RelaySteps(Steps(lines, decode))
  }

  /** Everything generate_stream yields for an upstream response, as events. */
  function StreamEvents(up: Upstream, decode: string -> Json): seq<Event>
  {
    match up
    case Unreachable(f) => [Error(FailureMessage(f))]
    case Response(status, lines, end) =>
      if status != 200 then
        if end.Some? then [Error(FailureMessage(end.value))] else [Error(ApiErrorMessage(status))]
      else
        var r := RelayLines(lines, decode);
        r.events + (if r.how == Exhausted && end.Some? then [Error(FailureMessage(end.value))] else [])
  }

  // ---------------------------------------------------------------------
  // The route handler and the relay loop
  // ---------------------------------------------------------------------

  /** The guard of translate_to_python: a prompt that strips to nothing. */
  predicate PromptIsBlank(prompt: string)
  {
    Trim(prompt, IsPySpace) == []
  }

  datatype Reply =
    /** HTTPException(status_code, detail). */
    | Rejected(status: nat, detail: string)
    /** A text/event-stream response with these frames. */
    | Streamed(frames: seq<string>)

  /** translate_to_python: reject a blank prompt with 400 before anything
      is sent upstream, otherwise stream what generate_stream yields. */
  method TranslateToPython(prompt: string, up: Upstream, decode: string -> Json) returns (reply: Reply)
    ensures reply.Rejected? <==> AllSpace(prompt, IsPySpace)
    ensures reply.Rejected? ==> reply == Rejected(400, "Prompt is required")
    ensures reply.Streamed? ==> reply.frames == Frames(StreamEvents(up, decode))
  {
    TrimEmptyIff(prompt, IsPySpace);
    if PromptIsBlank(prompt) {
      return Rejected(400, "Prompt is required");
    }
    var frames := GenerateStream(up, decode);
    reply := Streamed(frames);
  }

  /** The method form of PayloadStep: the body of the try block for one
      decoded payload, as statements. It reports whether a lookup raises,
      and the content to emit ("" for none). */
  method InspectPayload(parsed: Json) returns (raises: bool, content: string)
    requires !parsed.Undecodable?
    ensures raises <==> PayloadStep(parsed).Raise?
    ensures !raises ==> (PayloadStep(parsed).Emit? <==> content != "")
    ensures PayloadStep(parsed).Emit? ==> content == PayloadStep(parsed).content
  {
    raises, content := false, "";
    match parsed {
      case NonObject(lookupRaises) =>
        raises := lookupRaises;
      case Object(choices) =>
        if choices.Some? && |choices.value| > 0 {
          match choices.value[0] {
            case NonObjectChoice =>
              raises := true;
            case ChoiceObject(delta) =>
              if delta.Some? {
                match delta.value {
                  case NonObjectDelta =>
                    raises := true;
                  case DeltaObject(c) =>
                    content := if c.Some? then c.value else "";
                }
              }
          }
        }
    }
  }

  /** generate_stream: yields one frame per relayed event. */
  method GenerateStream(up: Upstream, decode: string -> Json) returns (out: seq<string>)
    ensures out == Frames(StreamEvents(up, decode))
  {
    if up.Unreachable? {
      return [Frame(Error(FailureMessage(up.failure)))];
    }
    if up.status != 200 {
      if up.end.Some? {
        // the exception raised while reading the error body
        return [Frame(Error(FailureMessage(up.end.value)))];
      }
      return [Frame(Error(ApiErrorMessage(up.status)))];
    }
    var how;
    out, how := RelayLoop(up.lines, decode);
    if how == Exhausted && up.end.Some? {
      // the exception raised when reading past the last line
      var e := Error(FailureMessage(up.end.value));
      FramesAppend(RelayLines(up.lines, decode).events, e);
      out := out + [Frame(e)];
    }
  }

  /** The method form of Classify: the body of the loop over the upstream
      lines for one line, as statements. Lines without the "data: " prefix
      are ignored, the [DONE] sentinel (after stripping) ends the loop,
      undecodable JSON is skipped, a lookup that raises goes to the
      exception handler, and non-empty content is yielded. */
  method ReadLine(line: string, decode: string -> Json) returns (step: Step)
    ensures step == Classify(line, decode)
  {
    step := Skip;
    if DataPrefix <= line {
      var data := line[|DataPrefix|..];
      if IsDoneMarker(data) {
        return Stop;
      }
      var parsed := decode(data);
      if parsed.Undecodable? {
        return Skip;
      }
      var raises, content := InspectPayload(parsed);
      if raises {
        step := Raise;
      } else if content != "" {
        step := Emit(content);
      }
    }
  }

  /** The `async for line in response.aiter_lines()` loop of generate_stream,
      with the `except Exception` handler for a lookup that raises. */
  method RelayLoop(lines: seq<string>, decode: string -> Json) returns (out: seq<string>, how: Termination)
    ensures out == Frames(RelayLines(lines, decode).events)
    ensures how == RelayLines(lines, decode).how
  {
    ghost var steps := Steps(lines, decode);
    out := [];
    ghost var emitted: seq<Event> := [];
    var i := 0;
    while i < |lines|
      invariant 0 <= i <= |lines|
      invariant out == Frames(emitted)
      invariant RelaySteps(steps) ==
        Relayed(emitted + RelaySteps(steps[i..]).events, RelaySteps(steps[i..]).how)
    {
      var step := ReadLine(lines[i], decode);
      assert steps[i..][0] == step;
      assert steps[i..][1..] == steps[i + 1..];
      ghost var rest := RelaySteps(steps[i + 1..]);
      i := i + 1;
      match step {
        case Stop =>
          return out, SawDone;
        case Raise =>
          var e := Error(UnexpectedMessage);
          FramesAppend(emitted, e);
          return out + [Frame(e)], Raised;
        case Emit(content) =>
          var e := Content(content);
          FramesAppend(emitted, e);
          assert emitted + [e] + rest.events == emitted + ([e] + rest.events);
          emitted := emitted + [e];
          out := out + [Frame(e)];
        case Skip =>
      }
    }
    assert steps[i..] == [];
    how := Exhausted;
  }

  // ---------------------------------------------------------------------
  // Properties of the relay
  // ---------------------------------------------------------------------

  /** A line that leads to Skip can be removed without changing anything. */
  lemma {:induction false} SkipIgnored(pre: seq<Step>, post: seq<Step>)
    ensures RelaySteps(pre + [Skip] + post) == RelaySteps(pre + post)
  {
    if pre == [] {
      assert ([Skip] + post)[1..] == post;
      assert pre + [Skip] + post == [Skip] + post;
      assert pre + post == post;
    } else {
      SkipIgnored(pre[1..], post);
      assert (pre + [Skip] + post)[1..] == pre[1..] + [Skip] + post;
      assert (pre + post)[1..] == pre[1..] + post;
    }
  }

  lemma SkippedLineIgnored(pre: seq<string>, line: string, post: seq<string>, decode: string -> Json)
    requires Classify(line, decode) == Skip
    ensures RelayLines(pre + [line] + post, decode) == RelayLines(pre + post, decode)
  {
    StepsAppend(pre + [line], post, decode);
    StepsAppend(pre, [line], decode);
    StepsAppend(pre, post, decode);
    assert Steps([line], decode) == [Skip];
    SkipIgnored(Steps(pre, decode), Steps(post, decode));
  }

  /** Comments, "event:" and "id:" fields, blank keep-alive lines and any
      other line without the exact "data: " prefix are ignored. */
  lemma NonDataLineIgnored(pre: seq<string>, line: string, post: seq<string>, decode: string -> Json)
    requires !(DataPrefix <= line)
    ensures RelayLines(pre + [line] + post, decode) == RelayLines(pre + post, decode)
  {
    SkippedLineIgnored(pre, line, post, decode);
  }

  /** A payload json.loads rejects is skipped (the JSONDecodeError handler). */
  lemma UndecodableLineIgnored(pre: seq<string>, line: string, post: seq<string>, decode: string -> Json)
    requires DataPrefix <= line && !IsDoneMarker(line[|DataPrefix|..])
    requires decode(line[|DataPrefix|..]).Undecodable?
    ensures RelayLines(pre + [line] + post, decode) == RelayLines(pre + post, decode)
  {
    SkippedLineIgnored(pre, line, post, decode);
  }

  /** Whatever follows a [DONE] line is never looked at. */
  lemma {:induction false} DoneStopsRelay(pre: seq<Step>, post1: seq<Step>, post2: seq<Step>)
    ensures RelaySteps(pre + [Stop] + post1) == RelaySteps(pre + [Stop] + post2)
  {
    if pre != [] {
      DoneStopsRelay(pre[1..], post1, post2);
      assert (pre + [Stop] + post1)[1..] == pre[1..] + [Stop] + post1;
      assert (pre + [Stop] + post2)[1..] == pre[1..] + [Stop] + post2;
    }
  }

  /** Lines after a data line whose payload strips to [DONE] are never read. */
  lemma LinesAfterDoneIgnored(pre: seq<string>, line: string, post1: seq<string>, post2: seq<string>,
                              decode: string -> Json)
    requires DataPrefix <= line && IsDoneMarker(line[|DataPrefix|..])
    ensures RelayLines(pre + [line] + post1, decode) == RelayLines(pre + [line] + post2, decode)
  {
    StepsAppend(pre + [line], post1, decode);
    StepsAppend(pre + [line], post2, decode);
    StepsAppend(pre, [line], decode);
    assert Steps([line], decode) == [Stop];
    DoneStopsRelay(Steps(pre, decode), Steps(post1, decode), Steps(post2, decode));
  }

  /** The index of the first step that ends the relay ([DONE] or a lookup
      that raises), or the number of steps when there is none. */
  function FirstHalt(steps: seq<Step>): (k: nat)
    ensures k <= |steps|
    ensures forall j :: 0 <= j < k ==> steps[j].Skip? || steps[j].Emit?
    ensures k < |steps| ==> steps[k].Stop? || steps[k].Raise?
  {
    if steps == [] || steps[0].Stop? || steps[0].Raise? then 0
    else
      var k := FirstHalt(steps[1..]);
      assert forall j :: 1 <= j < k + 1 ==> steps[j] == steps[1..][j - 1];
      k + 1
  }

  /** The contents the given steps carry, in order: an independent
      description of what the relay should forward. */
  function Contents(steps: seq<Step>): seq<Event>
  {
    if steps == [] then []
    else if steps[0].Emit? then [Content(steps[0].content)] + Contents(steps[1..])
    else Contents(steps[1..])
  }

  /** The relay forwards the contents of the steps before the first halt, in
      their order, followed by one error when that halt was a lookup that
      raised; it reports [DONE], a raised lookup or the end of the lines. */
  lemma {:induction false} RelayOrder(steps: seq<Step>)
    ensures var k := FirstHalt(steps);
      var r := RelaySteps(steps);
      var raised := k < |steps| && steps[k].Raise?;
      r.events == Contents(steps[..k]) + (if raised then [Error(UnexpectedMessage)] else []) &&
      r.how == (if k == |steps| then Exhausted else if raised then Raised else SawDone)
  {
    var k := FirstHalt(steps);
    if steps != [] && !steps[0].Stop? && !steps[0].Raise? {
      RelayOrder(steps[1..]);
      assert steps[..k][1..] == steps[1..][..k - 1];
      assert steps[..k][0] == steps[0];
      if k < |steps| {
        assert steps[1..][k - 1] == steps[k];
      }
    } else {
      assert steps[..k] == [];
    }
  }

  /** The contents of non-empty emitting steps are non-empty. */
  lemma {:induction false} ContentsNonEmpty(steps: seq<Step>)
    requires forall j :: 0 <= j < |steps| && steps[j].Emit? ==> steps[j].content != ""
    ensures forall e :: e in Contents(steps) ==> e.Content? && e.text != ""
  {
    if steps != [] {
      assert forall j :: 0 <= j < |steps| - 1 ==> steps[1..][j] == steps[j + 1];
      ContentsNonEmpty(steps[1..]);
    }
  }

  /** Content events, each non-empty, then at most one error event, last. */
  predicate ErrorLast(es: seq<Event>)
  {
    forall i :: 0 <= i < |es| ==> (es[i].Content? ==> es[i].text != "") && (es[i].Error? ==> i == |es| - 1)
  }

  lemma ErrorLastAppend(cs: seq<Event>, tail: seq<Event>)
    requires forall e :: e in cs ==> e.Content? && e.text != ""
    requires |tail| <= 1 && forall e :: e in tail ==> e.Error?
    ensures ErrorLast(cs + tail)
  {
    var es := cs + tail;
    forall i | 0 <= i < |es|
      ensures (es[i].Content? ==> es[i].text != "") && (es[i].Error? ==> i == |es| - 1)
    {
      if i < |cs| {
        assert es[i] in cs;
      } else {
        assert es[i] in tail;
      }
    }
  }

  /** What generate_stream yields is content events, each non-empty, with at
      most one error event, and that one last: the stream ends right after
      reporting an error. */
  lemma ErrorOnlyLast(up: Upstream, decode: string -> Json)
    ensures ErrorLast(StreamEvents(up, decode))
  {
    if up.Response? && up.status == 200 {
      var steps := Steps(up.lines, decode);
      var k := FirstHalt(steps);
      RelayOrder(steps);
      ContentsNonEmpty(steps[..k]);
      var r := RelaySteps(steps);
      var raised := k < |steps| && steps[k].Raise?;
      var tail := if raised then [Error(UnexpectedMessage)]
        else if r.how == Exhausted && up.end.Some? then [Error(FailureMessage(up.end.value))]
        else [];
      assert StreamEvents(up, decode) == Contents(steps[..k]) + tail;
      ErrorLastAppend(Contents(steps[..k]), tail);
    }
  }

  /** When the upstream request fails or answers with a status other than
      200, the browser receives exactly one error event and nothing else;
      without a read failure its message names the status. */
  lemma FailedUpstreamSingleError(up: Upstream, decode: string -> Json)
    requires up.Unreachable? || up.status != 200
    ensures var es := StreamEvents(up, decode);
      |es| == 1 && es[0].Error? &&
      (up.Response? && up.end.None? ==>
        es[0].message[..|ApiErrorPrefix|] == ApiErrorPrefix &&
        DigitsValue(es[0].message[|ApiErrorPrefix|..]) == up.status)
  {
    if up.Response? {
      ApiErrorMessageNamesStatus(up.status);
    }
  }

  /** Reading the frames of a response back gives its events, one frame each. */
  lemma FramesParseBack(es: seq<Event>)
    ensures forall i :: 0 <= i < |es| ==> ParseFrame(Frames(es)[i]) == Some(es[i])
  {
    forall i | 0 <= i < |es|
      ensures ParseFrame(Frames(es)[i]) == Some(es[i])
    {
      ParseFrameRoundTrip(es[i]);
    }
  }
}
