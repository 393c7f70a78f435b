/**
 * The front end's translator component (frontend/src/components/PythonTranslator.js):
 * it answers a request with canned code, the entry of the mock table whose
 * trigger appears in the request or else a template built around it, and
 * runs a loop meant to stream that code into the output panel one prefix at a
 * time.
 *
 * The component's React state becomes the fields of a class and each state
 * setter an assignment; an `await` is an ordinary step. The mock table's
 * triggers are fixed here, its code strings are handed to the constructor.
 */
module Translator {
  import opened Wrappers
  import opened Text

  // ---------------------------------------------------------------------
  // The mock table and the trigger lookup
  // ---------------------------------------------------------------------

  /** One entry of mockTranslations: a trigger phrase and its canned code. */
  datatype MockTranslation = MockTranslation(trigger: string, code: string)

  /** The triggers of mockTranslations, in table order (frontend/src/mock/mockData.js). */
  const MockTriggers: seq<string> := [
    "sort list dictionaries",
    "second largest number",
    "calculator class",
    "csv to json",
    "palindrome",
    "execution time decorator",
    "merge sorted lists",
    "web scraper"
  ]

  function Triggers(table: seq<MockTranslation>): (ts: seq<string>)
    ensures |ts| == |table|
    ensures forall k :: 0 <= k < |table| ==> ts[k] == table[k].trigger
  {
    seq(|table|, k requires 0 <= k < |table| => table[k].trigger)
  }

  /** The table with the given code strings under the fixed triggers. */
  function MockTable(codes: seq<string>): (table: seq<MockTranslation>)
    requires |codes| == |MockTriggers|
    ensures Triggers(table) == MockTriggers
    ensures forall k :: 0 <= k < |table| ==> table[k].code == codes[k]
  {
    seq(|codes|, k requires 0 <= k < |codes| => MockTranslation(MockTriggers[k], codes[k]))
  }

  /** The test handed to Array.find:
      input.toLowerCase().includes(mock.trigger.toLowerCase()). */
  predicate Matches(input: string, trigger: string)
  {
    Contains(Lower(input), Lower(trigger))
  }

  /** The position of the first trigger, in table order, that matches the
      input, or None when none does: what Array.find settles on. */
  function FirstMatch(triggers: seq<string>, input: string): (r: Option<nat>)
    ensures r.Some? ==> r.value < |triggers| && Matches(input, triggers[r.value])
    ensures r.Some? ==> forall j :: 0 <= j < r.value ==> !Matches(input, triggers[j])
    ensures r.None? ==> forall j :: 0 <= j < |triggers| ==> !Matches(input, triggers[j])
  {
    if triggers == [] then None
    else if Matches(input, triggers[0]) then Some(0)
    else
      match FirstMatch(triggers[1..], input)
      case None => None
      case Some(k) => Some(k + 1)
  }

  /** The first match is determined by which triggers match: a trigger that
      matches after none before it did is the one chosen. */
  lemma FirstMatchIs(triggers: seq<string>, input: string, k: nat)
    requires k < |triggers| && Matches(input, triggers[k])
    requires forall j :: 0 <= j < k ==> !Matches(input, triggers[j])
    ensures FirstMatch(triggers, input) == Some(k)
  {
  }

  /** mockTranslations.find(...): the first entry whose trigger matches. */
  function FindMock(table: seq<MockTranslation>, input: string): Option<MockTranslation>
  {
    match FirstMatch(Triggers(table), input)
    case None => None
    case Some(k) => Some(table[k])
  }

  // ---------------------------------------------------------------------
  // The fallback template
  // ---------------------------------------------------------------------

  const FallbackHeader := "# Generated Python code for: "
  const FallbackMiddle := "\ndef solution():\n    \"\"\"\n    "
  const FallbackTail := "\n    \"\"\"\n" + "    # Implementation would go here\n" + "    pass\n\n" + "# Example usage:\n# solution()"

  /** The code written when no trigger matches: a stub whose comment line
      and docstring both hold the untrimmed input. */
  function FallbackCode(input: string): string
  {
    FallbackHeader + input + FallbackMiddle + input + FallbackTail
  }

  /** Reads the request back out of a stub laid out as header, request,
      middle, request, tail: None when the text is not laid out that way,
      with the same request in both places. */
  function ReadStub(code: string, header: string, middle: string, tail: string): (r: Option<string>)
    ensures r.Some? ==> |r.value| <= |code|
  {
    var fixed := |header| + |middle| + |tail|;
    if |code| < fixed || (|code| - fixed) % 2 != 0 then None
    else
      var n := (|code| - fixed) / 2;
      var h, m := |header|, |middle|;
      if code[..h] == header && code[h + n..h + n + m] == middle &&
         code[h + n + m..h + 2 * n + m] == code[h..h + n] && code[h + 2 * n + m..] == tail
      then Some(code[h..h + n])
      else None
  }

  /** Reads the request back out of a fallback stub. */
  function FallbackPrompt(code: string): Option<string>
  {
    ReadStub(code, FallbackHeader, FallbackMiddle, FallbackTail)
  }

  /** Where each part of a stub sits. */
  lemma StubLayout(header: string, middle: string, tail: string, input: string)
    ensures var code, h, n, m := header + input + middle + input + tail, |header|, |input|, |middle|;
      |code| == h + 2 * n + m + |tail| &&
      code[..h] == header && code[h..h + n] == input &&
      code[h + n..h + n + m] == middle && code[h + n + m..h + 2 * n + m] == input &&
      code[h + 2 * n + m..] == tail
  {
    var h := |header|;
    var a := header + input;
    var b := a + middle;
    var c := b + input;
    var code := c + tail;
    assert code[..|c|] == c && code[|c|..] == tail;
    assert c[..|b|] == b && c[|b|..] == input;
    assert b[..|a|] == a && b[|a|..] == middle;
    assert a[..h] == header && a[h..] == input;
  }

  lemma ReadStubRoundTrip(header: string, middle: string, tail: string, input: string)
    ensures ReadStub(header + input + middle + input + tail, header, middle, tail) == Some(input)
  {
    var code := header + input + middle + input + tail;
    StubLayout(header, middle, tail, input);
    assert (|code| - (|header| + |middle| + |tail|)) / 2 == |input|;
  }

  lemma StubShowsRequest(header: string, middle: string, tail: string, input: string)
    ensures var code := header + input + middle + input + tail;
      code[..|header| + |input|] == header + input &&
      OccursAt(code, middle + input, |header| + |input|)
  {
    var code, h, n, m := header + input + middle + input + tail, |header|, |input|, |middle|;
    StubLayout(header, middle, tail, input);
    assert code[..h + n] == code[..h] + code[h..h + n];
    assert code[h + n..h + n + m + n] == code[h + n..h + n + m] + code[h + n + m..h + 2 * n + m];
  }

  /** The request can be read back from its fallback stub. */
  lemma FallbackPromptRoundTrip(input: string)
    ensures FallbackPrompt(FallbackCode(input)) == Some(input)
  {
    ReadStubRoundTrip(FallbackHeader, FallbackMiddle, FallbackTail, input);
  }

  /** The stub's first line is the header followed by the request as typed
      (untrimmed), and the request is repeated right after the opening of
      the docstring. */
  lemma FallbackShowsRequest(input: string)
    ensures var code := FallbackCode(input);
      code[..|FallbackHeader| + |input|] == FallbackHeader + input &&
      OccursAt(code, FallbackMiddle + input, |FallbackHeader| + |input|)
  {
    StubShowsRequest(FallbackHeader, FallbackMiddle, FallbackTail, input);
  }

  /** The code handleTranslate passes to simulateStreaming: the matching
      mock's code, else the stub. */
  function TranslatedCode(table: seq<MockTranslation>, input: string): string
  {
    match FindMock(table, input)
    case Some(mock) => mock.code
    case None => FallbackCode(input)
  }

  /** What handleTranslate chooses: with a matching trigger, the code of the
      first entry whose trigger matches; otherwise the stub for the input. */
  lemma TranslatedCodeChoice(table: seq<MockTranslation>, input: string)
    ensures var r := FirstMatch(Triggers(table), input);
      (r.Some? ==> TranslatedCode(table, input) == table[r.value].code &&
                   Matches(input, table[r.value].trigger) &&
                   forall j :: 0 <= j < r.value ==> !Matches(input, table[j].trigger)) &&
      (r.None? ==> TranslatedCode(table, input) == FallbackCode(input) &&
                   forall j :: 0 <= j < |table| ==> !Matches(input, table[j].trigger))
  {
  }

  // ---------------------------------------------------------------------
  // The component
  // ---------------------------------------------------------------------

  /** The toast the component can show from the modelled code. */
  datatype Toast = InputRequired

  /** A call of one of the output panel's state setters. */
  datatype StateUpdate = SetOutput(text: string) | SetIsStreaming(flag: bool)

  /** The setOutput(text.slice(0, i)) calls of the first n rounds of the loop. */
  function PrefixWrites(text: string, n: nat): (ws: seq<StateUpdate>)
    requires n <= |text| + 1
    ensures |ws| == n
  {
    seq(n, i requires 0 <= i < n => SetOutput(text[..i]))
  }

  /** The setter calls of simulateStreaming(text): clear the output, raise
      the flag, write every prefix while streamingRef.current is set, lower
      the flag. */
  function StreamingUpdates(text: string, refSet: bool): seq<StateUpdate>
  {
    [SetOutput(""), SetIsStreaming(true)] +
    (if refSet then PrefixWrites(text, |text| + 1) else []) +
    [SetIsStreaming(false)]
  }

  /** Every value written to output is a prefix of the text, the writes grow
      one character at a time, and the last one is the whole text. */
  lemma {:induction false} StreamingWritesArePrefixes(text: string, refSet: bool)
    ensures var us := StreamingUpdates(text, refSet);
      (forall k :: 0 <= k < |us| && us[k].SetOutput? ==> us[k].text <= text) &&
      (refSet ==> forall k :: 2 <= k < |us| - 1 ==> us[k] == SetOutput(text[..k - 2])) &&
      (refSet ==> us[|us| - 2] == SetOutput(text))
  {
    var us := StreamingUpdates(text, refSet);
    var ws := if refSet then PrefixWrites(text, |text| + 1) else [];
    assert us == [SetOutput(""), SetIsStreaming(true)] + ws + [SetIsStreaming(false)];
    forall k | 0 <= k < |us| && us[k].SetOutput?
      ensures us[k].text <= text
    {
      if 2 <= k < |us| - 1 {
        assert us[k] == ws[k - 2];
      }
    }
    if refSet {
      assert us[|us| - 2] == ws[|text|];
      assert text[..|text|] == text;
    }
  }

  /** With streamingRef.current never set, the only value written to output
      is "": the loop breaks before its first write. */
  lemma StreamingWithoutRefWritesNothing(text: string)
    ensures var us := StreamingUpdates(text, false);
      us == [SetOutput(""), SetIsStreaming(true), SetIsStreaming(false)] &&
      forall k :: 0 <= k < |us| && us[k].SetOutput? ==> us[k].text == ""
  {
  }

  /** The PythonTranslator component: its useState fields, the useRef
      streamingRef (created null and never assigned) and the toasts shown. */
  class PythonTranslator {
    var input: string
    var output: string
    var isStreaming: bool
    var currentExample: string
    /** Whether streamingRef.current is truthy. */
    var streamingRefCurrent: bool
    var toasts: seq<Toast>
    /** The calls of setOutput and setIsStreaming made so far, in order. */
    ghost var updates: seq<StateUpdate>
    const mockTranslations: seq<MockTranslation>

    /** The component's first render: empty strings, false, a null ref. */
    constructor (codes: seq<string>)
      requires |codes| == |MockTriggers|
      ensures input == "" && output == "" && !isStreaming && currentExample == ""
      ensures !streamingRefCurrent && toasts == [] && updates == []
      ensures mockTranslations == MockTable(codes)
    {
      input, output, isStreaming, currentExample := "", "", false, "";
      streamingRefCurrent := false;
      toasts := [];
      updates := [];
      mockTranslations := MockTable(codes);
    }

    /** simulateStreaming(text). */
    method SimulateStreaming(text: string)
      modifies this`output, this`isStreaming, this`updates
      ensures updates == old(updates) + StreamingUpdates(text, streamingRefCurrent)
      ensures output == (if streamingRefCurrent then text else "")
      ensures !isStreaming
    {
      output := "";
      updates := updates + [SetOutput("")];
      isStreaming := true;
      updates := updates + [SetIsStreaming(true)];
      ghost var before := updates;
      var i := 0;
      while i <= |text|
        invariant 0 <= i <= |text| + 1
        invariant !streamingRefCurrent ==> i == 0
        invariant updates == before + PrefixWrites(text, i)
        invariant output == if i == 0 then "" else text[..i - 1]
      {
        if !streamingRefCurrent {
          break;
        }
        // the 20 ms pause before each write is timing and is not modelled
        output := text[..i];
        updates := updates + [SetOutput(text[..i])];
        assert PrefixWrites(text, i + 1) == PrefixWrites(text, i) + [SetOutput(text[..i])];
        i := i + 1;
      }
      assert streamingRefCurrent ==> text[..|text|] == text;
      isStreaming := false;
      updates := updates + [SetIsStreaming(false)];
    }

    /** handleTranslate(). */
    method HandleTranslate()
      modifies this`output, this`isStreaming, this`updates, this`toasts
      ensures AllSpace(input, IsJsSpace) ==>
        toasts == old(toasts) + [InputRequired] &&
        output == old(output) && isStreaming == old(isStreaming) && updates == old(updates)
      ensures !AllSpace(input, IsJsSpace) ==>
        var code := TranslatedCode(mockTranslations, input);
        toasts == old(toasts) &&
        updates == old(updates) + StreamingUpdates(code, streamingRefCurrent) &&
        output == (if streamingRefCurrent then code else "") && !isStreaming
    {
      TrimEmptyIff(input, IsJsSpace);
      if Trim(input, IsJsSpace) == [] {
        toasts := toasts + [InputRequired];
        return;
      }
      var mockTranslation := FindMock(mockTranslations, input);
      var translatedCode := if mockTranslation.Some? then mockTranslation.value.code else FallbackCode(input);
      assert translatedCode == TranslatedCode(mockTranslations, input);
      SimulateStreaming(translatedCode);
    }

    /** handleStop(). */
    method HandleStop()
      modifies this`isStreaming, this`updates
      ensures !isStreaming && updates == old(updates) + [SetIsStreaming(false)]
    {
      isStreaming := false;
      updates := updates + [SetIsStreaming(false)];
    }

    /** useExample(example). */
    method UseExample(example: string)
      modifies this`input, this`currentExample
      ensures input == example && currentExample == example
    {
      input := example;
      currentExample := example;
    }
  }
}
