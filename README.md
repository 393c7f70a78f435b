# English-to-Python translator: canned translation and stream relay

This project models the two pieces of sequential logic in a small
"describe it in English, get Python code" web application, and proves
properties about them.

**The front end's translator component.** This is `PythonTranslator`, a React component.
- Given a request, it rejects a blank one with an "Input Required" toast.
- Otherwise it picks the code of the first entry of its mock table whose trigger phrase occurs in the request, ignoring ASCII case. When no trigger occurs, it builds a stub that quotes the request.
- It then runs a loop meant to stream that code into its output panel one prefix at a time.
- The component's `useState` fields become the fields of the class `Translator.PythonTranslator`.
- `handleTranslate`, `simulateStreaming`, `handleStop` and `useExample` become its methods.
- Each setter call is recorded as a `StateUpdate`.
- The component's `streamingRef` is created as `null` and never assigned. The streaming loop therefore breaks before its first write, and `output` stays `""`. The model keeps this behaviour: the field `streamingRefCurrent` starts `false` and nothing sets it.
- The trigger lookup (`Array.find` with a lower-cased `includes`) and the fallback template are pure functions.
- The module `Examples` works out which of the eight example prompts pick a canned translation. Only the second, fifth and eighth do.

**The back end's `/api/translate` route.** This is `translate_to_python` in FastAPI.
- It rejects a prompt that strips to nothing with status 400.
- Otherwise `generate_stream` relays an upstream chat-completion event stream to the browser:
  - it looks only at lines that begin with exactly `"data: "`;
  - it stops at a payload that strips to `[DONE]`;
  - it skips payloads that are not JSON;
  - it forwards each non-empty `choices[0].delta.content` as a frame `data: {"content": ...}\n\n`;
  - it turns a non-200 status, a timeout, a network error or any other exception raised inside its `try` block (`backend/server.py:116-153`) into one final `data: {"error": ...}\n\n` frame.
- This is a simplified subset of Server-Sent Events (section 9.2 of the WHATWG HTML Living Standard). There is no multi-line `data` accumulation, and `event:` and `id:` fields are ignored.
- The upstream response is an input to the model: its status, its lines, and the exception the HTTP client raises after them, if any.
- `json.loads` is a parameter `decode: string -> Json`. Its result is reduced to what the relay inspects.
- `json.dumps` is modelled exactly for strings of Unicode scalar values, with `ensure_ascii`. The frames the relay writes are proved to parse back to the events they carry.

Modules:
- `Wrappers`: `Option`.
- `Text`: JavaScript `trim` and Python `strip`, each with its own whitespace set; ASCII lower casing; substring search; decimal digits.
- `JsonText`: the `json.dumps` string escaping and its decoding.
- `Relay`: `backend/server.py`.
- `Translator`: `PythonTranslator.js`.
- `Examples`: the example prompts.

The component answers from its mock table. It sends no request to the relay and keeps no history (`frontend/src/components/PythonTranslator.js:44-73`).

## Model

| member | source | states |
|---|---|---|
| Text.IsJsSpace | frontend/src/components/PythonTranslator.js:45 | defines the characters `trim()` removes, ECMA-262's WhiteSpace and LineTerminator: tab to carriage return, space, no-break space, U+1680, U+2000-U+200A, the line and paragraph separators, U+202F, U+205F, U+3000 and the byte order mark |
| Text.IsPySpace | backend/server.py:79 | defines the characters `str.strip()` removes, those for which `str.isspace()` holds: unlike `trim()` it includes U+001C-U+001F and NEL and excludes the byte order mark |
| Text.Trim | frontend/src/components/PythonTranslator.js:45 | defines `trim()` (with IsJsSpace) and `strip()` (with IsPySpace, `backend/server.py:79` and `:133`) as the leading trim followed by the trailing one; TrimEmptyIff and TrimIsInnerSlice state what it yields |
| Text.TrimStartShape | frontend/src/components/PythonTranslator.js:45 | the leading trim leaves a suffix of the text that is empty or starts with a non-space character |
| Text.TrimStartDropsSpace | frontend/src/components/PythonTranslator.js:45 | every character the leading trim removes is space |
| Text.TrimEndShape | frontend/src/components/PythonTranslator.js:45 | the trailing trim leaves a prefix of the text that is empty or ends with a non-space character |
| Text.TrimEndDropsSpace | frontend/src/components/PythonTranslator.js:45 | every character the trailing trim removes is space |
| Text.TrimEmptyIff | frontend/src/components/PythonTranslator.js:45 | `trim()` (and `strip()`) yields the empty string exactly when every character of the text is space; both directions |
| Text.TrimIsInnerSlice | backend/server.py:133 | what `strip()` returns is a contiguous slice of the text that neither starts nor ends with space |
| Text.TrimStart | frontend/src/components/PythonTranslator.js:45 | trimming never lengthens the text |
| Text.TrimEnd | frontend/src/components/PythonTranslator.js:45 | trimming never lengthens the text |
| Text.LowerChar | frontend/src/components/PythonTranslator.js:56 | defines the lower case of one character: A-Z map to a-z, every other character is left alone |
| Text.Lower | frontend/src/components/PythonTranslator.js:56 | `toLowerCase()` is LowerChar applied at every position, so it keeps the length of the text |
| Text.LowerAppend | frontend/src/components/PythonTranslator.js:56 | lower casing distributes over concatenation |
| Text.Contains | frontend/src/components/PythonTranslator.js:56 | defines `includes`: the pattern is a prefix of the text or of one of its suffixes; ContainsIff proves this is the same as an occurrence at some index |
| Text.OccursContains | frontend/src/components/PythonTranslator.js:56 | an occurrence of the pattern at any index is found by `includes` |
| Text.ContainsOccurs | frontend/src/components/PythonTranslator.js:56 | when `includes` holds, the pattern occurs at some index |
| Text.ContainsIff | frontend/src/components/PythonTranslator.js:56 | `includes` holds exactly when the pattern occurs at some index; both directions |
| Text.ContainsEnd | frontend/src/components/PythonTranslator.js:56 | a text that ends with the pattern includes it |
| Text.ContainsExtend | frontend/src/components/PythonTranslator.js:56 | appending text keeps every occurrence |
| Text.ContainsChar | frontend/src/components/PythonTranslator.js:56 | every character of an included pattern occurs in the text |
| Text.MissingChar | frontend/src/components/PythonTranslator.js:56 | a pattern with a character the text lacks is not included |
| Text.ContainsTrigram | frontend/src/components/PythonTranslator.js:56 | every three adjacent characters of an included pattern stand together in the text |
| Text.MissingTrigram | frontend/src/components/PythonTranslator.js:56 | a pattern with three adjacent characters that never stand together in the text is not included |
| Text.LacksTrigramAppend | frontend/src/components/PythonTranslator.js:56 | two texts lacking a trigram still lack it when joined, unless the trigram straddles the join |
| Text.LacksTrigramExtend | frontend/src/components/PythonTranslator.js:56 | the same for a text built piece by piece |
| Text.NatToString | backend/server.py:127 | the rendering of a status code is a non-empty string of decimal digits |
| Text.NatToStringRoundTrip | backend/server.py:127 | reading the decimal digits back gives the status code |
| JsonText.Hex4 | backend/server.py:141 | a `\uXXXX` escape has exactly four digits |
| JsonText.HexValue | backend/server.py:141 | a hexadecimal digit is worth less than 16 |
| JsonText.Hex4Value | backend/server.py:141 | four hexadecimal digits are worth less than 0x10000 |
| JsonText.HexDigitValue | backend/server.py:141 | each lower-case digit json.dumps writes reads back as its value |
| JsonText.Hex4Digits | backend/server.py:141 | the four digits written for a code unit are its base-16 digits |
| JsonText.Hex4RoundTrip | backend/server.py:141 | reading the four written digits gives back the code unit |
| JsonText.HighSurrogate | backend/server.py:141 | the first UTF-16 unit of a supplementary code point is a high surrogate |
| JsonText.LowSurrogate | backend/server.py:141 | the second UTF-16 unit of a supplementary code point is a low surrogate |
| JsonText.SurrogatesCombine | backend/server.py:141 | the two surrogates recombine to the code point |
| JsonText.UnitPairLayout | backend/server.py:141 | where the digits of two consecutive `\u` escapes sit |
| JsonText.PrintableAppend | backend/server.py:141 | joining printable ASCII texts gives printable ASCII |
| JsonText.HexDigitIsPrintable | backend/server.py:141 | hexadecimal digits are printable ASCII |
| JsonText.UnitEscapeIsPrintable | backend/server.py:141 | a `\uXXXX` escape is printable ASCII |
| JsonText.EscapeChar | backend/server.py:141 | defines how `json.dumps` writes one character with `ensure_ascii`: backslash forms for quote, backslash, newline, return, tab, backspace and form feed, printable ASCII as itself, any other character as `\uXXXX` or a surrogate pair of them |
| JsonText.Escape | backend/server.py:141 | defines the body of the string literal `json.dumps` writes: the escapes of the characters in order; UnescapeEscape proves a JSON reader gets the string back |
| JsonText.Quote | backend/server.py:141 | defines the string literal `json.dumps` writes: the escaped body between double quotes |
| JsonText.EscapeCharIsPrintable | backend/server.py:141 | the escaped form of any one character is printable ASCII |
| JsonText.EscapeIsPrintable | backend/server.py:141 | what json.dumps writes for a string contains only printable ASCII, so no line break |
| JsonText.QuoteIsPrintable | backend/server.py:141 | the quoted string literal is printable ASCII too |
| JsonText.DecodeOne | backend/server.py:141 | a decoded character consumes at least one and at most all remaining characters |
| JsonText.DecodeUnicode | backend/server.py:141 | the same for a `\uXXXX` escape or surrogate pair |
| JsonText.DecodeOneUnicode | backend/server.py:141 | a backslash followed by `u` is read as a `\uXXXX` escape |
| JsonText.DecodeShort | backend/server.py:141 | the two-character escapes of quote, backslash, newline, return, tab, backspace and form feed read back as that character |
| JsonText.DecodePlain | backend/server.py:141 | printable ASCII other than quote and backslash stands for itself |
| JsonText.DecodeUnit | backend/server.py:141 | the `\uXXXX` escape of a character in the Basic Multilingual Plane reads back as that character |
| JsonText.DecodeSurrogates | backend/server.py:141 | two `\uXXXX` escapes holding a surrogate pair read back as the supplementary character |
| JsonText.DecodePair | backend/server.py:141 | the escape json.dumps writes for a supplementary character reads back as that character, 12 characters wide |
| JsonText.DecodeEscapedChar | backend/server.py:141 | the escape of any one character, followed by anything, reads back as that character and consumes exactly the escape |
| JsonText.UnescapeEscape | backend/server.py:141 | a JSON reader recovers exactly the string json.dumps escaped |
| Relay.FailureMessage | backend/server.py:145-153 | defines the message of each exception handler: the timeout, network-error and unexpected-error texts |
| Relay.ApiErrorMessage | backend/server.py:127 | defines `f'API Error: {response.status_code}'`; ApiErrorMessageNamesStatus proves the status reads back from it |
| Relay.ApiErrorMessageNamesStatus | backend/server.py:127 | the non-200 message is `API Error: ` followed by decimal digits that read back as the status |
| Relay.Payload | backend/server.py:127-153 | defines `json.dumps({'content': c})` (`:141`) and `json.dumps({'error': m})` (`:127`, `:147-153`) through Quote; ParsePayloadRoundTrip proves each parses back to its event |
| Relay.Frame | backend/server.py:127-153 | defines the string yielded for one event, `data: ` then the payload then a blank line; FrameIsOneEvent and ParseFrameRoundTrip state its shape and that it parses back |
| Relay.Frames | backend/server.py:141 | the frames of a run of events, one Frame per event in the same order; FramesAppend and FramesParseBack state what that sequence holds |
| Relay.FramesAppend | backend/server.py:141 | yielding one more event adds exactly its frame at the end |
| Relay.Unframe | backend/server.py:141 | the three parts of a frame can be cut back out of it |
| Relay.PayloadIsPrintable | backend/server.py:141 | the JSON object of an event is printable ASCII |
| Relay.PrintableMiddle | backend/server.py:141 | no line break occurs in a printable middle part |
| Relay.FrameIsOneEvent | backend/server.py:141 | every frame is a single `data: ` line ended by a blank line, with no line break inside the payload |
| Relay.ParseObject | backend/server.py:141 | where the escaped text sits in a one-member JSON object |
| Relay.ParsePayloadRoundTrip | backend/server.py:141 | `{"content": ...}` and `{"error": ...}` payloads parse back to their event |
| Relay.ParseFrameRoundTrip | backend/server.py:141 | a reader of the event stream recovers exactly the event each frame carries |
| Relay.FramesParseBack | backend/server.py:141 | every frame of a response parses back to its event, position by position |
| Relay.IsDoneMarker | backend/server.py:133 | defines the `[DONE]` test: the payload after `data: `, stripped with Python's whitespace set, equals `[DONE]` |
| Relay.PayloadStep | backend/server.py:137-141 | a decoded payload leads to an emitted event only with non-empty content |
| Relay.Classify | backend/server.py:131-143 | a line without the exact `data: ` prefix is skipped; content is emitted only when non-empty |
| Relay.Steps | backend/server.py:130 | defines the effects of the upstream lines, one per line in the order `aiter_lines` gives them; StepsAppend, RelayOrder and SkippedLineIgnored state what relaying them produces |
| Relay.StepsAppend | backend/server.py:130 | the effects of two runs of lines are those of each run, concatenated |
| Relay.PromptIsBlank | backend/server.py:79 | defines the guard `not request.prompt.strip()`: the prompt strips to nothing; TrimEmptyIff proves this holds exactly when every character is Python whitespace |
| Relay.RelaySteps | backend/server.py:130-143 | defines the loop of `generate_stream` over the line effects: a skip moves on, content is relayed, `[DONE]` ends it, a raised lookup ends it with the unexpected-error event; RelayOrder characterises the result without recursion |
| Relay.RelayLines | backend/server.py:130-143 | defines the same loop over the lines themselves; RelayLoop is proved against it |
| Relay.StreamEvents | backend/server.py:116-153 | defines everything `generate_stream` yields, as events: one error for an unreachable upstream, one error for a non-200 status (the status message, or the message of the exception `aread` raises), otherwise the relayed events followed by the error of an exception raised after the last line; ErrorOnlyLast and FailedUpstreamSingleError state its shape |
| Relay.TranslateToPython | backend/server.py:79-80 | the reply is rejected with 400 "Prompt is required" exactly when the prompt is all Python whitespace (both directions); otherwise it streams the frames of the relayed events |
| Relay.InspectPayload | backend/server.py:137-141 | the lookups of `choices[0].delta.content` raise exactly when the specification says the line raises, and yield the content exactly when it is emitted |
| Relay.GenerateStream | backend/server.py:116-153 | the frames yielded are those of the specified events, whatever the upstream response and whichever exception is raised inside the `try` block |
| Relay.ReadLine | backend/server.py:131-143 | the loop body's handling of one line agrees with its classification |
| Relay.RelayLoop | backend/server.py:130-143 | the loop yields the frames of the relayed events and ends as specified: at `[DONE]`, at a raised lookup, or when the lines run out |
| Relay.SkipIgnored | backend/server.py:130-143 | a step that is skipped can be removed without changing anything |
| Relay.SkippedLineIgnored | backend/server.py:130-143 | a skipped line can be removed from anywhere in the input without changing the relayed events or the outcome |
| Relay.NonDataLineIgnored | backend/server.py:131 | any line without the exact `data: ` prefix has no effect at all |
| Relay.UndecodableLineIgnored | backend/server.py:142-143 | a payload that is not JSON has no effect, and processing continues |
| Relay.DoneStopsRelay | backend/server.py:132-134 | nothing after a stop step matters |
| Relay.LinesAfterDoneIgnored | backend/server.py:132-134 | after a `[DONE]` payload, any later lines give the same result |
| Relay.FirstHalt | backend/server.py:130-143 | the position of the first line that ends the loop, with every line before it skipped or emitting |
| Relay.RelayOrder | backend/server.py:130-141 | the relayed events are the contents of the lines before the first halt, in upstream order, one per emitting line, followed by one error only when the halt was a raised lookup; the outcome names the halt |
| Relay.ContentsNonEmpty | backend/server.py:140 | every forwarded content is non-empty |
| Relay.ErrorLastAppend | backend/server.py:145-153 | non-empty contents followed by at most one error keep the error last |
| Relay.ErrorOnlyLast | backend/server.py:145-153 | the stream is non-empty content events followed by at most one error event, which is last |
| Relay.FailedUpstreamSingleError | backend/server.py:124-128 | an unreachable upstream or a non-200 status yields exactly one error event and no content; without a read failure its message names the status |
| Translator.Triggers | frontend/src/components/PythonTranslator.js:56 | defines the triggers the `find` callback reads, in table order; FirstMatch and TranslatedCodeChoice state which entry they select |
| Translator.MockTable | frontend/src/mock/mockData.js:3-352 | defines the mock table: the eight triggers in their order, with the given code strings; TriggersLowerCase, FirstMatchOfEight and ExampleTranslation state what it answers |
| Translator.Matches | frontend/src/components/PythonTranslator.js:56 | defines the `find` callback, `input.toLowerCase().includes(mock.trigger.toLowerCase())`, as Contains over Lower of both texts |
| Translator.FirstMatch | frontend/src/components/PythonTranslator.js:55-57 | the chosen index matches and no earlier trigger does; None only when no trigger matches |
| Translator.FirstMatchIs | frontend/src/components/PythonTranslator.js:55-57 | a matching trigger with no earlier match is the one chosen |
| Translator.FindMock | frontend/src/components/PythonTranslator.js:55-57 | defines `mockTranslations.find(...)`: the entry at FirstMatch of the table's triggers, or none when no trigger matches |
| Translator.FallbackCode | frontend/src/components/PythonTranslator.js:59-70 | defines the template literal: the header line with the untrimmed input, a `solution()` stub whose docstring repeats the input, and the example-usage lines; FallbackPromptRoundTrip and FallbackShowsRequest state what it holds |
| Translator.ReadStub | frontend/src/components/PythonTranslator.js:59-70 | what is read back from a stub is no longer than the stub |
| Translator.StubLayout | frontend/src/components/PythonTranslator.js:61-70 | where the header, the request (twice), the middle and the tail of a stub sit |
| Translator.ReadStubRoundTrip | frontend/src/components/PythonTranslator.js:61-70 | the request is read back from any stub built around it |
| Translator.StubShowsRequest | frontend/src/components/PythonTranslator.js:61-70 | a stub starts with its header and the request, and repeats the request after the middle |
| Translator.FallbackPromptRoundTrip | frontend/src/components/PythonTranslator.js:61-70 | the untrimmed request can be read back from the fallback stub |
| Translator.FallbackShowsRequest | frontend/src/components/PythonTranslator.js:61-70 | the stub starts with `# Generated Python code for: ` followed by the untrimmed request; the request follows again after the opening of the docstring |
| Translator.TranslatedCode | frontend/src/components/PythonTranslator.js:55-70 | defines `translatedCode`: the code of the entry FindMock returns, else FallbackCode of the input; TranslatedCodeChoice spells out which |
| Translator.TranslatedCodeChoice | frontend/src/components/PythonTranslator.js:55-70 | the code is that of the first entry, in table order, whose trigger matches; otherwise, with no trigger matching, the fallback stub |
| Translator.PrefixWrites | frontend/src/components/PythonTranslator.js:38 | the calls `setOutput(text.slice(0, i))` of the first n rounds of the loop, i = 0 to n - 1, in order |
| Translator.StreamingUpdates | frontend/src/components/PythonTranslator.js:29-42 | defines the setter calls of `simulateStreaming(text)`: clear the output, raise the flag, write every prefix when `streamingRef.current` is set, lower the flag; StreamingWritesArePrefixes and StreamingWithoutRefWritesNothing state what is written |
| Translator.StreamingWritesArePrefixes | frontend/src/components/PythonTranslator.js:34-39 | every value written to `output` is a prefix of the text; with the ref set, the writes are `text.slice(0, i)` for i = 0, 1, ..., and the last one is the whole text |
| Translator.StreamingWithoutRefWritesNothing | frontend/src/components/PythonTranslator.js:35 | with the ref never set, the only value written to `output` is `""` |
| Translator.PythonTranslator.constructor | frontend/src/components/PythonTranslator.js:11-16 | empty input, output and example, not streaming, a null ref, the mock table |
| Translator.PythonTranslator.SimulateStreaming | frontend/src/components/PythonTranslator.js:29-42 | clears `output`, raises and finally lowers `isStreaming`, writes each prefix while the ref is set; `output` ends as the text with the ref set, `""` without it |
| Translator.PythonTranslator.HandleTranslate | frontend/src/components/PythonTranslator.js:44-73 | a blank input adds the "Input Required" toast and leaves `output`, `isStreaming` and the updates unchanged; otherwise it runs simulateStreaming on the chosen code, with no toast |
| Translator.PythonTranslator.HandleStop | frontend/src/components/PythonTranslator.js:75-77 | lowers `isStreaming` and changes nothing else (its frame excludes `output` and `input`) |
| Translator.PythonTranslator.UseExample | frontend/src/components/PythonTranslator.js:97-100 | sets `input` and `currentExample` to the example and changes nothing else |
| Examples.TriggersLowerCase | frontend/src/mock/mockData.js:3-352 | every trigger is already lower case |
| Examples.FirstMatchOfEight | frontend/src/components/PythonTranslator.js:55-57 | the first match in an eight-entry table, trigger by trigger |
| Examples.SortsDictionariesMatches | frontend/src/components/PythonTranslator.js:19 | the first example prompt contains none of the eight triggers |
| Examples.SecondLargestMatches | frontend/src/components/PythonTranslator.js:20 | the second example prompt contains "second largest number" and no earlier trigger |
| Examples.CalculatorMatches | frontend/src/components/PythonTranslator.js:21 | the third example prompt contains none of the triggers ("calculator class" is not among its words in that order) |
| Examples.CsvToJsonMatches | frontend/src/components/PythonTranslator.js:22 | the fourth example prompt contains none of the triggers |
| Examples.PalindromeMatches | frontend/src/components/PythonTranslator.js:23 | the fifth example prompt contains "palindrome" and no earlier trigger |
| Examples.DecoratorMatches | frontend/src/components/PythonTranslator.js:24 | the sixth example prompt contains none of the triggers |
| Examples.MergeListsMatches | frontend/src/components/PythonTranslator.js:25 | the seventh example prompt contains none of the triggers |
| Examples.WebScraperMatches | frontend/src/components/PythonTranslator.js:26 | the eighth example prompt contains "web scraper" and no earlier trigger |
| Examples.SortsDictionariesPrompt | frontend/src/components/PythonTranslator.js:19 | the first example prompt falls back to the stub |
| Examples.SecondLargestPrompt | frontend/src/components/PythonTranslator.js:20 | the second example prompt selects the second mock entry |
| Examples.CalculatorPrompt | frontend/src/components/PythonTranslator.js:21 | the third example prompt falls back to the stub |
| Examples.CsvToJsonPrompt | frontend/src/components/PythonTranslator.js:22 | the fourth example prompt falls back to the stub |
| Examples.PalindromePrompt | frontend/src/components/PythonTranslator.js:23 | the fifth example prompt selects the fifth mock entry |
| Examples.DecoratorPrompt | frontend/src/components/PythonTranslator.js:24 | the sixth example prompt falls back to the stub |
| Examples.MergeListsPrompt | frontend/src/components/PythonTranslator.js:25 | the seventh example prompt falls back to the stub |
| Examples.WebScraperPrompt | frontend/src/components/PythonTranslator.js:26 | the eighth example prompt selects the eighth mock entry |
| Examples.ExampleOutcome | frontend/src/components/PythonTranslator.js:19-26 | which mock entry, if any, each example prompt selects |
| Examples.ExamplePromptOutcomes | frontend/src/components/PythonTranslator.js:19-26 | the same for all eight prompts at once: only the second, fifth and eighth contain a trigger |
| Examples.ExampleTranslation | frontend/src/components/PythonTranslator.js:19-26 | for any mock code strings, the code handleTranslate passes to simulateStreaming for each example prompt: the matching mock code for the second, fifth and eighth, the fallback stub built from the prompt for the others |

## Left out

- Rendering. The JSX, styling, icons and badges are UI, as is the text area's `onChange` binding of `setInput` and the button's `disabled` guard (`frontend/src/components/PythonTranslator.js:102-279`).
- `copyToClipboard` (`frontend/src/components/PythonTranslator.js:79-95`). It uses the browser clipboard and its toasts.
- Toasts. A toast is recorded only as the event `InputRequired`, without its title, description or variant.
- Translator.PythonTranslator.SimulateStreaming: the 20 ms `setTimeout` pause (`:37`) is timing, and is left out. So is any interleaving of `handleStop` with the loop, which is asynchronous concurrency. `await` is an ordinary step.
- Translator.PythonTranslator.HandleTranslate: the mock code strings of `frontend/src/mock/mockData.js` are inert data. They are passed to the constructor; only the triggers and their order are fixed.
- Text.Lower: only the ASCII letters A-Z are lowered. JavaScript's full Unicode `toLowerCase` (for example, characters whose lower case is longer) is not modelled. Every trigger and every example prompt is ASCII.
- JsonText.Escape: a Python `str` can hold an unpaired surrogate (U+D800-U+DFFF), for instance a content that `json.loads` read from a lone `\ud83d` escape; `json.dumps` would write it back as a single `\uXXXX`. A Dafny `char` cannot hold a surrogate, so such a content, and its frame, cannot be represented.
- Strings are sequences of code points, not of UTF-16 code units. `text.slice(0, i)` and `text.length` therefore count a supplementary character once, where JavaScript counts it twice.
- The `httpx` client setup, request headers, model payload, API key and the 30 s timeout (`backend/server.py:83-123`). These are network I/O. The upstream response is an input, and each exception becomes a `Failure` value.
- Relay.GenerateStream: `generate_stream` reads `os.environ['OPENROUTER_API_KEY']` (`backend/server.py:84`) before its `try` block. When the key is unset, the `KeyError` escapes the generator and the stream ends without any frame. The model assumes the key is set.
- Relay.GenerateStream: the upstream body is taken as already split into lines by `aiter_lines`. The byte-level decoding and line splitting of the HTTP client are not modelled.
- JSON decoding. `json.loads` is a parameter and is not modelled, and its result is reduced to the `Json` datatype. A truthy `content` member that is not a string (a number, array or object) cannot be represented. The source would pass it on to `json.dumps`. Falsy values are the same as an absent member, as in the source.
- Logging (`logger.error`), which has no effect on the response.
- The MongoDB status, conversation and health endpoints, the data models with their uuid and datetime defaults, CORS and dotenv (`backend/server.py:11-72`, `:157-241`). These are database plumbing outside the relay.
