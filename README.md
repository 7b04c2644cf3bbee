# Health agent integration layer

This project models `HealthAgentIntegration`, the layer between the health
dashboard's user interface and its three language-model agents (health, data,
insights). The layer does four things:

- it builds a prompt that carries the user's role and location;
- it reads the text out of a reply, whichever shape the reply has;
- it parses an insights reply into a short list, falling back to fixed
  role-keyed lists;
- it gathers streamed chunks into a result record that holds either a
  timestamp or an error.

The model has six modules in five files:

- `PyText` (pytext.dfy) covers the Python string operations the layer relies on:
  - `strip()`;
  - `lstrip(chars)`;
  - `split('\n')`;
  - the text after the first `'.'`;
  - `isdigit()`.
- `Wrappers` and `Replies` (replies.dfy) cover:
  - the shapes an agent reply can take;
  - the precedence rule (`content`, then `text`, then `str()` of the reply);
  - the `+=` accumulation over a stream, including the `TypeError` that a
    chunk whose `content` or `text` is not a string raises.
- `InsightParser` (insights.dfy) is the line-by-line insights parser. It is
  written as a loop, `ParseInsights`, and proved against the specification
  function `Survivors`.
- `Fallbacks` (fallbacks.dfy) holds the role-keyed fallback tables and their
  lookups.
- `HealthAgentIntegration` (integration.dfy) holds the prompts and the four
  public operations.

An agent is a function parameter:

- `string -> CallOutcome` for a blocking call, which yields either a reply or
  the text of the exception raised.
- `string -> Stream` for a streaming call, which yields the chunks produced and
  then either a normal end or an exception's text.

The timestamp `_get_timestamp()` returns is the parameter `now`. The random
index `random.choice` picks is the parameter `pick`. Result dictionaries are
modelled as `map<string, string>` with the same keys as the source.

Whitespace is the ASCII part of Python's `str.isspace`: space, `\t`, `\n`,
`\r`, `\x0b`, `\x0c` and `\x1c`-`\x1f`. Digits are `'0'`..`'9'`.

The model follows the code as written in three places where a reader might
expect otherwise:

- `lstrip('•-*')` stops at the first character that is not a marker, and that
  includes a space. So `"-- * item"` becomes `"* item"` (`SpaceEndsBulletRun`).
- The numbering step is not limited to an `<integer>.` prefix. Any line that
  starts with a digit loses everything up to and including its first `'.'`:
  - `"3.2% rise in ER visits"` becomes `"2% rise in ER visits"` (`DecimalNumberCut`);
  - `"1) Expand outreach"` becomes empty and is dropped (`NumberedLineWithoutDot`).
- A failed chat returns a formatted message naming the role and the location.
  It does not return one of the three canned replies: `_get_fallback_response`
  is never called inside the class, and it is modelled on its own as
  `FallbackResponse`.

## Model

| member | source | states |
|---|---|---|
| PyText.Strip | agent/health_agent_integration.py:101 | the result of `strip()` has no whitespace at either end |
| PyText.StripMiddle | agent/health_agent_integration.py:101 | the result of `strip()` is a contiguous part of the input, and everything removed before and after it is whitespace |
| PyText.StripUnique | agent/health_agent_integration.py:101 | for any whitespace prefix, trimmed middle and whitespace suffix, `strip()` returns exactly the middle |
| PyText.StripTrimmed | agent/health_agent_integration.py:103 | `strip()` leaves an already trimmed string unchanged |
| PyText.LStrip | agent/health_agent_integration.py:103 | the result of `lstrip(chars)` is a suffix of the input, and it is empty or does not start with one of `chars` |
| PyText.LStripRemovesChars | agent/health_agent_integration.py:103 | everything `lstrip(chars)` removes is one of `chars` |
| PyText.LStripSkipsRun | agent/health_agent_integration.py:103 | `lstrip(chars)` removes a whole leading run of `chars` and stops at the first other character |
| PyText.AfterFirst | agent/health_agent_integration.py:104 | `''.join(s.split('.', 1)[1:])` is empty when there is no '.'; otherwise the input is a '.'-free part, a '.', and the result |
| PyText.Lines | agent/health_agent_integration.py:100 | `split('\n')` gives at least one piece, no piece holds a newline, and joining the pieces with newlines gives back the input |
| PyText.LinesOfJoin | agent/health_agent_integration.py:100 | splitting a newline-join of newline-free pieces gives back exactly those pieces |
| Replies.ExtractText | agent/health_agent_integration.py:51-56 | the text of a reply is `str(content)` when it has `content`, else `str(text)` when it has `text`, else `str()` of the reply (the same rule as lines 91-96) |
| Replies.ExtractionPrecedence | agent/health_agent_integration.py:51-56 | `content` decides the text whatever `text` and the string form hold; `text` decides it whatever the string form holds; a bare string reads as itself |
| Replies.ChunkPiece | agent/health_agent_integration.py:140-147 | a chunk appends its `content` if it has one, else its `text`, else its string form; appending succeeds exactly when the chosen attribute is a string (`Other` values have no `__radd__` that accepts a `str`), a chunk with neither attribute always appends its string form, a non-string attribute without an `__radd__` that accepts a `str` raises `TypeError` with the message naming its type, and what is appended is the chunk's extracted text |
| Replies.Accumulated | agent/health_agent_integration.py:139-147 | no chunks give the empty text, and a failed accumulation reports the `TypeError` of one of the chunks |
| Replies.StreamResult | agent/health_agent_integration.py:138-147 | a failed accumulation is reported as it is (the first failing chunk's `TypeError`, by FirstFailureReported); otherwise a stream that raised reports its own exception text; the result succeeds exactly when the stream ended normally and every chunk appends a string, and its text is then the in-order concatenation of the chunks' texts |
| Replies.AccumulatedAppend | agent/health_agent_integration.py:139-147 | accumulating two runs of chunks is accumulating the first and then appending the second's text, and the first error wins |
| Replies.ErrorEndsAccumulation | agent/health_agent_integration.py:139-147 | once a prefix of the chunks has raised, the whole stream's accumulation is that same error, so the loop may stop there |
| Replies.AccumulatedOk | agent/health_agent_integration.py:139-147 | accumulation succeeds exactly when every chunk appends a string, and its text is then the in-order concatenation of the chunks' extracted texts |
| Replies.FirstFailureReported | agent/health_agent_integration.py:139-147 | the `TypeError` reported is the one from the first chunk that fails |
| InsightParser.DropNumbering | agent/health_agent_integration.py:104 | a line that is empty or not digit-led is unchanged; a digit-led line without '.' becomes empty; otherwise the result is the stripped text after the first '.' |
| InsightParser.CleanLine | agent/health_agent_integration.py:101-104 | each cleaned line has no surrounding whitespace |
| InsightParser.CleanAll | agent/health_agent_integration.py:100-104 | one cleaned line per input line |
| InsightParser.CleanAllAt | agent/health_agent_integration.py:100-104 | the cleaned line at each position is the cleaning of the input line at that position |
| InsightParser.CleanLineFixesClean | agent/health_agent_integration.py:101-104 | a trimmed line that does not start with a marker or a digit passes through cleaning unchanged |
| InsightParser.KeepLong | agent/health_agent_integration.py:106-107 | the kept lines are at most as many as the input, each longer than 20 characters, and each one of the input lines |
| InsightParser.Survivors | agent/health_agent_integration.py:100-107 | the survivors are no more than the input lines, and each is trimmed and longer than 20 characters |
| InsightParser.ParseInsights | agent/health_agent_integration.py:99-107 | the loop that reassigns `line` step by step and appends the long lines computes exactly the survivors of `text.split('\n')` |
| InsightParser.SurvivorsMembers | agent/health_agent_integration.py:100-107 | a string survives exactly when it is longer than 20 characters and is the cleaned form of some input line |
| InsightParser.SurvivorsAppend | agent/health_agent_integration.py:100-107 | the survivors of two blocks of lines are those of the first followed by those of the second, so the input order is kept |
| InsightParser.CleanLinesSurvive | agent/health_agent_integration.py:100-107 | clean lines longer than 20 characters all survive, unchanged and in order |
| InsightParser.JoinedCleanLinesParse | agent/health_agent_integration.py:100-107 | a reply made of clean, long, newline-free lines joined by newlines parses back to exactly those lines |
| InsightParser.DroppedLine | agent/health_agent_integration.py:106 | a line whose cleaned form is 20 characters or shorter contributes nothing |
| InsightParser.BulletRunRemoved | agent/health_agent_integration.py:101-104 | a line made of indentation, a leading run of '•', '-' and '*' of any length, optional whitespace and a clean non-numbered text (as in "- text", "  • text" or "**text") cleans to exactly that text: the run is removed as a whole and the second strip removes the gap |
| InsightParser.SpaceEndsBulletRun | agent/health_agent_integration.py:103 | a space ends the marker run: `"-- * item"` cleans to `"* item"` |
| InsightParser.NumberedLineCut | agent/health_agent_integration.py:104 | a trimmed digit-led line loses everything through its first '.' and is stripped again |
| InsightParser.DecimalNumberCut | agent/health_agent_integration.py:104 | `"3.2% rise in ER visits"` cleans to `"2% rise in ER visits"` |
| InsightParser.NumberedLineWithoutDot | agent/health_agent_integration.py:104-106 | a trimmed digit-led line with no '.' becomes empty and is discarded |
| InsightParser.FirstInsights | agent/health_agent_integration.py:109 | the result is the prefix of the parsed list of length min(4, count) |
| Fallbacks.FallbackInsights | agent/health_agent_integration.py:239-262 | exactly 4 insights, each longer than 20 characters; each known role gets its own list and any other role gets the 'Public Health Staff' list |
| Fallbacks.ResponseChoices | agent/health_agent_integration.py:218-237 | exactly 3 replies, each longer than 20 characters; each known role gets its own list and any other role gets the 'Public Health Staff' list |
| Fallbacks.FallbackResponse | agent/health_agent_integration.py:216-237 | the reply is one of the role's three choices, and one of the staff replies for an unknown role |
| Fallbacks.FallbackIgnoresInput | agent/health_agent_integration.py:216-237 | the canned reply depends on the role and the random pick only, not on the user input |
| HealthAgentIntegration.ChatPrompt | agent/health_agent_integration.py:38-43 | the prompt opens with "User Role: ", the role, a newline, "Location: " and the location |
| HealthAgentIntegration.ChatPromptInjective | agent/health_agent_integration.py:38-43 | when role and location hold no newline, equal prompts come from the same role, location and user input |
| HealthAgentIntegration.ChatFallback | agent/health_agent_integration.py:61 | the failure message names the role and then the location, right after its fixed opening |
| HealthAgentIntegration.ChatWithHealthAgent | agent/health_agent_integration.py:36-61 | a reply yields its extracted text and any caught `Exception` yields the fallback message for that role and location |
| HealthAgentIntegration.ChatFailureIgnoresQuestion | agent/health_agent_integration.py:58-61 | a failed chat does not depend on the question, and its message names the role |
| HealthAgentIntegration.InsightsPrompt | agent/health_agent_integration.py:75-83 | the prompt names the location right after its fixed opening, followed by " tailored for " |
| HealthAgentIntegration.GetHealthInsights | agent/health_agent_integration.py:74-113 | an exception, or a reply with no surviving line, yields the role's fallback list; otherwise the result is the first four survivors, each trimmed; the result always has one to four entries, each longer than 20 characters |
| HealthAgentIntegration.FirstInsightsKeepBounds | agent/health_agent_integration.py:109 | the first four of a non-empty list of trimmed insights longer than 20 characters are one to four such insights |
| HealthAgentIntegration.CollectStream | agent/health_agent_integration.py:138-147 | the loop over a stream computes exactly the accumulated text, or the first `TypeError`, or the stream's own exception |
| HealthAgentIntegration.AnalysisPrompt | agent/health_agent_integration.py:127-135 | the prompt names the location right after its fixed opening, followed by " based on this query: " |
| HealthAgentIntegration.GetDataAnalysis | agent/health_agent_integration.py:126-163 | success gives `analysis`, `location`, `query` and `timestamp`; failure gives the fixed message, `location`, `query` and `error`; a timestamp is present exactly when no error is; a clean stream's analysis is the in-order concatenation of the chunks' texts |
| HealthAgentIntegration.RecommendationsPrompt | agent/health_agent_integration.py:177-186 | the prompt names the location right after its fixed opening, followed by " for " |
| HealthAgentIntegration.GetResourceRecommendations | agent/health_agent_integration.py:176-214 | success gives `recommendations`, `location`, `user_role` and `timestamp`; failure gives the fixed message, `location`, `user_role` and `error`; a timestamp is present exactly when no error is; a clean stream's text is the in-order concatenation of the chunks' texts |

## Left out

- The agent runtime (`Agent.run`, `run_async`, `run_in_executor`, the event loop). The agents are function parameters, so the model has no concurrency and no `async`.
- `__init__` and the `api_base_url` read from the environment: the model never uses them.
- Logging (`logger.error`): it has no effect on results.
- `_get_timestamp`: `datetime.now().isoformat()` is a clock read, so the timestamp is the parameter `now`.
- `random.choice` in `_get_fallback_response`: the random index is the parameter `pick`.
- Non-ASCII whitespace and digits: `strip()` and `isdigit()` only see ASCII.
- An exception raised by `str()` of a reply or of a chunk: every object's string form is a given value.
- An exception raised inside `hasattr` by a property getter: attributes are either present with a value or absent.
- `Raised` and `Stream.raised` stand for `Exception` subclasses only, the ones lines 58, 111, 156 and 207 catch. A `BaseException` such as `asyncio.CancelledError`, `KeyboardInterrupt` or `SystemExit` propagates out of all four operations and is not modelled.
- A stream that raises is modelled as the chunks it produced and then the exception. A stream that never ends is not modelled.
- Fallbacks.FallbackInsights: not claimed to be trimmed. Its ensures state the count and the lengths, and the exact lists.
- Fallbacks.ResponseChoices: not claimed to be trimmed, for the same reason as FallbackInsights.
- HealthAgentIntegration.InsightsPrompt: states where the location sits. It does not state that the role can be recovered, because a location containing " tailored for " makes the layout ambiguous.
- HealthAgentIntegration.AnalysisPrompt: states where the location sits. It does not state that the query can be recovered, because a location containing " based on this query: " makes the layout ambiguous.
- HealthAgentIntegration.RecommendationsPrompt: states where the location sits. It does not state that the role can be recovered, because a location containing " for " makes the layout ambiguous.
- Record values are all strings. The source's `Dict[str, Any]` holds only strings here, except where a chunk attribute's `__radd__` returns a non-`str` object (next line).
- `Field.Other` stands for a value whose type does not accept `str + x` through `__radd__`. A value whose type does (e.g. `collections.UserString`) is appended by that method, so `+=` does not raise and the accumulated text may stop being a `str`; this is not modelled.
