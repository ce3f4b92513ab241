# Hook generator: route decision, reply parsing and form state in Dafny

The application takes a product description and a target-audience description
from a form and sends them to `POST /api/generate-hooks`. The route checks both
fields, fills them into one fixed prompt, asks a generative-text provider once,
and splits the reply into a list of marketing hooks. The page shows the hooks.
Each hook has a Copy button that drops the `(Angle):` prefix.

The model has three modules:

- `JsString` (`js_string.dfy`) holds the JavaScript string operations the code
  relies on: `trim` (with JavaScript's white-space set), `indexOf` of one
  character (-1 when absent) and `split` on one character. Each is specified
  independently: Trim is the unique split into white space, a trimmed string
  and white space; IndexOf gives the first occurrence; Split is the inverse of
  Join in both directions.
- `HookRoute` (`hook_route.dfy`) models `app/api/generate-hooks/route.ts`.
  `Handle` is the handler for a given prompt template. `Post` is `Handle` with
  the route's own template, `SourceTemplate`, and `megaPrompt` is
  `Fill(SourceTemplate, productDescription, targetAudience)`. The provider is a total function
  from prompt to `Generated(text) | Failed`. The handler's result records the
  response (status and body) and the list of prompts it sent to the provider.
  So "the provider is never called" is the statement `prompts == []`.
  `Filter` is `Array.prototype.filter`, and `NonBlank` is the handler's
  filter callback `hook.trim() !== ''`. Concrete replies appear in the lemmas
  as newline-free lines joined with `'\n'`, so the lemmas hold for any hook
  texts, not only for one sample.
- `HookPage` (`hook_page.dfy`) models `app/page.tsx`. It holds the copy
  transform `CopyText`, the button rule `SubmitEnabled`, and the `HomePage`
  class. The class has the component's five state fields. `GenerateHooks`
  runs one cycle: `StartGeneration` (reset, then send the request), then
  `FinishGeneration` (apply the reply, then clear loading). The server is a
  parameter `(string, string) -> ServerReply`. `SourdoughSession` connects
  the page to `HookRoute.Handle` end to end.

## Behaviour worth noting

- **Hooks are not trimmed.** The handler trims only inside the filter test
  (route.ts line 52) and returns the kept lines as they are. A `\r\n` reply
  keeps its `\r` on each hook. `HookRoute.CarriageReturnsKept` states this.
- **Copying a line with no colon still trims.** `indexOf` returns -1 there,
  so `substring(0)` is the whole line, and `.trim()` still removes the
  surrounding white space. `HookPage.CopyWithoutColon` states this.

## Model

| member | source | states |
|---|---|---|
| `JsString.LeadingWhitespace` | app/api/generate-hooks/route.ts:52 | the returned count covers only white space, and the next character (if any) is not white space |
| `JsString.TrailingWhitespace` | app/api/generate-hooks/route.ts:52 | the same as LeadingWhitespace, read from the end |
| `JsString.Trim` | app/api/generate-hooks/route.ts:52 | `trim()` returns a string that neither starts nor ends with white space and is no longer than its input |
| `JsString.TrimSlice` | app/page.tsx:44 | `trim()` returns one slice of its input, with only white space before and after it |
| `JsString.TrimDecomposes` | app/page.tsx:44 | what `trim()` removes is white space before and white space after its result |
| `JsString.TrimUnique` | app/api/generate-hooks/route.ts:52 | any split of `s` into white space, a trimmed string `r` and white space has `trim(s) == r`, so Trim is exactly JavaScript's trim |
| `JsString.TrimIdempotent` | app/page.tsx:44 | trimming twice is trimming once |
| `JsString.TrimEmptyIffAllWhitespace` | app/api/generate-hooks/route.ts:52 | `s.trim() === ''` holds exactly when every character of `s` is white space, both directions |
| `JsString.IndexOf` | app/page.tsx:44 | `indexOf(c)` is -1 exactly when `c` does not occur; otherwise `c` is at that index and nowhere before it |
| `JsString.IndexOfAt` | app/page.tsx:44 | a first occurrence at `i` makes `indexOf` return `i` |
| `JsString.Split` | app/api/generate-hooks/route.ts:52 | `split(sep)` gives at least one piece, and no piece contains the separator |
| `JsString.SplitJoin` | app/api/generate-hooks/route.ts:52 | joining the pieces with the separator gives back the text |
| `JsString.JoinSplit` | app/api/generate-hooks/route.ts:52 | splitting separator-free pieces joined with the separator gives back exactly those pieces |
| `JsString.SplitCount` | app/api/generate-hooks/route.ts:52 | the number of pieces is the number of separators plus one |
| `HookRoute.Truthy` | app/api/generate-hooks/route.ts:8 | a field is falsy exactly when it is missing, `null` or the empty string |
| `HookRoute.FillLayout` | app/api/generate-hooks/route.ts:16-44 | the prompt `Fill` builds (the interpolation behind `megaPrompt`) is the template's head, the product description verbatim, the middle text, the audience verbatim and the tail, each at its fixed offset |
| `HookRoute.FillAmbiguous` | app/api/generate-hooks/route.ts:20-21 | because nothing is escaped, a description that contains the middle text gives the same prompt as a different pair of fields; when the middle text is not empty, the two pairs really differ |
| `HookRoute.NonBlank` | app/api/generate-hooks/route.ts:52 | the filter callback `hook.trim() !== ''` holds exactly when the line has a character that is not white space |
| `HookRoute.Filter` | app/api/generate-hooks/route.ts:52 | `filter` never returns more elements than it was given |
| `HookRoute.FilterAppend` | app/api/generate-hooks/route.ts:52 | filtering a concatenation is the concatenation of the filtered parts; with FilterSingle this fixes `filter` as the order-preserving selection of the passing elements |
| `HookRoute.FilterSingle` | app/api/generate-hooks/route.ts:52 | one element is kept, unmodified, exactly when it passes the test |
| `HookRoute.FilterMembership` | app/api/generate-hooks/route.ts:52 | an element is in the result exactly when it is in the input and passes the test |
| `HookRoute.FilterCount` | app/api/generate-hooks/route.ts:52 | `n` elements of which `k` fail the test leave exactly `n - k` |
| `HookRoute.ParseHooks` | app/api/generate-hooks/route.ts:52 | no hook contains a newline, every hook has a non-white-space character (so a lone `\r` never appears), and there are at most newlines + 1 hooks |
| `HookRoute.ParseJoinedLines` | app/api/generate-hooks/route.ts:52 | a reply made of newline-free lines parses to exactly its non-blank lines, unmodified and in order |
| `HookRoute.ParseEmptyText` | app/api/generate-hooks/route.ts:52 | an empty reply parses to no hooks |
| `HookRoute.CarriageReturnsKept` | app/api/generate-hooks/route.ts:52 | in a reply `a\r\n\r\nb` the first hook keeps its trailing `\r`, and the line holding only `\r` is dropped |
| `HookRoute.ParseBlankBetween` | app/api/generate-hooks/route.ts:52 | a reply of three hook lines with an empty line between the second and the third parses to exactly the three lines, in order |
| `HookRoute.Handle` | app/api/generate-hooks/route.ts:5-64 | a missing, null or empty field gives 400 with the fixed message and sends no prompt; valid fields send exactly one prompt, the filled template; status 500 comes only with the fixed failure text, and status 200 only with a hooks body |
| `HookRoute.Post` | app/api/generate-hooks/route.ts:5-64 | with the route's own template: a falsy field gives 400 with the fixed message and no prompt; otherwise exactly the filled template is sent, a provider failure gives 500 with the fixed message, and a provider text gives 200 with that text's parsed hooks |
| `HookRoute.InvalidIgnoresProvider` | app/api/generate-hooks/route.ts:8-10 | with a missing field the result is the same for every provider, and no prompt is sent |
| `HookRoute.ValidDependsOnOneAnswer` | app/api/generate-hooks/route.ts:46-49 | with valid fields the result depends on the provider only through its answer to the one prompt, and exactly one prompt is sent |
| `HookRoute.FailureHasNoHooks` | app/api/generate-hooks/route.ts:60-63 | a provider failure gives status 500 with "Failed to generate hooks from AI" and no hooks |
| `HookRoute.TextAnswered` | app/api/generate-hooks/route.ts:47-59 | a provider text gives status 200 with that text's parsed hooks |
| `HookRoute.ReplyAnswered` | app/api/generate-hooks/route.ts:47-59 | a reply made of lines gives status 200 with exactly its non-blank lines, in order, unmodified |
| `HookRoute.EmptyReplySucceeds` | app/api/generate-hooks/route.ts:52-59 | an empty reply gives status 200 with an empty hooks list |
| `HookRoute.SourdoughReply` | app/api/generate-hooks/route.ts:46-59 | the sourdough request, answered with three hook lines and an empty line, gives status 200 with the three hooks in order |
| `HookPage.CopyText` | app/page.tsx:44 | the copied string has no leading or trailing white space and is no longer than the line |
| `HookPage.CopyAfterFirstColon` | app/page.tsx:43-44 | with the first colon at `i`, the copy is the trimmed text after position `i` |
| `HookPage.CopyWithoutColon` | app/page.tsx:44 | with no colon, the copy is the whole line, trimmed |
| `HookPage.CopyIsSlice` | app/page.tsx:44 | the copy is one contiguous piece of the line |
| `HookPage.CopyStripsLabel` | app/page.tsx:42-44 | a line shaped `angle:` + white space + trimmed text, with no colon in the angle, copies as that text |
| `HookPage.CopyLabelledHook` | app/page.tsx:43-44 | `(Curiosity): Did you know this?` copies as `Did you know this?` |
| `HookPage.CopyNotIdempotent` | app/page.tsx:44 | `angle: first: second` copies as `first: second`, and copying that again gives `second`: only the first colon is consumed, so copying is not idempotent |
| `HookPage.SubmitEnabled` | app/page.tsx:90 | the button is enabled exactly when no request is running and the route would accept both fields as truthy |
| `HookPage.EnabledSubmitIsValid` | app/page.tsx:90 | an enabled button means not loading and two non-empty fields, so the route accepts the request and sends exactly one prompt |
| `HookPage.IsOk` | app/page.tsx:29 | of the statuses the route sends (200, 400, 500), `response.ok` holds only for 200 |
| `HookPage.RouteAnswersReadByPage` | app/page.tsx:29-31 | `response.ok` holds for a route answer exactly when that answer carries hooks |
| `HookPage.HomePage.constructor` | app/page.tsx:6-10 | both inputs empty, no hooks, not loading, no error |
| `HookPage.HomePage.SetProductDescription` | app/page.tsx:67 | the first input takes the typed value, and nothing else changes |
| `HookPage.HomePage.SetTargetAudience` | app/page.tsx:81 | the second input takes the typed value, and nothing else changes |
| `HookPage.HomePage.StartGeneration` | app/page.tsx:13-27 | sets loading, clears the error and the hooks, disables the button, and sends the two inputs as they are; the inputs do not change |
| `HookPage.HomePage.FinishGeneration` | app/page.tsx:29-39 | an OK reply replaces the hooks with the reply's list in order; a non-OK one sets "Something went wrong. Please try again." and leaves the hooks empty; a thrown error sets its message; loading ends in every case |
| `HookPage.HomePage.GenerateHooks` | app/page.tsx:12-40 | one cycle against the server's reply to the current inputs ends as FinishGeneration says, not loading, with the inputs unchanged and the state invariant kept |
| `HookPage.SourdoughSession` | app/page.tsx:12-40 | typing the sourdough fields, clicking, and getting the route's answer to a three-hook reply with an empty line leaves the page showing the three hooks in order |

## Left out

- The Google Generative AI client, the `GOOGLE_API_KEY` read and the `generateContent` / `response.text()` calls are foreign calls. They are the `provider` parameter.
- `req.json()` decoding is left out. Each field is `Missing`, `Null` or a string. JSON numbers, booleans, arrays and objects are not modelled.
- `Response` headers, the `Content-Type`, the `edge` runtime flag and `console.error` are left out. Only the status, the plain-text message or the hooks list is kept.
- `HookRoute.Post`: its contract is stated through `Fill(SourceTemplate, …)` and does not spell out the offsets of the fields inside the route's own text. Those offsets are stated for any template by `FillLayout`. Any proof that mentions the lengths of the template literal of about 2,500 characters is too costly for the verifier. The other lemmas about the handler are proved for `Handle` with any template, so they hold for `Post`.
- `HookPage.Deliver` is the assumed transport from a route response to what the page receives: the status, and the hooks list when the body carries one. It is not proved against anything, because the `fetch` / `JSON.stringify` / `response.json()` round trip it stands for is not modelled. `RouteAnswersReadByPage` states the property the page relies on.
- `fetch`, `JSON.stringify` and `response.json()` are left out. A 2xx response whose body fails to decode, or lacks `hooks`, is not modelled. The server's answer is a `ServerReply`: a status with a hooks list, or a thrown error with an opaque message.
- React state updates are modelled as immediate field writes. Their batching, re-rendering and the async scheduling of `generateHooks` are left out. The cycle is split at `await fetch(...)` (page.tsx line 18) into `StartGeneration` and `FinishGeneration`. The second await, `await response.json()` (line 33), is folded into `ServerReply`. Nothing between the two awaits reads or writes component state, except the `throw` on a non-OK response, which `FinishGeneration` models.
- `navigator.clipboard.writeText`, `alert` and all JSX rendering and styling are UI side effects and are left out.
- Strings are sequences of Unicode code points, not UTF-16 code units. Every character JavaScript counts as white space is in the Basic Multilingual Plane, and `':'` and `'\n'` are too. So `trim` and `split` give the same strings either way, and `substring(indexOf(':') + 1)` picks out the same text.
- `JsString.IndexOf`: the number it returns counts code points, not UTF-16 code units. When a character outside the Basic Multilingual Plane (an emoji, say) comes before the match, JavaScript's `indexOf` returns a larger number: `"\u{1F600}:x".indexOf(':')` is 2 in JavaScript and 1 here. `CopyText` uses the number only to cut the string, so its result is the same text either way.
- The white-space set is that of current ECMAScript: tab, line feed, vertical tab, form feed, carriage return, space, U+00A0, U+1680, U+2000 to U+200A, U+2028, U+2029, U+202F, U+205F, U+3000 and U+FEFF.
