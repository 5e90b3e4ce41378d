# Project Mindfull: a model of the chat widget and its server logic

Project Mindfull is a mental-wellbeing chat app. A browser widget (`static/script.js`) talks to a
small Flask server (`app.py`). The server hands conversations to a language model and serves a
fixed table of crisis resources. This project models the deterministic parts of both sides in
Dafny and proves what they promise.

- **Server (module `Companion`).**
  - `get_crisis_resources` renders the two-level `CRISIS_RESOURCES` table as text. The output is
    a header, then a "Local resources for X:" section (only when the country has entries), then
    the "International resources:" section, which is always present.
  - The table is a sequence of `(country, [(name, contact)])` pairs in insertion order, because
    Python dictionaries are ordered. It lives in module `Resources`, with one small lemma per
    entry showing that no name or contact contains `<`. `Get` is `dict.get(key, {})`.
  - The method `GetCrisisResources` keeps app.py's `+=` loops. It is proved equal to the
    specification function `RenderResources`.
  - `ToContents` is the role-mapping comprehension in `reply`. `ReplyText` is the
    empty-reply fallback. `Reply` passes the mapped transcript to a `generate` parameter, which
    stands for the language model. `Start` is the fixed greeting.
- **Widget (module `Widget`).**
  - `ChatWidget` is a class. Its fields are the transcript (`chatHistory`), the rendered
    messages, the typing-indicator flag, the input value, whether the resources panel is
    displayed, the panel's content and the button's label.
  - Its methods `InitChat`, `SendMessage`, `KeyPress` and `LoadResources` take the network
    result as an explicit `Outcome`: a parsed JSON `Payload` with optional `response`, `error`
    and `resources` string fields, or `TransportFailure` (a `fetch` or `.json()` exception).
  - Each method is proved to produce the state given by a function on the `View` value:
    `AfterInit`, `AfterSend`, `AfterKey` or `AfterToggle`. The functions' contracts state the
    script's rules: blank input changes nothing; the user turn comes first; an assistant turn
    is added only on success; each failure channel shows its own fixed string; the resources
    panel is a two-state toggle.
  - `Run` applies a sequence of events. Lemmas over `Run` show that a session only ever
    appends to the transcript and the message list.
- **Text (module `Text`).** One `Strip` covers both Python's `str.strip()` and JavaScript's
  `trim()`. Each language's whitespace set is given exactly (`PythonWhitespace`,
  `JavaScriptWhitespace`). `ReplaceNewlines` is `replace(/\n/g, '<br>')`.
  `ReplaceNewlinesChar` and `ReplaceNewlinesAppend` fix its result on every text, and
  `RestoreNewlines` undoes it for text without `<` (`RestoreReplaceNewlines`).
- **Both sides (module `EndToEnd`).** These lemmas connect the server's outputs to the widget's
  behaviour.

Two behaviours of the script worth noting:

- A failed resources fetch shows the panel but leaves the button label unchanged
  (static/script.js:132-135). The label is not switched to "Hide Resources".
  `FailedLoadKeepsShowLabel` exhibits the resulting mismatch: the next click hides the panel
  while the button reads "Show Crisis Resources".
- A reply whose `resources` field is missing or empty leaves the panel hidden
  (static/script.js:127-131). The panel does not always expand.

## Model

| member | source | states |
|---|---|---|
| Companion.CrisisTableLookups | app.py:59-73 | the table stores Singapore's six entries and the three General entries under their own keys, in insertion order |
| Companion.Get | app.py:130 | `dict.get(key, {})`: an absent key gives no entries; with distinct keys, the entries stored under the key |
| Companion.RenderResources | app.py:128-145 | the text always begins with "Here are some resources that might help!\n\n" and is longer than that header |
| Companion.ResourcesText | app.py:128-145 | the text served from the server's own table always begins with the header |
| Companion.LocalHeadingParts | app.py:136 | the local heading is "Local resources for ", the country's name, then ":\n" |
| Companion.LineParts | app.py:138 | each entry's line is its name, ": ", its contact and a line feed, in that order |
| Companion.Lines | app.py:137-138 | the lines of the entries are empty exactly when there are no entries |
| Companion.LinesShape | app.py:137-138 | the lines of a non-empty entry list end in a line feed and take at least three characters per entry |
| Companion.LocalSection | app.py:135-139 | the local section is absent exactly when the lookup is empty; otherwise it starts with the country's heading and ends with the closing empty line |
| Companion.GetCrisisResources | app.py:128-145 | the `+=` accumulation over the local entries (if any) and then the General entries yields exactly header, local section, international section |
| Companion.AppendLines | app.py:142-143 | the `for name, contact in ….items()` loop appends exactly the "name: contact\n" line of every entry, in table order, to the text so far |
| Companion.UnknownCountryText | app.py:130-143 | a country that is not a key gives exactly the header, "International resources:\n" and the General lines, with no local section |
| Companion.SingaporeText | app.py:135-143 | for Singapore: its heading, its six lines in table order, one extra "\n", then the international section |
| Companion.GeneralText | app.py:130-143 | asking for "General" lists the General entries twice, first under "Local resources for General:" |
| Companion.LocalEntryInOrder | app.py:136-139 | local entry k is rendered as "name: contact\n" between the lines of the entries before it and after it |
| Companion.GeneralEntryInOrder | app.py:141-143 | General entry k is rendered as its own line after the international heading, in table order |
| Companion.EndsWithLastGeneral | app.py:141-145 | the text ends with the line of the last General entry |
| Companion.ResourcesTextEnding | app.py:68-72 | the served text always ends with the "Find a Helpline" line |
| Companion.LinesAt | app.py:137-138 | the rendering of an entry list is the lines before entry k, entry k's line, then the lines after it |
| Companion.LinesLack | app.py:137-138 | a character that occurs in no name and no contact, and is not part of ": " or the line feed, does not occur in the lines |
| Companion.RenderLacks | app.py:128-145 | a character that occurs in no heading, not in the country's name and in no listed entry does not occur in the rendered text |
| Companion.HeadingsLackAngle | app.py:133-141 | the header, the international heading and the heading of a country named without `<` contain no `<` |
| Resources.TableLacksAngle | app.py:59-73 | no name and no contact of the Singapore and General entries contains `<` |
| Companion.ResourcesTextLacksAngle | app.py:128-145 | the text served for any country named without `<` contains no `<` |
| Companion.ToContents | app.py:113-116 | the mapping keeps length, order and each content as the only part; "user" stays "user" and every other role becomes "model" |
| Companion.ToContentsAppend | app.py:113-116 | mapping a transcript extended by some turns is the old mapping followed by the new turns' mapping |
| Companion.ReplyText | app.py:122-123 | the reply is the stripped generated text when that is non-empty and the fixed "I'm here with you…" prompt otherwise; it is never empty |
| Companion.Reply | app.py:111-123 | on the no-exception path the reply to any transcript and any model output is non-empty |
| Companion.Start | app.py:96-98 | the greeting is one fixed, non-empty string |
| Text.Strip | app.py:122 | stripping yields the infix between the leading and trailing whitespace runs, with no whitespace at either end, and is empty iff the input is all whitespace |
| Text.StripIdempotent | static/script.js:43 | stripping a stripped string changes nothing |
| Text.ReplaceNewlines | static/script.js:128 | no line feed remains; a text without line feeds is unchanged |
| Text.ReplaceNewlinesChar | static/script.js:128 | a single line feed becomes `<br>` and any other single character is kept |
| Text.ReplaceNewlinesAppend | static/script.js:128 | the replacement of a concatenation is the concatenation of the replacements, so every line feed of any text, with or without `<`, becomes `<br>` and every other character is kept in place |
| Text.RestoreReplaceNewlines | static/script.js:128 | for a text without `<`, turning `<br>` back into line feeds recovers the original |
| Widget.Initial | static/script.js:1-9 | the page starts with an empty transcript and no messages, the indicator hidden and the panel hidden |
| Widget.Settle | static/script.js:71-87 | after a call returns, the indicator is hidden; a truthy `response` adds one bot message and one assistant turn; an error reply adds only the fixed trouble text, never the error; neither field adds nothing; a thrown call adds only the fixed failure text |
| Widget.Truthy | static/script.js:25-31 | a reply field is falsy exactly when it is absent or the empty string, as the `if (data.response)`, `else if (data.error)` and `if (data.resources)` tests read it |
| Widget.AfterInit | static/script.js:12-39 | `initChat` adds at most one turn, an assistant turn, only on success, and renders exactly that reply; the error and transport paths render their own fixed strings; a reply with neither field renders nothing; the indicator ends hidden |
| Widget.Pending | static/script.js:43-44 | the trimmed message is the piece of the input between its leading and its trailing run of white space, with no white space at either end, empty exactly when the input is all white space |
| Widget.Submit | static/script.js:43-57 | before the request: one user message and one user turn with the trimmed text, input cleared, indicator shown |
| Widget.Request | static/script.js:59-69 | nothing is posted for blank input; otherwise the posted history is the transcript including the turn just added |
| Widget.AfterSend | static/script.js:42-88 | blank trimmed input changes nothing; otherwise user turn first, input cleared, indicator hidden; success grows the transcript by exactly two turns; error and transport failure add only the user turn and their fixed message |
| Widget.AfterKey | static/script.js:142-147 | Enter without Shift sends; every other key leaves the state unchanged |
| Widget.ResourcesRequest | static/script.js:116-124 | no request while the panel is displayed; otherwise the request asks for Singapore |
| Widget.AfterToggle | static/script.js:116-137 | displayed: hide and relabel "Show Crisis Resources"; hidden and success: content is the text with every line feed turned into `<br>` (no line feed remains), shown, "Hide Resources"; missing field: nothing changes; failure: fixed "Unable to load…" text shown, label unchanged; the chat is never touched |
| Widget.Run | static/script.js:140-152 | no events leave the state unchanged; for a session of events, the last one acts on the state all the others left |
| Widget.Step | static/script.js:139-152 | every event keeps the transcript and messages as prefixes of what they become and adds only "user" and "assistant" turns |
| Widget.RunAppendOnly | static/script.js:9-88 | over any sequence of events the transcript and the message list are only appended to |
| Widget.RunKeepsClientRoles | static/script.js:27-79 | over any sequence of events every turn has role "user" or "assistant" |
| Widget.ToggleKeepsLabelAgreement | static/script.js:117-131 | hiding, a successful load and a reply without resources keep the label in step with the panel |
| Widget.FailedLoadKeepsShowLabel | static/script.js:132-135 | a failed load shows the panel while the label still reads "Show Crisis Resources", and the next click hides it |
| Widget.ToggleTwice | static/script.js:116-131 | from hidden, a successful load followed by a second click ends hidden with the "show" label and the loaded content kept |
| Widget.ChatWidget.constructor | static/script.js:1-9 | the fields start as `Initial` says |
| Widget.ChatWidget.AddMessage | static/script.js:90-102 | appends exactly one message and changes nothing else |
| Widget.ChatWidget.ShowTyping | static/script.js:105-108 | the indicator is shown, nothing else changes |
| Widget.ChatWidget.HideTyping | static/script.js:111-113 | the indicator is hidden, nothing else changes |
| Widget.ChatWidget.HandleReply | static/script.js:71-87 | the try/catch after the request produces the state `Settle` gives |
| Widget.ChatWidget.InitChat | static/script.js:12-39 | the fields become `AfterInit` of the old state |
| Widget.ChatWidget.SendMessage | static/script.js:42-88 | the fields become `AfterSend` of the old state and the posted history is `Request` of the old state |
| Widget.ChatWidget.KeyPress | static/script.js:142-147 | the default is prevented exactly for Enter without Shift, which then sends |
| Widget.ChatWidget.LoadResources | static/script.js:116-137 | the fields become `AfterToggle` of the old state; a request for Singapore is made only when the panel was hidden |
| EndToEnd.GreetingStartsTranscript | app.py:96-98 | a fresh page receiving the server's greeting holds exactly one assistant turn with it and shows it once |
| EndToEnd.ServerReplyIsRecorded | app.py:122-123 | because a reply is never empty, every answered message adds the user turn and then the assistant turn |
| EndToEnd.PostedHistoryRoles | app.py:113-116 | over any session, the posted history reaches the model in order with the new message last as "user", and "model" exactly at the widget's "assistant" turns |
| EndToEnd.ServedResourcesAreShown | static/script.js:124-131 | loading the server's own resources text into the hidden panel always shows it, relabelled, with no line feed left; the served text has no `<`, so turning the panel's `<br>` tags back into line feeds gives exactly the served text |

## Left out

- Flask routing, `jsonify`, `request.args`/`request.json`, CORS, `render_template` and `app.run` (app.py:18-19, 150-180) are web-framework plumbing. The `{"response": …}`, `{"error": …}` and `{"resources": …}` wrappers appear only as the `Payload` the widget receives.
- The `genai` configuration and the `generate_content` call (app.py:81-94, 119) are a foreign library. The model reply is the parameter `generate`.
- The `except` branch of `reply` (app.py:124-126) embeds a foreign exception's text and is not modelled. `Reply` covers the path where the model answers.
- The import/exit handling (app.py:8-16), the API-key check against the `config` module (app.py:75-79), and the `MODELS` and `SYSTEM_PROMPT` constants are not modelled. `config` is not part of this model, and the constants are only passed to the foreign library.
- The floating-point generation settings (app.py:88-93) are not modelled.
- DOM element creation, CSS classes, `scrollTop`/`scrollHeight` scrolling, `console.error` and the `fetch`/`await` mechanics are not modelled. Each network result is an `Outcome` parameter, and each operation runs to completion in one method call. `Submit` and `Request` expose the state at the moment of the request.
- Overlapping `sendMessage` calls and stale responses are not modelled. They depend on the event loop's interleaving, which is concurrency.
- `index.html` is not part of this model. The panel's initial content and the button's initial label are constructor parameters. At load the model assumes four things: the message list `chatMessages` is empty; the typing indicator is hidden; the input is empty; and `resourcesContent` has no inline `display: block`, so the panel counts as hidden (static/script.js:117 reads only the inline style).
- JSON fields of other types (numbers, objects, `null`) are not modelled; fields are absent or strings. A `null` body makes `data.response` throw, and `TransportFailure` stands for that case too.
- The `innerHTML` assignment is modelled as storing the string. HTML parsing is not modelled.
- Companion.RenderResources: requires the table to have a "General" key. Without one, app.py:131 raises `KeyError`, and that exception is not modelled. The server's own table has the key.
- Companion.ReplyText: proves the result is stripped only when it is not the fixed prompt. The fixed prompt is a long literal whose first and last characters the verifier does not read off cheaply.
- Companion.Reply: states non-emptiness and strippedness (outside the fixed prompt) only. It does not state which text the model produced, because `generate` is arbitrary.
- Companion.Start: states only that the greeting is non-empty. Being the same greeting on every call follows from `Start` having no parameters.
