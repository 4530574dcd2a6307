# KMN Prompt Generator — a Dafny model of its core

The KMN Prompt Generator is a single-page React application. A signed-in user picks a tool
(`coding`, `image` or `video`), fills in a topic, a context and a few tool-specific fields,
and gets a ready-made prompt. The prompt comes either straight from a fixed template or
from an LLM on OpenRouter, which rewrites the template draft. The OpenRouter key and model
are kept in the browser's local storage.

This project models the logic of `src/App.tsx` that is not rendering or I/O:

- `js_string.dfy` (module `JsString`): the two JavaScript string operations the application
  relies on. `String.prototype.trim` is modelled over the full ECMAScript whitespace and
  line-terminator set, and `a || b` on strings falls back only for `""`. Trim is
  characterised by lemmas: what it drops, when it yields `""`, that it is idempotent, and
  that it leaves an already-trimmed string alone.
- `prompt_template.dfy` (module `PromptTemplate`): `buildPrompt`.
  - Each tool's template literal is its list of literal strings plus the fields its
    placeholders show, and `Fill` evaluates a template literal.
  - The literal strings are built from each placeholder's label and the lines of the
    closing instructions, so lemmas can speak of the heading, the labels and the footer.
  - Generic lemmas about template literals (split at a placeholder, agreement, opening and
    closing text) carry the proofs about the three concrete templates.
- `settings.dfy` (module `Settings`): the OpenRouter settings. The class `SettingsStore`
  holds the storage as a `map<string, string>`, the two state cells the application reads,
  the two dialog drafts and the dialog notice. It models the load effect, `openSettings`,
  `saveSettings` and `clearKey`. The storage effects are also stated as functions, and the
  round-trip and frame lemmas are proved about those functions.
- `controller.dfy` (module `Controller`): the state-changing handlers of the main screen.
  - The class `App` models `generateTemplate`, `generateAI`, `onSignOut` and the Reset
    button.
  - `generateAI` is split at its `await`: `BeginGenerateAI` returns the request it sends,
    and `FinishGenerateAI` takes the reply. Other events, such as a sign-out, can therefore
    happen in between.
  - A ghost log of sent requests states the invariant that no request ever goes out
    without a non-empty key.
- `option.dfy` (module `Optional`): the `Option` type used for nullable state cells.

A refinement reply that arrives after sign-out is still written to `output` (lines
444-447 of `src/App.tsx`), because nothing in `generateAI` looks at the session.
`FinishGenerateAI` follows that: its contract does not depend on `authView`, and `SignOut`
does not cancel the pending request.

## Model

| member | source | states |
|---|---|---|
| JsString.Trim | src/App.tsx:290 | `trim` leaves no whitespace or line terminator at either end and never lengthens the string |
| JsString.TrimEmpty | src/App.tsx:413 | `s.trim()` is `""` exactly when `s` consists of whitespace only, which is what `!key.trim()` tests |
| JsString.TrimDropsEdges | src/App.tsx:290 | `s` is some whitespace, then `s.trim()`, then some whitespace: `trim` removes nothing but the two ends |
| JsString.TrimOfPadded | src/App.tsx:290 | whitespace + `m` + whitespace trims to exactly `m` when `m` has no whitespace at either end, which pins `trim` down uniquely |
| JsString.TrimIdempotent | src/App.tsx:290-291 | trimming an already trimmed value changes nothing |
| JsString.Or | src/App.tsx:74-77 | `s \|\| d` on strings is `s` when `s` is non-empty and `d` when `s` is `""`, so it is `""` only if both are |
| PromptTemplate.DefaultOf | src/App.tsx:74-123 | the default of every field is non-empty: the `\|\|` fallbacks of lines 74-77, 102-104 and 120-123, and `—` for topic and context |
| PromptTemplate.BuildPrompt | src/App.tsx:72-137 | `buildPrompt` evaluates the tool's template literal over the resolved values of its fields, and the prompt is never empty |
| PromptTemplate.LabelBeforeSlot | src/App.tsx:79-131 | each field of a tool has a placeholder in that tool's template, and the literal text right before it ends in the field's label |
| PromptTemplate.HeadingOpensTemplate | src/App.tsx:79-125 | the first literal string of each template starts with the tool's heading |
| PromptTemplate.FooterClosesTemplate | src/App.tsx:88-136 | the literal string after the last placeholder is exactly the tool's closing instructions, which are non-empty |
| PromptTemplate.TemplateSlots | src/App.tsx:79-131 | each template shows each of its own fields in exactly one placeholder and no field of another tool |
| PromptTemplate.NoBlankSlot | src/App.tsx:74-77 | no placeholder shows `""`: an empty field shows its non-empty default, and any other value, whitespace-only included, is shown unchanged |
| PromptTemplate.PromptSlot | src/App.tsx:79-86 | the prompt is the text before a field's placeholder (ending in its label), then `value \|\| default`, then the text after; setting that field changes only the placeholder |
| PromptTemplate.FieldSensitivity | src/App.tsx:74-77 | two values of one of the tool's fields give the same prompt exactly when they resolve alike: `""` and the default are interchangeable, and all other values give different prompts |
| PromptTemplate.SharedFieldShown | src/App.tsx:81-131 | every template has a topic and a context placeholder; each shows `—` when the value is empty and the value verbatim otherwise |
| PromptTemplate.EmptyFieldTakesDefault | src/App.tsx:74-77 | an empty field produces the same prompt as a field set to its default (TypeScript, React, …) |
| PromptTemplate.OnlyModeFieldsMatter | src/App.tsx:72-137 | two inputs whose own-tool fields resolve alike give the same prompt |
| PromptTemplate.OtherToolsFieldsIgnored | src/App.tsx:101-136 | setting a field of another tool never changes the prompt |
| PromptTemplate.PromptOpens | src/App.tsx:79-125 | every prompt starts with its tool's heading |
| PromptTemplate.PromptCloses | src/App.tsx:94-136 | every prompt ends with its tool's fixed closing instructions: the Output Format list for coding, the Output list for image and video |
| PromptTemplate.PromptFrame | src/App.tsx:72-137 | every prompt starts with its heading and ends with its footer, so it is never empty |
| PromptTemplate.FillSplit | src/App.tsx:79-86 | evaluating a template literal splits at any placeholder into the part before, the value shown, and the part after |
| PromptTemplate.FillAgrees | src/App.tsx:79-86 | placeholders showing the same values yield the same text |
| Settings.Saved | src/App.tsx:296-300 | the storage after a save holds the model entry, and holds the key entry exactly when the key is non-empty, with the saved values |
| Settings.Cleared | src/App.tsx:313 | the storage after clearing has no key entry and keeps every other entry |
| Settings.Loaded | src/App.tsx:236-237 | loading reads the key entry or `""`, and the model entry or the default model |
| Settings.AiReady | src/App.tsx:231 | the AI status shows ready when both the key and the model are non-blank |
| Settings.NoticeText | src/App.tsx:305-317 | both settings notices have non-empty text |
| Settings.ModelChoice | src/App.tsx:291 | `model.trim() \|\| 'openai/gpt-4o-mini'` is non-empty and trimmed: the trimmed model, or the default when that is blank |
| Settings.SavedPreference | src/App.tsx:290-291 | saving keeps the trimmed draft key and the chosen model |
| Settings.SaveThenLoad | src/App.tsx:289-300 | loading after saving gives back the trimmed key (`""` when blank) and the trimmed model (the default when blank) |
| Settings.SavedIsWellFormed | src/App.tsx:296-300 | after saving, the model entry always exists and is non-empty and trimmed; the key entry exists exactly when the trimmed draft key is non-empty, and is then trimmed |
| Settings.SaveKeepsOtherEntries | src/App.tsx:296-300 | saving touches no storage entry other than the two settings entries |
| Settings.ResaveIsIdentity | src/App.tsx:281-300 | opening the dialog and saving without edits leaves storage written by a save unchanged |
| Settings.SaveReadiness | src/App.tsx:231 | after saving, the AI status shows ready exactly when the trimmed draft key is non-empty |
| Settings.ClearKeyKeepsModel | src/App.tsx:309-314 | clearing the key loads back as no key with the model unchanged; every other entry is kept |
| Settings.SettingsStore.constructor | src/App.tsx:216-224 | the initial key is `""` and the initial model and draft model are the default |
| Settings.SettingsStore.Load | src/App.tsx:234-243 | the key cell gets the stored key or `""`, the model cell the stored model or the default; the cells agree with storage afterwards |
| Settings.SettingsStore.OpenSettings | src/App.tsx:281-287 | the drafts start from the current key and model, and the notice is cleared |
| Settings.SettingsStore.Save | src/App.tsx:289-307 | the cells get the saved preference, storage becomes the saved storage, the cells agree with storage and storage is well formed, and the saved notice is shown |
| Settings.SettingsStore.Persist | src/App.tsx:295-300 | writes the key entry, or removes it for an empty key, then writes the model entry |
| Settings.SettingsStore.ClearKey | src/App.tsx:309-319 | the draft key and the key cell become `""`, the key entry is removed, the model is untouched and cells that agreed with storage still agree |
| Controller.AiRequest | src/App.tsx:413-442 | a request is sent exactly when the trimmed key is non-empty; it carries the trimmed key, the chosen model and the draft, and both key and model are non-empty and trimmed |
| Controller.BlankKeyRefused | src/App.tsx:413-416 | no request is made exactly when the key is whitespace only |
| Controller.SavedSettingsReachRequest | src/App.tsx:418-442 | after saving a non-blank key, the request carries exactly the saved key and model |
| Controller.Improved | src/App.tsx:181 | the refined text is the reply's content with nothing removed but whitespace at both ends, so it is trimmed; it is `""` when the reply has no string content |
| Controller.ErrorText | src/App.tsx:414-449 | the missing-key, no-output and fallback error texts are non-empty; a thrown error shows its own message |
| Controller.InitialForm | src/App.tsx:196-211 | the form starts with an empty topic and context and every other field at its placeholder's default |
| Controller.InitialFormShowsDefaults | src/App.tsx:196-211 | every placeholder of the initial form shows its default |
| Controller.ClearedForm | src/App.tsx:377-379 | clearing empties topic and context and keeps every other field |
| Controller.ClearedFormPrompt | src/App.tsx:837-841 | after clearing, every template shows `—` for topic and context and keeps the rest of the form |
| Controller.App.constructor | src/App.tsx:188-227 | the initial screen state: the coding tool, the initial form, empty output, no error, the login view, and no request sent |
| Controller.App.GenerateTemplate | src/App.tsx:388-408 | clears the error, shows the template prompt for the current tool and form, and the output is non-empty |
| Controller.App.BeginGenerateAI | src/App.tsx:410-442 | a blank key sets the missing-key error and sends nothing; otherwise the request for the draft is sent and the screen is busy; `output` is unchanged either way and every request sent is usable |
| Controller.App.FinishGenerateAI | src/App.tsx:444-452 | a non-empty result replaces the output; an empty result or a failure sets the error and leaves the output unchanged; the screen is no longer busy |
| Controller.App.GenerateAI | src/App.tsx:410-453 | a blank key sets the missing-key error and changes nothing else on screen; otherwise the request for the draft is sent, and then a non-empty refined text replaces the output and clears the copied mark and the error, an empty one sets the no-output error, and a failure sets its message or the fallback error, both keeping the output; the screen ends not busy, and the output changes only to a non-empty refined prompt after a usable request |
| Controller.App.SignOut | src/App.tsx:374-386 | when the awaited sign-out call returns, whatever error result it carries, output, topic and context are cleared and the login view is shown with no notice or error; when it throws, nothing changes |
| Controller.App.ResetForm | src/App.tsx:837-842 | Reset clears topic, context, output and error |

## Left out

- The request to OpenRouter is not modelled: headers, JSON body, HTTP status handling and
  response parsing (`openRouterImproveDraft`, lines 139-181). It is an abstract `Reply`:
  content, no string content, or an error with or without a message.
- Supabase authentication and the session subscription are not modelled (lines 245-279,
  321-372). Whether the awaited `signOut` call returns or throws is a boolean parameter of
  `SignOut`; the `{ error }` it returns is never inspected by the source either.
- `StarryBackground` uses `Math.random` and floating-point layout values, and is left out.
- Rendering is left out: JSX, the copy-to-clipboard handler, the `setTimeout` calls that
  hide the settings notice, `showKey`, `settingsOpen`, and the auth form's own fields.
- Disabled buttons are not modelled: the generate buttons are disabled for a blank topic
  or while busy, and Reset while busy. The handlers are modelled without those
  preconditions, so every contract also covers calls the disabled buttons would prevent.
- Exceptions thrown by `localStorage` are not modelled. The source swallows them, and the
  storage is a total map here.
- `buildPrompt` takes `input: any`. The model passes a record of strings, as every caller
  in the application does. A missing property behaves like `""` under `||`.
- `Tool` is a three-valued datatype, so no value other than `coding`, `image` or `video`
  can reach `buildPrompt`. The final `video` fall-through therefore serves exactly `video`.
- Determinism of `buildPrompt` holds by construction: `BuildPrompt` is a Dafny function.
- Tool selection and field editing (`setTool`, the `onChange` handlers) are plain field
  assignments on `App` and have no methods of their own.
- The notices and error messages are datatypes. `NoticeText` and `ErrorText` give their
  texts. The thrown-error path is folded into `AiError`: `e?.message ?? …` shows
  `Thrown(message)`, or `Unexplained` when the error has no message.
