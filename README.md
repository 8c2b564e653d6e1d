# Coachable voice chat: a Dafny model of the `App` component

Coachable is a single-page voice-chat front end over a third-party voice SDK.
Its one component, `App` (`src/App.tsx`), does three things of its own:

- it normalises each inbound message of unknown shape into a display string (`extractText`);
- it appends one role-tagged entry to the transcript for every truthy user or assistant message;
- it keeps a text draft, and its guarded submit sends the trimmed draft once and clears it.

Everything else is delegated to the SDK. This project models those three pieces and proves
what they promise.

Files and modules:

- `wrappers.dfy`, module `Wrappers`: `Option`. `None` stands for a `JSON.stringify` that throws.
- `trim.dfy`, module `StringTrim`: ECMA-262 white space and line terminators, and
  `String.prototype.trim` defined by recursion on that predicate.
- `message.dfy`, module `MessageText`: JavaScript values as the normaliser sees them (`Value`).
  It holds `isRecord`, JavaScript truthiness, property reads and `extractText`. Beside them is an
  independent ranked-candidates statement of the precedence, with one lemma per rule.
- `app.dfy`, module `VoiceChat`: transcript entries, the pure function `Transcript` from
  notifications to entries, and class `App`. `App` has the fields `status`, `draft`, `chat` and
  `sent`, where `sent` is the log of `sendUserInput` calls. It also has a ghost history
  `received` of the notifications seen so far. Its invariant `Valid()` says two things: `chat` is
  `Transcript(received)`, and every sent text is trimmed and non-blank.

`JSON.stringify` is a parameter of the model (`stringify: Value -> Option<string>`). It is fixed
when `App` is constructed, so every property holds for any serialiser, including one that throws.
The connection status is the collaborator's `status.value` string. `StatusChanged` gives it a new
value. `IsConnected` and `CanSend` are derived from it on every read, never cached.

`handleSend` (src/App.tsx:73-78) does not check the connection. Only the Enter guard
(src/App.tsx:115) and the Send button's `disabled={!canSend}` (src/App.tsx:118) test `canSend`. So
`HandleSend` sends a non-blank draft whatever the status, and `OnKeyDown` is gated by `CanSend`.

## Model

| member | source | states |
|---|---|---|
| `StringTrim.LeadingSpace` | src/App.tsx:74 | the white space `trim` strips at the front: every counted character is white space and the next one is not |
| `StringTrim.TrailingSpace` | src/App.tsx:74 | the white space `trim` strips at the back: every counted character is white space and the one before is not |
| `StringTrim.Trim` | src/App.tsx:74 | neither end of `input.trim()` is white space, and it is empty iff the input is all white space (both directions) |
| `StringTrim.TrimIsSlice` | src/App.tsx:74 | the trimmed text is the contiguous slice of the input between the stripped ends, so internal white space is kept and only white space is removed |
| `StringTrim.TrimmedIsFixpoint` | src/App.tsx:74 | a text with no white space at either end is left unchanged by trimming |
| `StringTrim.TrimIdempotent` | src/App.tsx:74 | trimming the trimmed text changes nothing |
| `StringTrim.TrimPaddedWord` | src/App.tsx:74 | `"  hello  "` trims to `"hello"` |
| `StringTrim.TrimBlankAndInner` | src/App.tsx:74-75 | `"   "` and `""` trim to `""`, which `!text` treats as nothing to send; `"a b"` keeps its inner space |
| `MessageText.FirstPresent` | src/App.tsx:27-50 | the first present candidate in a ranked list, with every earlier candidate absent; absent iff all are absent |
| `MessageText.ExtractTextIsFirstPresent` | src/App.tsx:27-50 | `extractText` is `''` on non-records; on records it is the first present of nested `message.content`, `content`, `text` and the serialisation, or `''` when all are absent |
| `MessageText.ExtractTextFromCandidates` | src/App.tsx:27-50 | the displayed text is never invented: it is `''` or one of the message's candidate texts |
| `MessageText.NonRecordIsEmpty` | src/App.tsx:24-28 | undefined, null, booleans, numbers, strings and functions all give `''` |
| `MessageText.NestedContentWins` | src/App.tsx:32-35 | a string `message.message.content` is the result, whatever the outer `content` and `text` hold |
| `MessageText.ContentBeatsText` | src/App.tsx:37-39 | without a nested string content, a string top-level `content` is the result, whatever `text` holds |
| `MessageText.TextAsThirdChoice` | src/App.tsx:41-43 | when neither content alternative is a string, a string `text` is the result |
| `MessageText.TextIgnoredBesideContent` | src/App.tsx:33-43 | while either content alternative is a string, replacing `text` with any value does not change the result |
| `MessageText.NonStringNestedFallsThrough` | src/App.tsx:32-37 | a non-object or array `message.message`, or a non-string `message.message.content`, is skipped: the result is that of the message without `message`, serialising the original |
| `MessageText.SerialisedFallback` | src/App.tsx:45-49 | with no string field to show, the result is the serialisation of the whole message, or `''` when serialisation throws |
| `MessageText.ExtractTextExamples` | src/App.tsx:27-50 | `{message:{content:"hi"}}`, `{content:"hi"}` and `{text:"hi"}` give `"hi"`; `{}` gives its serialisation; a throwing serialiser gives `''` |
| `VoiceChat.Transcript` | src/App.tsx:52-68 | the notifications in arrival order produce at most one entry each |
| `VoiceChat.TranscriptAppend` | src/App.tsx:54-57 | later notifications only append after the existing entries, which are never edited or removed |
| `VoiceChat.StreamsIndependent` | src/App.tsx:52-68 | however the two streams interleave, the entries with a role are exactly the normalised truthy messages of that role's stream, in arrival order |
| `VoiceChat.TranscriptLength` | src/App.tsx:52-68 | every entry stands for exactly one truthy notification: the transcript is as long as the two streams' truthy messages together |
| `VoiceChat.App.constructor` | src/App.tsx:22 | on mount the transcript is empty (`useState([])`), the draft is `''` (`useState('')` at line 70) and nothing has been sent; the invariant holds |
| `VoiceChat.App.CanSend` | src/App.tsx:71 | true iff `status.value` is `'connected'` and the draft has a character that is not white space; so false while disconnected and false for a blank draft |
| `VoiceChat.App.StatusChanged` | src/App.tsx:6-19 | a new status from the collaborator, delivered through `useVoice()`, replaces `status`, touches nothing else and keeps the invariant |
| `VoiceChat.App.OnInputChange` | src/App.tsx:110 | the draft becomes the field's text verbatim, untrimmed, nothing else changes and the invariant is kept |
| `VoiceChat.App.HandleSend` | src/App.tsx:73-78 | a blank draft sends nothing and keeps the draft; otherwise exactly one send of the trimmed draft is appended and the draft becomes `''`; every sent text stays trimmed and non-blank |
| `VoiceChat.App.OnKeyDown` | src/App.tsx:114-116 | Enter while `CanSend` submits the trimmed draft; any other key, or Enter while `CanSend` is false, sends nothing and keeps the draft |
| `VoiceChat.App.OnUserMessage` | src/App.tsx:52-59 | a truthy `lastUserMessage` appends exactly one `user` entry holding its `extractText` at the end; a falsy one leaves `chat` as it was; draft and sends are untouched |
| `VoiceChat.App.OnVoiceMessage` | src/App.tsx:61-68 | a truthy `lastVoiceMessage` appends exactly one `assistant` entry holding its `extractText` at the end; a falsy one leaves `chat` as it was |
| `VoiceChat.App.HandleConnect` | src/App.tsx:8-17 | a rejected connect is caught and its error reported, never raised; either way no component field changes (the method modifies nothing) |
| `VoiceChat.SubmitPadded` | src/App.tsx:114-116 | connected, a draft `"  hello  "` submitted by Enter is sent once as `"hello"` and the draft becomes `''` |
| `VoiceChat.SubmitBlank` | src/App.tsx:73-78 | connected, a draft `"   "` is sent neither by Enter nor by calling the submit handler, and the draft stays `"   "` |
| `VoiceChat.SubmitDisconnected` | src/App.tsx:114-116 | after the status changes away from `'connected'`, Enter sends nothing, even for the non-blank draft `"a b"`, which stays |

## Left out

- The SDK calls `connect`, `disconnect` and `sendUserInput`, and the status updates, are foreign calls. `sendUserInput` is modelled only as an append to `sent`. A status update is modelled only as `StatusChanged`. The disconnect button, which calls the SDK directly, is not modelled.
- `HandleConnect` does not model the `await`, the configuration it sends (API key and config id from the build environment), or the formatting of `console.error`. It models only that a failure is caught and reported.
- `JSON.stringify` is left a parameter. Its algorithm is not modelled. A record whose `toJSON` returns `undefined` makes `JSON.stringify` return `undefined`, not a string; the model does not represent that case.
- `Value` does not model all JavaScript values. Numbers are integers, so NaN, `-0` and fractions are not modelled; they matter here only for truthiness. BigInt, getters that throw, and named properties on arrays are not modelled either.
- Strings are sequences of Unicode scalar values, not UTF-16 code units. A lone surrogate cannot be written. Every ECMA-262 white-space code point is in the Basic Multilingual Plane, so trimming and the `length > 0` test agree with the source on every other string.
- The `time: new Date()` field of a chat item is left out, because it comes from the clock.
- React effect scheduling, batching, re-render order and StrictMode double invocation are left out. Each notification is one sequential call of `OnUserMessage` or `OnVoiceMessage`. The model assumes an effect runs once for each change of the message slot's identity. The first run on mount sees a falsy `null`.
- Rendering is left out: JSX, styles, placeholders, the "No messages yet." line and the `disabled` attributes. So is the Send button, whose `disabled={!canSend}` is rendering. `OnKeyDown` is the modelled guarded path, and `HandleSend` is the unguarded handler.
- `src/main.tsx` (React root, `StrictMode`, `VoiceProvider`) is framework wiring with no logic and is not part of this model.
