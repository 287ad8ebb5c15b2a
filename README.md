# Mandarin shadowing: server post-processing and the sentence view

A Dafny model of the two pieces of logic in the mandarin-shadowing practice
app.

- **The Flask service** (`server.dfy`, module `Server`) covers several parts of `server/app.py`:
  - the index-to-sentence table;
  - the GET routes for a sentence and its audio;
  - the validation order of the transcribe route;
  - the rewrite of an ASCII `?` in the transcribed text to the fullwidth `？`;
  - the rule that copies the content's closing punctuation onto the pinyin;
  - `match_indices`. It turns difflib's matching blocks into grouped matched
    offsets and flat missed offsets for the transcription side and the native side.
- **The sentence view** (`app.dfy`, module `App`) is the `SentenceView` component of
  `ui/src/App.tsx`. It is a class with the component's state cells and one
  method per event:
  - a router-location change;
  - a completed sentence fetch;
  - a completed native-audio fetch;
  - a completed second audio fetch, which fills the recorded-audio cell;
  - a completed transcription;
  - a click on the record button.

  Each method is tied to a pure transition function `Step`, and the view's invariant
  is proved over any sequence of events. The two transcription panels and the
  choice of page are pure functions of the state.
- `types.dfy` (module `Types`) gives the record shapes of `ui/src/types.ts`.

Things the model takes as parameters:
- the speech-to-text text;
- the pinyin the word segmenter and pinyin engine produce;
- difflib's matching blocks;
- the bodies of fetched files and of completed requests.

`URL.createObjectURL` is modelled by a counter, so every URL it returns is new.
The view's requests to the service are kept in a log field, `issued`.

The code does not:
- reject a stale transcription;
- clear the transcription when a new recording arrives;
- release an object URL;
- colour characters by match/miss.

## Model

| member | source | states |
|---|---|---|
| Server.IndexToSent | server/app.py:24 | The table's keys are exactly the indices carried by some sentence of the list, and each key maps to a sentence of the list that carries that key. |
| Server.IndexToSentKeepsLast | server/app.py:24 | When several sentences share an index, the table holds the last of them. |
| Server.AudioPath | server/app.py:27 | `os.path.join('audio', name)`: an absolute name is kept as it is, any other name is placed under `audio/` unchanged. |
| Server.GetSentence | server/app.py:38-43 | Status 200 iff the index is a key of the table, and the response then holds the table's sentence; otherwise a 404 with the "Sentence not found for index" body. |
| Server.GetSentenceAudio | server/app.py:46-52 | Status 200 iff the index is a key, and the response then names the sentence's audio file under `audio/`; otherwise a 404 with the "Sentence audio not found for index" body. |
| Server.LookupServesLastSentence | server/app.py:24-52 | Over the table built from a sentence list, both GET routes serve the last sentence that carries the requested index. |
| Server.LookupRejectsUnknownIndex | server/app.py:40-52 | An index that no sentence of the list carries gets 404 from both GET routes. |
| Server.Transcribe | server/app.py:55-128 | 404 iff the index is unknown, so an unknown index with a missing upload still gets 404. 400 iff the index is known and the `file` part is missing. Otherwise the response holds the rewritten transcription, the sentence's content and pinyin, the pinyin after the punctuation rule, and, for both pairs, the four lists `match_indices` yields for the given blocks. |
| Server.ReplaceQuestion | server/app.py:78 | The result has the raw text's length and contains no ASCII `?`. Each `?` becomes `？` and every other character is unchanged. |
| Server.ReplaceQuestionIdempotent | server/app.py:78 | Rewriting an already rewritten text changes nothing. |
| Server.MirrorPunctuation | server/app.py:87-93 | The pinyin is either returned unchanged or has exactly one character appended after its unchanged prefix. |
| Server.EndsWith | server/app.py:88-93 | `str.endswith` for one character: the string is non-empty and its last character is that one. Its use in the chain is stated by `Server.MirrorPunctuationByLastChar`. |
| Server.MarkFor | server/app.py:88-93 | Pairs `？`, `。` and `！` with `?`, `.` and `!` and no other character with a mark. `Server.MirrorPunctuationByLastChar` proves the if/elif chain applies exactly this pairing. |
| Server.MirrorPunctuationByLastChar | server/app.py:88-93 | If the content ends with `？`, `。` or `！`, the result is the pinyin with `?`, `.` or `!` appended unless the pinyin already ends with that mark, and it always ends with that mark. Any other content leaves the pinyin unchanged. |
| Server.MirrorPunctuationIdempotent | server/app.py:88-93 | Applying the rule again, with the same content, to its own output changes nothing. |
| Server.Run | server/app.py:142 | `list(range(start, start + size))` has length `size`, holds `start + j` at position `j`, and contains exactly the offsets of `[start, start + size)`. |
| Server.Flatten | server/app.py:144-148 | The groups concatenated in block order, as the successive `extend`s build `all_a_matched_indices` and `all_b_matched_indices`. Its membership is stated by `Server.FlattenMember`. |
| Server.FlattenMember | server/app.py:141-148 | An offset is in the concatenation of the groups iff it is in one of the groups. |
| Server.Missed | server/app.py:150 | The comprehension holds exactly the offsets `0..n-1` that are not in the matched list, in strictly ascending order. |
| Server.Aligned | server/app.py:141-152 | The four lists `match_indices` returns: one run per block on each side, in block order; the a-side missed list over the offsets of `a`; the b-side missed list also over the offsets of `a`. `Server.MatchIndices` establishes it, and the partition lemmas below state what it implies. |
| Server.MatchIndices | server/app.py:131-152 | The loop builds one group per block on each side, in block order; the group for block `(a, b, size)` is the run from `a` (or from `b`) of length `size`. The a-side missed list is computed over the offsets of `a` against the a-side groups. The b-side missed list is also computed over the offsets of `a`, against the b-side groups. |
| Server.GroupsCover | server/app.py:141-148 | An offset is among a side's flattened groups iff some block covers it on that side. |
| Server.TranscriptionSidePartition | server/app.py:141-150 | The a-side missed list is exactly the offsets of `a` that no block covers, in ascending order, and it is disjoint from the a-side matched offsets. With in-bounds blocks, matched and missed together are exactly the offsets of `a`. |
| Server.NativeSideAsWritten | server/app.py:146-151 | The b-side missed list is exactly the offsets below `len(a)` that no block covers on the b side. No offset at or beyond `len(a)` ever appears in it. |
| Server.NativeMissedReportsPastNativeEnd | server/app.py:151 | With in-bounds blocks, every offset from `len(b)` up to `len(a) - 1` is in the native missed list, although it lies past the end of the native string. |
| Server.NativeMissedAsWritten | server/app.py:151 | The list the server sends holds exactly the offsets below `len(a)` that are absent from the b-side matched offsets. |
| Server.NativeMissedIntended | server/app.py:151 | The corrected list holds exactly the offsets below `len(b)` that are absent from the b-side matched offsets. |
| Server.NativeSideIntendedPartition | server/app.py:151 | With in-bounds blocks, the corrected list and the b-side matched offsets together are exactly the offsets of `b`. |
| Server.NativeMissedDropsTrailingMark | server/app.py:151 | For transcription "你在想什么", native "你在想什么？" and blocks (0,0,5), (5,6,0), the lists are as `match_indices` builds them. Native offset 5 is in no group, yet the native missed list is empty. |
| Server.NativeMissedIntendedReportsTrailingMark | server/app.py:151 | On the same pair, the corrected list is `[5]`. |
| App.RecordButtonShowsRecording | ui/src/App.tsx:89-97 | The button is red with the pause icon exactly while recording, and teal with the mic icon exactly when not. |
| App.RecordButton | ui/src/App.tsx:89-97 | The effect on `recording`: red with Pause when recording, teal with Mic otherwise. `App.RecordButtonShowsRecording` states that each look occurs exactly for one value of the flag. |
| App.FetchesFor | ui/src/App.tsx:106-131 | The three fetch effects: for a non-null location, the sentence fetch, then the native audio fetch, then the second audio fetch, all for its index; nothing for a null location. `App.LocationChangeClears` states this of a location change. |
| App.Step | ui/src/App.tsx:89-139 | One event followed by the effects it triggers, in the order the component declares them: the request log only grows and the URL counter never decreases. `App.StepKeepsConsistent`, `App.LocationChangeClears`, `App.NullAudioIgnored`, `App.RecordedAudioPostsTranscription` and `App.RecordClickedTwiceRestores` state its behaviour. |
| App.Mount | ui/src/App.tsx:76-139 | The `useState`/`useReducer` initial values followed by one run of every effect: the view sits at the location, is not recording, has made no URL, and has sent exactly the fetches for the location. `App.MountIsConsistent` and `App.RecordClickedTwiceRestores` state that it is consistent and that `recording` starts false for every location. |
| App.MountIsConsistent | ui/src/App.tsx:76-104 | The session right after mounting meets the view's invariant. |
| App.StepKeepsConsistent | ui/src/App.tsx:76-139 | Every event preserves the invariant. The button matches the flag, every held or posted URL was made earlier, the two audio cells never share a URL, and the recorded URL has been posted for transcription. |
| App.RunKeepsConsistent | ui/src/App.tsx:76-139 | Any sequence of events from a consistent session ends in a consistent session. |
| App.RecordClickedTwiceRestores | ui/src/App.tsx:81-97 | `recording` starts false for every location, each click negates it, and two clicks restore the whole session. |
| App.LocationChangeClears | ui/src/App.tsx:99-131 | A location change clears the sentence, both audio URLs and the transcription, and keeps the recording flag and the button. It adds the sentence fetch and the two audio fetches to the log only for a non-null location. |
| App.NullAudioIgnored | ui/src/App.tsx:111-131 | A completed audio fetch with a null body leaves the session unchanged. |
| App.RecordedAudioPostsTranscription | ui/src/App.tsx:122-139 | A recorded file gets a URL that neither audio cell held and no earlier request named. Exactly one request is then added: the transcription of that URL. |
| App.TranscriptionNotMatchedToRecording | ui/src/App.tsx:133-139 | After two recordings and then one transcription, both URLs have been posted, the second URL is current, and the transcription is shown beside it with no check of which request it answers. |
| App.EarlierTranscriptionShownWithNewRecording | ui/src/App.tsx:99-139 | A transcription that completes after a location change is installed. The recording that arrives next does not clear it, so both panels show that transcription instead of a spinner. |
| App.PanelsAgree | ui/src/App.tsx:50-72 | Both panels are empty text without a recorded URL, and both are spinners exactly when there is a recorded URL and a null transcription. Otherwise they show the transcription's content (6xl) and pinyin (4xl). |
| App.TranscribedContent | ui/src/App.tsx:50-60 | A spinner exactly while a recorded URL is held and the transcription is null; otherwise 6xl text: empty without a recorded URL, else the transcription's content. `App.PanelsAgree` states this. |
| App.TranscribedPinyin | ui/src/App.tsx:62-72 | A spinner exactly while a recorded URL is held and the transcription is null; otherwise 4xl text: empty without a recorded URL, else the transcription's pinyin. `App.PanelsAgree` states this. |
| App.PageAfterLocationChange | ui/src/App.tsx:141-279 | After a location change the page reads "No sentence selected" for a null location and "Sentence loading ..." otherwise. Once a sentence arrives, the full page shows it, with empty transcription panels. |
| App.Render | ui/src/App.tsx:141-279 | "No sentence selected" for a null location, "Sentence loading ..." while the sentence is null, otherwise the full page with the sentence, both audio URLs, the button and both panels. `App.PageAfterLocationChange` and `App.RenderedButtonShowsRecording` state its behaviour. |
| App.RenderedButtonShowsRecording | ui/src/App.tsx:213-221 | In any session reached from mounting, the full page's record button shows the colour and icon of the current flag. |
| App.SentenceView.constructor | ui/src/App.tsx:74-139 | The cells start null, false, teal and Mic; the mount effects then run once, and the object meets the invariant. |
| App.SentenceView.CreateObjectUrl | ui/src/App.tsx:115 | Each call returns a URL that no earlier call returned. |
| App.SentenceView.Select | ui/src/App.tsx:99-131 | The reset effect clears the four cells and keeps `recording`. The fetch effects add exactly the three requests for a non-null location. The new state is `Step` of the old one. |
| App.SentenceView.SentenceLoaded | ui/src/App.tsx:106-109 | The fetched data is installed as it is, null included. |
| App.SentenceView.NativeAudioLoaded | ui/src/App.tsx:111-120 | A non-null file installs a new URL. A null file leaves `nativeAudio` unchanged. |
| App.SentenceView.RecordedAudioLoaded | ui/src/App.tsx:122-139 | A non-null file installs a new URL in `recordedAudio` and posts that URL for transcription. A null file changes neither the cell nor the log. |
| App.SentenceView.ToggleRecording | ui/src/App.tsx:81-97 | The flag is negated, and the colour and icon follow the new flag. |
| App.SentenceView.TranscriptionLoaded | ui/src/App.tsx:133-139 | The completed transcription is installed unconditionally. |

## Left out

- difflib's `SequenceMatcher` is not modelled (server/app.py:137-139). Its matching blocks are a parameter. Properties that need the blocks to lie inside both strings say so with `InBounds`.
- The whisper model, jieba segmentation, hanzidentifier, xpinyin and `str.capitalize` are not modelled (server/app.py:69-87). These are foreign libraries, so their text output is an input to `Server.Transcribe`.
- Flask and file I/O are not modelled: routing, CORS, loading `sentences.json`, saving the upload, `send_file` and `print`. Responses are the `Response` datatype, and the GET route for the whole list only returns the loaded list.
- `ui/src/sentences-api-client.ts` is not part of this model. A 404 there returns a promise that never settles, so a missing sentence or audio file simply produces no event. Its `transcribe` posts to `/transcribe` without an index, which is not the server's `/sentences/<index>/transcribe` route. The model keeps the two sides separate and does not join them.
- `App.SentenceView.TranscriptionLoaded` takes the installed value as an opaque `Option<Transcription>`. App.tsx installs `data.transcription`, but the response type in `ui/src/types.ts` declares no such field, and the `Transcription` type App.tsx imports is not declared there. The model keeps only the `content` and `pinyin` the panels read.
- The server sends the missed lists flat. `ui/src/types.ts` declares them as nested arrays. `Types.AlignmentField` follows the server.
- React's effect scheduling and network latency are not modelled. Each completion is one event, and every effect of an event runs before the next event.
- SentenceNav, the JSX layout and the Chakra theme are not modelled. `Render` keeps only the page choice and what the full page displays.
- Absent from the code, so not modelled: microphone capture (the button only flips the flag), release of object URLs, rejection of stale responses, and character-level match/miss colouring.

## Findings

| source | as written | input that shows it | evidently intended | confidence | as-written member | corrected member |
|---|---|---|---|---|---|---|
| server/app.py:151 | the native-side missed list enumerates the offsets of the transcription `a` | transcription "你在想什么", native "你在想什么？", blocks (0,0,5), (5,6,0): the native `？` at offset 5 is unmatched, yet the list is empty. Conversely, a transcription longer than the native string makes the list report offsets past the native string's end (`Server.NativeMissedReportsPastNativeEnd`) | enumerate the native string `b`, which gives `[5]` | not executed | Server.NativeMissedDropsTrailingMark | Server.NativeMissedIntended |

`Server.MatchIndices` and `Server.Transcribe` still compute the as-written list, because that is the response the server sends. The corrected definition and its partition property (`Server.NativeSideIntendedPartition`) sit beside it.
