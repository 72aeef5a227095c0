# easysubs subtitle core, modelled in Dafny

This project models the two stateful pieces of the easysubs subtitle pipeline.

**The YouTube adapter** (`src/streamings/youtube.ts`):
- **The track cache.** Every caption URL the page requests is recorded per video and per language. Each video's languages are kept in insertion order, because "the first cached URL" decides several outcomes.
- **The language resolver.** `getSubs` decides which URL to fetch for a requested label:
  - `""` means no subtitles.
  - `"auto"` means the original-language track.
  - Any other code gives an exact cache hit, or a machine-translation request made by setting `tlang`.
- **The timedtext decoder.** It turns the downloaded `events` array into `{start, end, text}` cues.

**The subtitle store** (`src/models/subs/init.ts`): the reactive wiring of the raw list, the current cues, the title, the delay and the dual (secondary) track. It is modelled as one object with one method per event. Each method returns the effects it starts, such as a fetch or an auto-pause. The effects' results come back as further events.

Files:
- cues.dfy: `Option` and the `Cue` value.
- `youtube_tracks.dfy`: the cache, resolver and decoder as functions over values, with their lemmas.
- youtube.dfy: the `Youtube` adapter class. It holds `subCache`, records caption URLs in place, and has a step-by-step `GetSubs` proved equal to the resolver function.
- `subs_rules.dfy`: the pure reducers and filters. These are the fragment merge, the keep-if-equal update and the auto-pause test.
- subs.dfy: the `SubsStore` class, with one method per event.

Abstractions:
- A caption URL is the map of its query parameters (`Locator`). A missing parameter reads as `""`. Every use in the adapter treats `null` and `""` alike, so nothing is lost.
- A JavaScript object used as a dictionary is an association list in insertion order. Assigning an existing key keeps that key's position.
- Store identity is modelled by a version number. It changes exactly when the store takes a new object, and only that wakes its subscribers.
- Playback time is integer milliseconds.

Two facts about the fragment merge reducer (`src/models/subs/init.ts:105-115`):
- **A repeated cue.** When the last cue of the raw list and the first cue of a new fragment share their text or their start, the reducer does not drop the repeated cue and does not append the fragment. It returns `undefined`, and the raw list stays as it was (`SubsRules.RepeatedTextIsSkipped`).
- **Fragment by fragment.** Merging fragments one at a time differs from merging their concatenation. The step-by-step result also seals the last cue of the first fragment (its end becomes its start). `SubsRules.MergeTwice` states the exact difference.

In the store library, a later `.on` for a trigger replaces the reducer an earlier `.on` registered for the same trigger. So `rawSubsAdded`, listed among the wholesale-replace triggers at `src/models/subs/init.ts:101`, goes only through the merge reducer at line 105.

Under the cache invariant, the branch of `getSubs` that deletes `tlang` on a cache miss (`src/streamings/youtube.ts:115-117`) cannot be reached. The invariant says every URL is stored under its own track language. So a miss on the first cached URL always yields a translation request (`YoutubeTracks.LanguageResolution`). `YoutubeService.Youtube.GetSubs` requires the invariant and states the consequence.

## Model

| member | source | states |
|---|---|---|
| `YoutubeTracks.IndexOfKey` | src/streamings/youtube.ts:105 | the position found is the first entry with that key, or the end when no entry has it |
| `YoutubeTracks.Lookup` | src/streamings/youtube.ts:105 | a cache lookup misses exactly when no entry has the key; with unique keys a hit returns that key's URL |
| `YoutubeTracks.Put` | src/streamings/youtube.ts:187 | assigning a new language appends it at the end; assigning an existing one replaces its URL in place and leaves every other entry and position as it was |
| `YoutubeTracks.PutLookup` | src/streamings/youtube.ts:186-187 | after recording, the language maps to the new URL, every other language maps to what it did, and keys stay unique |
| `YoutubeTracks.PutWellKeyed` | src/streamings/youtube.ts:183-187 | recording a URL under its own tlang-else-lang keeps every entry keyed by the language its URL delivers |
| `YoutubeService.Youtube.constructor` | src/streamings/youtube.ts:28-33 | the adapter starts with an empty cache and no current language |
| `YoutubeService.Youtube.HandleCaptionsData` | src/streamings/youtube.ts:181-188 | the URL is stored under (its `v`, its tlang-else-lang); other languages of that video and all other videos are unchanged; the cache invariant is kept |
| `YoutubeService.Youtube.HandleCaptionsChanges` | src/streamings/youtube.ts:190-193 | the current language becomes the reported one; the store's title follows it; an empty language empties the raw list and any other leaves it; the effects are the fetch of the language (unless empty or the custom label), a recompute of current cues when the raw list changed, and the "auto" dual refetch while dual is enabled |
| `YoutubeService.Youtube.GetSubs` | src/streamings/youtube.ts:42-147 | the step-by-step resolution chooses exactly the URL the resolver specifies; no fetch gives an empty cue list; otherwise the cues are the decoding of what the URL returns; an empty label never fetches; on a cache that keeps the adapter's invariant, a language code fetches nothing only when the video has no cached URL, and otherwise fetches a URL that delivers that code |
| `YoutubeTracks.TrackLanguage` | src/streamings/youtube.ts:183 | the language a URL delivers is its non-empty `tlang`, else its `lang`, and is empty only when both are |
| `YoutubeTracks.Resolve` | src/streamings/youtube.ts:42-121 | an empty label never fetches; nothing is fetched from an empty cache; any other language code with a non-empty cache always fetches |
| `YoutubeTracks.ResolveOriginal` | src/streamings/youtube.ts:50-101 | "auto" fetches nothing exactly when the cache is empty or its first URL has no `lang`; otherwise the URL is untranslated and in that `lang` |
| `YoutubeTracks.ResolveLanguage` | src/streamings/youtube.ts:103-121 | no fetch exactly on an empty cache; a cached code is returned verbatim; a miss whose code differs from the first URL's language sets `tlang` to the code on that URL, which then delivers the code; a miss whose code equals that language removes `tlang` from it |
| `YoutubeTracks.FirstOriginal` | src/streamings/youtube.ts:75-80 | the first cached URL whose `lang` is the original language and which has no `tlang`, or the end when there is none |
| `YoutubeTracks.OriginalResolution` | src/streamings/youtube.ts:61-99 | "auto" fetches nothing exactly when the cache is empty or the first URL has no `lang`; otherwise the URL has no `tlang` and its `lang` is the first URL's `lang` |
| `YoutubeTracks.OriginalPrefersCachedTrack` | src/streamings/youtube.ts:70-92 | "auto" returns the first cached untranslated original-language URL verbatim; with none, the first cached URL with `tlang` removed |
| `YoutubeTracks.LanguageResolution` | src/streamings/youtube.ts:103-121 | for a language code: no fetch only on an empty cache; a cached code is returned verbatim; a miss sets `tlang` to the code on the first cached URL; the fetched URL always delivers the requested language |
| `YoutubeTracks.AutoPicksUntranslatedTrack` | src/streamings/youtube.ts:50-92 | with an English track and its Spanish translation cached in either order, "auto" fetches the untranslated English URL |
| `YoutubeTracks.AutoRetriesAfterRecord` | src/streamings/youtube.ts:61-92 | "auto" on an empty cache fetches nothing; after an original English URL is recorded, the same request fetches it |
| `YoutubeTracks.JoinSegsAppend` | src/streamings/youtube.ts:143 | segment texts are joined in order: the text of two runs is the first's text followed by the second's |
| `YoutubeTracks.DecodeEvent` | src/streamings/youtube.ts:129-144 | an event without segments is an empty cue at its start; with segments the text is their joined text and the duration is the last offset when non-zero, else the event duration; empty segments throw |
| `YoutubeTracks.Decode` | src/streamings/youtube.ts:129-145 | one cue per event in the same order; it fails exactly when some event has an empty segment list |
| `YoutubeTracks.DecodedCueOrdered` | src/streamings/youtube.ts:138 | with a non-negative duration and offsets, a decoded cue never ends before it starts |
| `SubsRules.MergeFragment` | src/models/subs/init.ts:105-115 | into an empty list the fragment is taken as is; when the last cue differs from the fragment's first in both text and start, the earlier cues are kept, the last is sealed, and the fragment follows (length is the sum); sharing text or start gives no update; an empty fragment after a non-empty list throws |
| `SubsRules.MergeAppends` | src/models/subs/init.ts:106-113 | whenever the reducer appends, the result is the old list with its last cue sealed, followed by the fragment |
| `SubsRules.MergeTwice` | src/models/subs/init.ts:105-115 | merging two fragments in turn equals merging their concatenation except that the first fragment's last cue is sealed; the two agree exactly when that cue already ends at its start |
| `SubsRules.RepeatedTextIsSkipped` | src/models/subs/init.ts:110-115 | a fragment whose first cue repeats the last cue's text is not merged |
| `SubsRules.KeepIfEqual` | src/models/subs/init.ts:118-120 | the store holds the computed list, and keeps its old identity exactly when the content is equal |
| `SubsRules.KeepIfEqualIdempotent` | src/models/subs/init.ts:162-164 | applying the same computed list twice changes nothing the second time |
| `SubsRules.ShouldAutoPause` | src/models/subs/init.ts:61-72 | pause exactly when a first current cue exists, auto-pause is on, and playback is strictly within the last 250 ms before that cue ends |
| `SubsModel.DualFetch` | src/models/subs/init.ts:128-140 | the dual track is fetched, in the chosen language, only when it is enabled and a language is chosen |
| `SubsModel.SubsStore.constructor` | src/models/subs/init.ts:2-32 | every store starts empty (lists empty, title and language empty, delay 0, version 0) with the given settings |
| `SubsModel.SubsStore.LanguageChanged` | src/models/subs/init.ts:35-53 | the title becomes the language; a non-empty language other than the custom label is fetched; an empty one empties the raw list; an "auto" dual track is fetched again while enabled |
| `SubsModel.SubsStore.ReloadRequested` | src/models/subs/init.ts:92-98 | the stored title is re-emitted only when both it and the raw list are non-empty; title and raw list are unchanged |
| `SubsModel.SubsStore.RawSubsLoaded` | src/models/subs/init.ts:100-103 | a fetched, resynced or custom list replaces the raw list; custom subtitles also set the title to the custom label; current cues are recomputed |
| `SubsModel.SubsStore.RawSubsAdded` | src/models/subs/init.ts:105-117 | the raw list becomes the merged list when the reducer produces one, and is left exactly as it was otherwise |
| `SubsModel.SubsStore.TimeUpdate` | src/models/subs/init.ts:55-72 | every tick recomputes the current cues; it pauses exactly when the auto-pause test holds, and never with auto-pause off; it recomputes the dual cues exactly when dual is on |
| `SubsModel.SubsStore.CurrentSubsComputed` | src/models/subs/init.ts:118-120 | the held current list keeps its identity and wakes nobody exactly when the new one is equal |
| `SubsModel.SubsStore.CurrentDualSubsComputed` | src/models/subs/init.ts:162-164 | the same keep-if-equal rule for the dual track |
| `SubsModel.SubsStore.DelayButtonPressed` | src/models/subs/init.ts:74-84 | the button asks for a new delay and a resync of the raw list with the stored and the pressed delay |
| `SubsModel.SubsStore.DelayChanged` | src/models/subs/init.ts:122 | the stored delay becomes the new one |
| `SubsModel.SubsStore.SubsChanged` | src/models/subs/init.ts:86-90 | language detection starts only for a non-empty list |
| `SubsModel.SubsStore.LanguageDetected` | src/models/subs/init.ts:123 | the subtitle language becomes the detected one |
| `SubsModel.SubsStore.AutoPauseChanged` | src/models/subs/init.ts:63 | the auto-pause setting read by the tick |
| `SubsModel.SubsStore.DualSubEnabledChanged` | src/models/subs/init.ts:128-160 | only a real change acts; enabling fetches the dual language when one is chosen; disabling empties the raw dual list |
| `SubsModel.SubsStore.DualSubLanguageChanged` | src/models/subs/init.ts:128-140 | a new dual language is fetched while the dual track is enabled |
| `SubsModel.SubsStore.TranslateLanguageChanged` | src/models/subs/init.ts:128-140 | a new translation language fetches the dual language again while the dual track is enabled |
| `SubsModel.SubsStore.DualSubsFetched` | src/models/subs/init.ts:151-159 | the fetched list replaces the raw dual list; dual cues are recomputed only while enabled |

## Left out

- Network and JSON I/O. The timedtext endpoint is the parameter `fetch` of `GetSubs`, a function from URL to events.
- URL parsing and serialisation. A URL is its parameter map. Repeated parameters, parameter order and `href` normalisation are not modelled. Neither is a `new URL` that throws on a malformed string.
- `getVideoId`. It is a regular expression over the page location, so the video id is a parameter of `GetSubs`.
- JavaScript object-key quirks. Integer-like keys are enumerated before other keys in real objects. Keys such as `"constructor"` hit inherited properties. Language codes and video ids are assumed to be neither.
- Script injection, window listeners, DOM selectors, `handleLoaded` and `isOnFlight`. These are page plumbing, and so are the page entry point and the UI components.
- The Gemini translation wrapper. It is a thin call into an external SDK.
- Effect bodies that are not part of this model. The effects only appear as the `Effect` values a method returns, with their results fed back as events. They are:
  - current-cue selection (`updateCurrentSubsFx`, `updateCurrentDualSubsFx`);
  - resync (`subsResyncFx`) and the delay change (`subsDelayChangeFx`);
  - fetching (`fetchSubsFx`, `fetchDualSubsFx`);
  - language detection (`subsLanguageDetectFx`);
  - pausing (`autoPauseFx`);
  - custom-subtitle loading (`updateCustomSubsFx`);
  - the derived `$subs` and `$dualSubs` lists.
  So the resync arithmetic and the "cues containing the current time" selection are not modelled.
- The value of the custom-subtitle label and the initial store values. Neither is part of this model. The label is a constructor parameter, and the stores start empty.
- SubsModel.SubsStore.RawSubsAdded: when the reducer throws (an empty fragment after a non-empty list), the raw list is taken to be left unchanged. The store library's handling of a throwing reducer is not part of this model.
- SubsModel.SubsStore.RawSubsAdded: the source seals the last cue by mutating that cue object in place. Older lists that still share the object (the previous raw value, the current cues) see the change too. This model works on values, so that aliasing is not captured.
- SubsModel.SubsStore.LanguageChanged: resetting the raw list recomputes the current cues when the list changes in value. The source compares object identity against the store's default value.
- SubsModel.SubsStore.TimeUpdate: playback time is integer milliseconds. The source uses `video.currentTime * 1000`, a floating-point value.
- SubsRules.KeepIfEqual: the `JSON.stringify` comparison is modelled as structural equality of cue lists.
- YoutubeTracks.DecodeEvent: `tOffsetMs` and `dDurationMs` are integers. An absent `tOffsetMs` is falsy in the source, so it behaves as the model's 0 and the end is `tStartMs + dDurationMs`. An absent `dDurationMs` when the last offset is 0 or absent gives `NaN` in the source; that case is not modelled.
- The order of the effects one event starts is the order of the method's statements. The source does not fix that order.
- Logging and `debug(...)` calls.
