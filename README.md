# The Digital Community Manifesto site, modelled in Dafny

The site publishes one book three ways:

- an online PDF reader with single-page and continuous modes, zoom, keyboard and swipe navigation, and the reading position remembered in the browser's storage;
- a chaptered audiobook player, backed by a persisted player store, an audio-element hook and a chapter catalog;
- a three-chapter sample reader on the landing page.

It also emits URLs and schema.org structured data built from a site configuration.

This project models the logic behind those features:

- what each store, hook and component keeps;
- how each event, click and key press changes that state;
- which values the pages derive from it.

It proves what each one guarantees:

- pages, chapter indices, zoom and volume stay in range when each step starts from an in-range value (a restored page and a volume set through the store are taken as they come);
- the steps forward and back undo each other;
- what is saved is what is restored;
- lookups in the catalog agree with its numbering;
- at most one chapter row is highlighted, and exactly the current chapter's row when the current chapter is a catalog chapter (with no current chapter, before the first one is selected on mount, no row is);
- the printed clock reads back as the elapsed seconds.

## How the project is laid out

- `js.dfy` holds the small part of JavaScript's semantics the code relies on:
  - numbers with NaN and the infinities;
  - `Math.min`, `Math.max` and `Math.round`;
  - truthiness;
  - `Number.parseInt` and `Number.parseFloat` on decimal text, with their round trips against `toString`;
  - `padStart`;
  - ASCII `toLowerCase`.
- Every other file follows one source file and is named after it.
- Plain functions of the source become Dafny functions with lemmas.
- A store or hook whose state changes in place becomes a class whose methods state the whole new state. For example, `AudioPlayerStore.Store`, `UseAudioPlayer.AudioTransport` and `UsePdfReader.PdfReader`.
- A React effect becomes an explicit method: `Restore` and `Persist` for the reader's saved state, `InitSource` and `PlayEffect` for the audio element.
- Calls into code the model does not see are either recorded in a log or taken as parameters:
  - toasts are appended to a sequence;
  - the store calls the chapter hooks make are recorded as `ChapterCall` values;
  - the outcome of `play()` is a parameter;
  - `Number.prototype.toString` on the scale is a parameter.

## Model

| member | source | states |
|---|---|---|
| SiteConfig.CleanPath | lib/site-config.ts:70 | the cleaned path starts with "/", is the path itself when it already did, and otherwise is "/" followed by the path |
| SiteConfig.GetAbsoluteUrl | lib/site-config.ts:69-72 | the URL is the site URL followed by the cleaned path, so it always starts with the site URL and "/" |
| SiteConfig.GetOgImageUrl | lib/site-config.ts:77-79 | a missing or empty image gives the configured Open Graph image; any other image gives its absolute URL |
| SiteConfig.CleanPathIdempotent | lib/site-config.ts:70 | cleaning an already cleaned path changes nothing |
| SiteConfig.AbsoluteUrlIgnoresMissingSlash | lib/site-config.ts:69-72 | "x" and "/x" give the same absolute URL |
| SiteConfig.AbsoluteUrlOfDefault | lib/site-config.ts:69 | the default empty path gives the site root with a trailing "/" |
| SiteConfig.AbsoluteUrlInjective | lib/site-config.ts:69-72 | two paths give the same URL if and only if they clean to the same path |
| SiteConfig.AbsoluteUrlOfRooted | lib/site-config.ts:69-72 | a path starting with "/" is appended to the site URL unchanged |
| PdfConfig.GetPdfUrl | lib/pdf-config.ts:25-30 | without a base, or with an empty one, the URL is "/book.pdf"; otherwise it starts with the base; it always ends with the file path |
| PdfConfig.BaseOf | lib/pdf-config.ts:25-30 | recovering the base from a URL finds none exactly when the URL is the bare file path |
| PdfConfig.BaseOfGetPdfUrl | lib/pdf-config.ts:25-30 | the base can be recovered from the URL; only the difference between an absent and an empty base is lost |
| PdfConfig.EmptyBaseIsAbsent | lib/pdf-config.ts:7 | an empty base and no base both give "/book.pdf" |
| JsonLdSchema.Crumbs | lib/json-ld-schema.ts:82-92 | every trail starts at Home with the site URL; home has one crumb, the audiobook and read pages two |
| JsonLdSchema.Number | lib/json-ld-schema.ts:97-102 | numbering keeps the crumbs in order and counts positions from the start value |
| JsonLdSchema.BreadcrumbList | lib/json-ld-schema.ts:81-104 | the list has one item per crumb, item i at position i + 1 with that crumb's name and URL |
| JsonLdSchema.Unnumber | lib/json-ld-schema.ts:97-102 | reading items back as crumbs keeps their count |
| JsonLdSchema.UnnumberBreadcrumbList | lib/json-ld-schema.ts:81-104 | reading the list back gives the crumbs exactly: only the positions are added |
| JsonLdSchema.BreadcrumbTargets | lib/json-ld-schema.ts:83-91 | the home trail is one item; the sub-pages end at the absolute URL of "/audiobook" and "/read" |
| JsonLdSchema.SameAs | lib/json-ld-schema.ts:39-41 | the links are empty if and only if `twitter.site` is unset or empty; otherwise they are that profile's URL, alone |
| JsonLdSchema.ShippedSameAs | lib/json-ld-schema.ts:39-41 | the shipped configuration links exactly one twitter profile |
| JsonLdSchema.AuthorPersons | lib/json-ld-schema.ts:17-20 | one Person per author, in order, with the author's name |
| JsonLdSchema.AuthorPersonsAppend | lib/json-ld-schema.ts:71-74 | the author mapping distributes over concatenation of author lists |
| AudioPlayerStore.Partialize | store/audioPlayerStore.ts:42-46 | the persisted record holds the volume, the playback rate and the position |
| AudioPlayerStore.Rehydrate | store/audioPlayerStore.ts:19-48 | a load is never playing and has duration 0; with nothing stored it is the initial state; otherwise its persisted fields are the stored ones |
| AudioPlayerStore.AfterReset | store/audioPlayerStore.ts:33-38 | reset stops playback, rewinds to 0, forgets the duration, and keeps the volume and the rate |
| AudioPlayerStore.ResetIdempotent | store/audioPlayerStore.ts:33-38 | resetting twice is the same as resetting once |
| AudioPlayerStore.RehydrateAfterReset | store/audioPlayerStore.ts:33-47 | a reload right after a reset comes back to the reset state |
| AudioPlayerStore.RehydratePartialize | store/audioPlayerStore.ts:40-47 | a reload keeps everything but the playing flag and the duration |
| AudioPlayerStore.PartializeRehydrate | store/audioPlayerStore.ts:40-47 | writing back what was just loaded stores the same record |
| AudioPlayerStore.Store.constructor | store/audioPlayerStore.ts:19-48 | the new store is the rehydrated state, and storage holds its persisted subset |
| AudioPlayerStore.Store.SetIsPlaying | store/audioPlayerStore.ts:28 | only the playing flag changes; storage stays in step |
| AudioPlayerStore.Store.SetCurrentTime | store/audioPlayerStore.ts:29 | only the position changes, unclamped; storage stays in step |
| AudioPlayerStore.Store.SetDuration | store/audioPlayerStore.ts:30 | only the duration changes; storage stays in step |
| AudioPlayerStore.Store.SetVolume | store/audioPlayerStore.ts:31 | only the volume changes, unclamped; storage stays in step |
| AudioPlayerStore.Store.SetPlaybackRate | store/audioPlayerStore.ts:32 | only the playback rate changes, unclamped; storage stays in step |
| AudioPlayerStore.Store.Reset | store/audioPlayerStore.ts:33-38 | the state becomes the reset state; storage stays in step |
| UseAudioPlayer.ErrorNotice | hooks/useAudioPlayer.ts:88-145 | a toast is shown if and only if there is an error whose code is not SRC_NOT_SUPPORTED; only that code has a title other than "Playback error"; no error object, or an unknown code, gives the default message |
| UseAudioPlayer.ErrorMessagesDistinct | hooks/useAudioPlayer.ts:107-130 | each of the four standard codes has its own message, different from the default |
| UseAudioPlayer.UsableDurationIff | hooks/useAudioPlayer.ts:46-50 | a duration is accepted if and only if it is finite and non-zero; NaN, Infinity and 0 are refused |
| UseAudioPlayer.UsableDuration | hooks/useAudioPlayer.ts:46-50 | a duration is taken only when truthy, not NaN and finite; its exact meaning is stated by UsableDurationIff |
| UseAudioPlayer.ShouldRestore | hooks/useAudioPlayer.ts:53 | a saved position is put back only strictly between 0 and the duration; used by HandleLoadedMetadata |
| UseAudioPlayer.SkipForwardTarget | hooks/useAudioPlayer.ts:259 | the target is NaN if and only if the duration is NaN; for a finite duration it is the smaller of the duration and position plus step; for an infinite one it is position plus step |
| UseAudioPlayer.SkipBackwardTarget | hooks/useAudioPlayer.ts:266 | the target is position minus step, or 0 when that is below 0 |
| UseAudioPlayer.SkipsStayInside | hooks/useAudioPlayer.ts:256-268 | from inside the media, a non-negative skip lands inside it; forward reaches the end exactly when the step covers it, and backward reaches 0 exactly when the step covers the position |
| UseAudioPlayer.Stalled | hooks/useAudioPlayer.ts:149-156 | a stall arms a new timer and holds only its handle; timers already armed stay armed |
| UseAudioPlayer.Cleared | hooks/useAudioPlayer.ts:163-177 | playback resuming disarms the held timer, if any, and forgets the handle |
| UseAudioPlayer.StallThenClearLeavesNothing | hooks/useAudioPlayer.ts:147-177 | one stall followed by playback leaves no timer armed |
| UseAudioPlayer.SecondStallLeaksFirstTimer | hooks/useAudioPlayer.ts:147-177 | two stalls in a row leave the first timer armed after playback resumes |
| UseAudioPlayer.FormatTime | hooks/useAudioPlayer.ts:270-272 | 0, NaN and the infinities print as "0:00" |
| UseAudioPlayer.ParseFormatTime | hooks/useAudioPlayer.ts:270-283 | the printed clock of a non-negative time reads back as its whole seconds, floor(t) |
| UseAudioPlayer.ClockOfSeconds | hooks/useAudioPlayer.ts:273-282 | whole seconds, split into hours, minutes and seconds and printed, read back as themselves |
| UseAudioPlayer.ClockReadsBack | hooks/useAudioPlayer.ts:277-282 | "h:mm:ss" and "m:ss" clocks of valid fields read back as the seconds they add up to |
| UseAudioPlayer.MediaElement.constructor | hooks/useAudioPlayer.ts:13 | a fresh element has no source, position 0, an unknown duration, and is paused |
| UseAudioPlayer.AudioTransport.constructor | hooks/useAudioPlayer.ts:12-26 | not initialised, no timers, no toasts |
| UseAudioPlayer.AudioTransport.InitSource | hooks/useAudioPlayer.ts:29-38 | the source is assigned exactly once, the first time an element is present; later runs change nothing |
| UseAudioPlayer.AudioTransport.HandleLoadedMetadata | hooks/useAudioPlayer.ts:45-57 | a usable duration is stored, and a saved position strictly inside it is put back on the element; otherwise nothing changes |
| UseAudioPlayer.AudioTransport.HandleDurationChange | hooks/useAudioPlayer.ts:59-77 | a usable duration is stored; otherwise nothing changes |
| UseAudioPlayer.AudioTransport.HandleTimeUpdate | hooks/useAudioPlayer.ts:79-81 | the stored position becomes the element's position |
| UseAudioPlayer.AudioTransport.HandleEnded | hooks/useAudioPlayer.ts:83-86 | playback stops and the stored position is 0; nothing else changes |
| UseAudioPlayer.AudioTransport.HandleError | hooks/useAudioPlayer.ts:88-145 | playback stops; the error toast is appended exactly when the notice asks for one |
| UseAudioPlayer.AudioTransport.HandleStalled | hooks/useAudioPlayer.ts:149-156 | the timers become those after a stall; the new timer's id is returned |
| UseAudioPlayer.AudioTransport.HandlePlaying | hooks/useAudioPlayer.ts:163-177 | the timers become the cleared ones |
| UseAudioPlayer.AudioTransport.TimerFires | hooks/useAudioPlayer.ts:153-155 | an armed timer firing disarms itself and appends the buffering warning |
| UseAudioPlayer.AudioTransport.Teardown | hooks/useAudioPlayer.ts:194-198 | unsubscribing clears the held timer |
| UseAudioPlayer.AudioTransport.PlayEffect | hooks/useAudioPlayer.ts:214-229 | a paused intent pauses the element; an accepted play starts it; a rejected play sets the intent back to false; no other field of the element changes |
| UseAudioPlayer.AudioTransport.SyncVolume | hooks/useAudioPlayer.ts:232-236 | the element's volume becomes the store's when it lies in [0, 1]; outside it the setter throws and the element is unchanged; without an element nothing happens |
| UseAudioPlayer.AudioTransport.SyncPlaybackRate | hooks/useAudioPlayer.ts:238-243 | the element's playback rate becomes the store's when the browser supports it; otherwise the setter throws and the element is unchanged |
| UseAudioPlayer.AudioTransport.TogglePlayPause | hooks/useAudioPlayer.ts:245-247 | only the playing intent flips |
| UseAudioPlayer.AudioTransport.Seek | hooks/useAudioPlayer.ts:249-254 | element and store both move to exactly the given time, with every other element field kept; a non-finite time throws and changes nothing; without an element nothing happens |
| UseAudioPlayer.AudioTransport.SkipForward | hooks/useAudioPlayer.ts:256-261 | the position becomes the forward target; a NaN target throws and changes nothing |
| UseAudioPlayer.AudioTransport.SkipBackward | hooks/useAudioPlayer.ts:263-268 | the position becomes the backward target, never below 0, and never throws |
| AudiobookChapters.ChapterAt | lib/audiobook-chapters.ts:30-231 | each catalog entry carries the id it is looked up by |
| AudiobookChapters.Catalog | lib/audiobook-chapters.ts:30-231 | the catalog has 25 chapters whose ids are 1 to 25 in array order |
| AudiobookChapters.ShippedIds | lib/audiobook-chapters.ts:30-231 | the shipped array has 25 chapters numbered from 1 in array order |
| AudiobookChapters.FindIndex | lib/audiobook-chapters.ts:245-247 | the result is -1 exactly when no chapter has the id; otherwise it is the first position holding it |
| AudiobookChapters.Find | lib/audiobook-chapters.ts:237-239 | a found chapter is in the array and has the id looked for |
| AudiobookChapters.GetChapterById | lib/audiobook-chapters.ts:237-239 | find over the shipped catalog by id; its closed form is ShippedIndex, and OneBasedIndex for any catalog numbered from 1 |
| AudiobookChapters.NextIn | lib/audiobook-chapters.ts:244-255 | the entry after the one holding the id, none at the end or for an unknown id; stated by OneBasedNeighbours and NextThenPrevious |
| AudiobookChapters.PreviousIn | lib/audiobook-chapters.ts:260-270 | the entry before the one holding the id, none at the start or for an unknown id; stated by OneBasedNeighbours and PreviousThenNext |
| AudiobookChapters.GetNextChapter | lib/audiobook-chapters.ts:244-255 | NextIn over the shipped catalog; its closed form is ShippedNext, and ShippedLookups for all three lookups |
| AudiobookChapters.GetPreviousChapter | lib/audiobook-chapters.ts:260-270 | PreviousIn over the shipped catalog; its closed form is ShippedPrevious, and ShippedLookups for all three lookups |
| AudiobookChapters.FindMatchesFindIndex | lib/audiobook-chapters.ts:237-247 | find returns the element at the index findIndex reports, and nothing when that is -1 |
| AudiobookChapters.FindIndexOfMember | lib/audiobook-chapters.ts:245-247 | with unique ids, a chapter's id is found at that chapter's position |
| AudiobookChapters.OneBasedIndex | lib/audiobook-chapters.ts:237-247 | in a catalog numbered from 1, findIndex for an id gives position id - 1 inside the catalog and -1 outside it, and getChapterById gives the entry there or nothing |
| AudiobookChapters.OneBasedNeighbours | lib/audiobook-chapters.ts:244-270 | in a catalog numbered from 1, getNextChapter and getPreviousChapter give the entries numbered id + 1 and id - 1, and nothing past either end or for an unknown id |
| AudiobookChapters.ShippedIndex | lib/audiobook-chapters.ts:237-247 | the shipped catalog holds 25 chapters; getChapterById finds chapter id at position id - 1 for ids 1 to 25 and nothing otherwise |
| AudiobookChapters.ShippedNext | lib/audiobook-chapters.ts:244-255 | in the shipped catalog the next chapter after id is the one numbered id + 1, for ids 1 to 24, and none otherwise |
| AudiobookChapters.ShippedPrevious | lib/audiobook-chapters.ts:260-270 | in the shipped catalog the previous chapter before id is the one numbered id - 1, for ids 2 to 25, and none otherwise |
| AudiobookChapters.ShippedLookups | lib/audiobook-chapters.ts:237-270 | the three lookups over the shipped catalog give the chapters numbered id, id + 1 and id - 1, if they exist |
| AudiobookChapters.NextThenPrevious | lib/audiobook-chapters.ts:244-270 | for every chapter but the last, next and then previous come back to it |
| AudiobookChapters.PreviousThenNext | lib/audiobook-chapters.ts:244-270 | for every chapter but the first, previous and then next come back to it |
| UseCurrentChapter.NextChapter | hooks/useCurrentChapter.ts:41-44 | a next chapter exists only with a current chapter, and its id is one higher |
| UseCurrentChapter.PreviousChapter | hooks/useCurrentChapter.ts:47-50 | a previous chapter exists only with a current chapter, and its id is one lower |
| UseCurrentChapter.HasNext | hooks/useCurrentChapter.ts:53 | a next chapter exists; HasNextIff ties it to the current index |
| UseCurrentChapter.HasPrevious | hooks/useCurrentChapter.ts:56 | a previous chapter exists; HasPreviousIff ties it to the current index |
| UseCurrentChapter.TotalChapters | hooks/useCurrentChapter.ts:59 | the catalog has 25 chapters |
| UseCurrentChapter.CurrentChapterIndex | hooks/useCurrentChapter.ts:62-68 | -1 without a current chapter or for an id outside 1..25; otherwise the position id - 1, always a valid index or -1 |
| UseCurrentChapter.Route | hooks/useCurrentChapter.ts:71-110 | a navigation calls the store exactly when it has a target, with that target: playChapter when playing, setCurrentChapter when not |
| UseCurrentChapter.NextByIndex | hooks/useCurrentChapter.ts:41-68 | the next chapter is the catalog entry just after the current index, and none at the last entry or without a current index |
| UseCurrentChapter.PreviousByIndex | hooks/useCurrentChapter.ts:47-68 | the previous chapter is the catalog entry just before the current index, and none at the first entry or without a current index |
| UseCurrentChapter.HasNextIff | hooks/useCurrentChapter.ts:53-68 | hasNext holds exactly when the current index is before the last one |
| UseCurrentChapter.HasPreviousIff | hooks/useCurrentChapter.ts:56-68 | hasPrevious holds exactly when the current index is after the first one |
| UseCurrentChapter.NextThenPreviousChapter | hooks/useCurrentChapter.ts:41-50 | from any catalog chapter but the last, next and then previous come back to it |
| UseCurrentChapter.GoToChapterTargets | hooks/useCurrentChapter.ts:95-110 | goToChapter calls the store exactly for the ids 1 to 25 |
| UseCurrentChapter.ChapterNavigator.constructor | hooks/useCurrentChapter.ts:33-38 | the navigator reads the current chapter and the playing flag, and has made no calls |
| UseCurrentChapter.ChapterNavigator.Issue | hooks/useCurrentChapter.ts:71-110 | the routed call, if any, is appended to the log |
| UseCurrentChapter.ChapterNavigator.GoToNextChapter | hooks/useCurrentChapter.ts:71-80 | one call with the next chapter is logged exactly when there is one |
| UseCurrentChapter.ChapterNavigator.GoToPreviousChapter | hooks/useCurrentChapter.ts:83-92 | one call with the previous chapter is logged exactly when there is one |
| UseCurrentChapter.ChapterNavigator.GoToChapter | hooks/useCurrentChapter.ts:95-110 | one call with the chapter numbered chapterId is logged exactly when that id is in the catalog |
| AudioPlayer.MuteThenUnmute | components/audio-player.tsx:59-66 | muting a positive volume and then unmuting gives that volume back |
| AudioPlayer.UnmuteIsAudible | components/audio-player.tsx:59-66 | unmuting never leaves the player silent, and keeps the remembered volume |
| AudioPlayer.VolumeToggleInRange | components/audio-player.tsx:59-66 | the toggle keeps the volume and the remembered volume within [0, 1] |
| AudioPlayer.VolumeIconFor | components/audio-player.tsx:68-72 | the icon is muted exactly at 0, low exactly below one half and not 0, and high exactly from one half on |
| AudioPlayer.IconAfterToggle | components/audio-player.tsx:59-72 | after the toggle the icon shows muted exactly when the volume was positive |
| AudioPlayer.Louder | components/audio-player.tsx:144-147 | one tenth louder, or 1 when that is lower |
| AudioPlayer.Quieter | components/audio-player.tsx:148-151 | one tenth quieter, or 0 when that is higher |
| AudioPlayer.VolumeKeysStayInRange | components/audio-player.tsx:144-151 | from inside [0, 1] the volume keys stay inside it and move in their own direction |
| AudioPlayer.QuieterThenLouder | components/audio-player.tsx:144-151 | away from the ends, one step down and one up cancel out |
| AudioPlayer.KeyCommandOf | components/audio-player.tsx:117-157 | a key triggers an action exactly when the focus is not in a text field and its lower-cased name is one the map knows |
| AudioPlayer.KeyCommandIgnoresCase | components/audio-player.tsx:123 | a key and its lower-case form trigger the same action |
| AudioPlayer.BrowserKeyNames | components/audio-player.tsx:125-151 | the browser's names "ArrowLeft", "ArrowRight", "ArrowUp", "ArrowDown", "K" and "M" reach their actions |
| AudioPlayer.LoadingBannerAlone | components/audio-player.tsx:163-195 | the loading banner never shows with the error or buffering banner, and after an error neither of them shows |
| AudioPlayer.ErrorWithBuffering | components/audio-player.tsx:89-101 | after an error, `waiting` keeps the error banner and shows the buffering banner too exactly while playing and not loading |
| AudioPlayer.ErrorPersists | components/audio-player.tsx:79-101 | without a `loadstart`, an error banner stays through any run of events |
| AudioPlayer.ErrorThenLoadStart | components/audio-player.tsx:79-101 | an error shows the error banner, and a `loadstart` after it shows the loading banner |
| AudioPlayer.WaitingThenPlaying | components/audio-player.tsx:89-96 | `waiting` shows the buffering banner exactly while playing and not loading, and `playing` removes it |
| AudioPlayer.ProgressMax | components/audio-player.tsx:221 | the slider's maximum is positive: the duration once it is positive |
| AudioPlayer.DurationLabel | components/audio-player.tsx:230 | the label is "Loading..." exactly while the duration is not positive; otherwise it reads back as the duration's whole seconds |
| AudioPlayer.PlaybackRatesInRange | components/audio-player.tsx:57 | the offered rates rise strictly from half to double speed, and include normal speed |
| AudioPlayer.VolumeToggle | components/audio-player.tsx:59-66 | mute remembers a positive volume, unmute brings it back or 0.8; stated by MuteThenUnmute, UnmuteIsAudible and VolumeToggleInRange |
| AudioPlayer.FlagStep | components/audio-player.tsx:79-101 | the loading, buffering and error flags after one media event; stated by ErrorThenLoadStart, WaitingThenPlaying and LoadingBannerAlone |
| AudioPlayer.FlagRun | components/audio-player.tsx:79-101 | the flags after a run of media events; ErrorPersists states that only `loadstart` clears an error |
| AudioPlayer.ShowsError | components/audio-player.tsx:163 | the error banner shows while the error flag is set; see ErrorPersists |
| AudioPlayer.ShowsLoading | components/audio-player.tsx:174 | the loading banner shows while loading without an error; see LoadingBannerAlone |
| AudioPlayer.ShowsBuffering | components/audio-player.tsx:185 | the buffering banner shows while buffering and playing, not loading; see WaitingThenPlaying |
| AudioPlayer.ProgressDisabled | components/audio-player.tsx:225 | the progress slider is disabled exactly while the duration is 0 |
| AudioPlayer.PlayerView.constructor | components/audio-player.tsx:51-55 | loading, not buffering, no error, 0.8 remembered, menu closed |
| AudioPlayer.PlayerView.HandleMediaEvent | components/audio-player.tsx:79-101 | the flags become those after the event; nothing else changes |
| AudioPlayer.PlayerView.HandleVolumeToggle | components/audio-player.tsx:59-66 | the volume and the remembered volume become the toggle's result; only the store's volume changes |
| AudioPlayer.PlayerView.HandleKeyDown | components/audio-player.tsx:117-157 | each key's action is applied to the store and the element: toggle, 5-second skips, mute, volume up and down; keys other than the skips leave the element as it was; a skip without an element, a forward skip that throws, an unknown key or a key typed in a field change nothing |
| AudioPlayer.PlayerView.PressSkipBack | components/audio-player.tsx:240 | the position moves 15 seconds back, never below 0 |
| AudioPlayer.PlayerView.PressSkipForward | components/audio-player.tsx:263 | the position moves 15 seconds ahead, capped by the duration; before the duration is known the skip throws and nothing changes |
| AudioPlayer.PlayerView.ToggleSpeedMenu | components/audio-player.tsx:301 | the menu opens or closes; nothing else changes |
| AudioPlayer.PlayerView.ChooseRate | components/audio-player.tsx:310-316 | the chosen rate is stored and the menu closes |
| AudioPlayer.PlayerView.SlideVolume | components/audio-player.tsx:285-288 | the volume becomes a hundredth of the slider's value, within [0, 1] |
| AudiobookClient.MountSelection | app/audiobook/audiobook-client.tsx:20-24 | the first chapter, id 1, is selected without playing it, exactly when no chapter is current |
| AudiobookClient.AudioSource | app/audiobook/audiobook-client.tsx:27 | the source is the slot's URL when it is present, and otherwise the first chapter's |
| AudiobookClient.AudioSourceNonEmpty | app/audiobook/audiobook-client.tsx:27 | the audio source is never empty |
| AudiobookClient.PlayerTitle | app/audiobook/audiobook-client.tsx:80 | the title is never empty: the chapter's title, or the book's title without a chapter |
| AudiobookClient.FallbackIsBookTitle | app/audiobook/audiobook-client.tsx:80 | the fallback title is the book's own title |
| AudiobookClient.PlayerAuthor | app/audiobook/audiobook-client.tsx:81 | the author is always the book's author |
| AudiobookClient.PlayerCover | app/audiobook/audiobook-client.tsx:82 | the cover is never empty: the chapter's cover, or the book's cover without a chapter |
| AudiobookClient.IsHighlighted | app/audiobook/audiobook-client.tsx:117 | a row is highlighted when its id is the current chapter's; HighlightedRows and ShippedHighlight state which rows |
| AudiobookClient.HighlightedRows | app/audiobook/audiobook-client.tsx:112-125 | with unique ids at most one row is highlighted, and for a current catalog chapter exactly its row is |
| AudiobookClient.ShippedHighlight | app/audiobook/audiobook-client.tsx:112-125 | in the shipped list, exactly the current chapter's row is highlighted |
| AudiobookClient.AudiobookPage.constructor | app/audiobook/audiobook-client.tsx:15-16 | the page reads the store's slot and has made no calls |
| AudiobookClient.AudiobookPage.Mount | app/audiobook/audiobook-client.tsx:20-24 | setCurrentChapter of the first chapter is called exactly when no chapter is current |
| AudiobookClient.AudiobookPage.ClickChapter | app/audiobook/audiobook-client.tsx:116 | a click plays the clicked chapter |
| UsePdfReader.ParseMode | hooks/usePDFReader.ts:70-72 | a stored mode is accepted if and only if it is exactly "single" or "continuous" |
| UsePdfReader.ModeRoundTrip | hooks/usePDFReader.ts:70-72 | a mode's stored name reads back as that mode, and every accepted name is a mode's name |
| UsePdfReader.PageBefore | hooks/usePDFReader.ts:275-277 | one page back, but at least page 1 |
| UsePdfReader.PageAfter | hooks/usePDFReader.ts:279-281 | one page on, but at most numPages |
| UsePdfReader.PageStepsStayInRange | hooks/usePDFReader.ts:275-281 | from a page of the document both steps stay on one, and each stays put exactly at its own end |
| UsePdfReader.PageStepsUndo | hooks/usePDFReader.ts:275-281 | away from the ends, a step forward and one back cancel out |
| UsePdfReader.NextPageWithoutDocument | hooks/usePDFReader.ts:279-281 | before the document loads, a forward step lands on page 0 |
| UsePdfReader.ZoomedIn | hooks/usePDFReader.ts:305-307 | the scale grows by 0.1, up to 2.5; an infinite scale comes back to 2.5 |
| UsePdfReader.ZoomedOut | hooks/usePDFReader.ts:309-311 | the scale shrinks by 0.1, down to 0.5; a negative infinite scale comes back to 0.5 |
| UsePdfReader.ZoomStaysInRange | hooks/usePDFReader.ts:305-311 | zooming keeps a scale in [0.5, 2.5], and pulls a scale outside to the nearer bound |
| UsePdfReader.ZoomStepsUndo | hooks/usePDFReader.ts:305-311 | away from the bounds, zooming in and out cancel out |
| UsePdfReader.InRange | hooks/usePDFReader.ts:364-366 | the filter keeps exactly the page numbers of the document |
| UsePdfReader.InRangeAscending | hooks/usePDFReader.ts:364-366 | filtering keeps the order |
| UsePdfReader.PagesToRender | hooks/usePDFReader.ts:362-367 | only pages of the document, in increasing order; in single mode exactly the existing pages among p - 1, p and p + 1; in continuous mode every page from 1 to numPages |
| UsePdfReader.SinglePageWindow | hooks/usePDFReader.ts:362-366 | the current page is always rendered, between its neighbours when both exist |
| UsePdfReader.PointOrOrigin | hooks/usePDFReader.ts:334-345 | the first touch's position, or (0, 0) without one |
| UsePdfReader.SwipeOf | hooks/usePDFReader.ts:346-356 | a gesture turns a page exactly when it is more horizontal than vertical and longer than 50; right goes back and left goes on |
| UsePdfReader.SwipeReversed | hooks/usePDFReader.ts:346-356 | the reverse gesture turns the page the other way |
| UsePdfReader.PageCommandOf | hooks/usePDFReader.ts:236-268 | a key acts exactly outside text fields, in single mode, for the seven keys; each command is tied to its own keys, both ways |
| UsePdfReader.CommandTarget | hooks/usePDFReader.ts:247-266 | the page each key command moves to; CommandsStayInRange states that a valid page stays valid |
| UsePdfReader.CommandsStayInRange | hooks/usePDFReader.ts:247-266 | every key command keeps a page of the document on one |
| UsePdfReader.CentrePage | hooks/usePDFReader.ts:212-214 | a page is computed exactly when there are pages and height; it is the page whose band holds the centre of the view |
| UsePdfReader.BandUnique | hooks/usePDFReader.ts:212-214 | a scroll position lies in the band of one page only, so the page read back is unique |
| UsePdfReader.PageAtScroll | hooks/usePDFReader.ts:216-222 | the page changes only to an existing page whose band holds the centre of the view |
| UsePdfReader.ScrollTopFor | hooks/usePDFReader.ts:293-295 | the scroll offset goToPage uses in continuous mode; ScrollRoundTrip states that it reads back as the page |
| UsePdfReader.ScrollRoundTrip | hooks/usePDFReader.ts:212-214 | scrolling to a page and reading the page back from the scroll position gives that page, when the view is shorter than two pages |
| UsePdfReader.KeysDistinct | hooks/usePDFReader.ts:62-64 | the page, mode and scale entries never share a key |
| UsePdfReader.SavedScale | hooks/usePDFReader.ts:73-76 | a restored scale is never NaN |
| UsePdfReader.SavedPage | hooks/usePDFReader.ts:66-69 | a stored page is taken when parseInt gives a number; RestoreAfterSave states the round-trip |
| UsePdfReader.SavedMode | hooks/usePDFReader.ts:70-72 | a stored mode is taken when it names a mode; ModeRoundTrip and RestoreAfterSave state the round-trip |
| UsePdfReader.Saved | hooks/usePDFReader.ts:79-92 | the save effects write the mode and the scale always, and the page once there are pages; other entries are kept |
| UsePdfReader.RestoreAfterSave | hooks/usePDFReader.ts:60-92 | what is saved is restored: the page once there are pages, the mode, and the scale when its text reads back exactly |
| UsePdfReader.PdfReader.constructor | hooks/usePDFReader.ts:41-58 | no pages, page 1, scale 1, single mode, touch at the origin |
| UsePdfReader.PdfReader.SetNumPages | hooks/usePDFReader.ts:47 | the page count becomes the document's |
| UsePdfReader.PdfReader.SetReadingMode | hooks/usePDFReader.ts:50 | the mode becomes the one given |
| UsePdfReader.PdfReader.GoToPrevPage | hooks/usePDFReader.ts:275-277 | the page becomes the previous page |
| UsePdfReader.PdfReader.GoToNextPage | hooks/usePDFReader.ts:279-281 | the page becomes the next page |
| UsePdfReader.PdfReader.GoToPage | hooks/usePDFReader.ts:283-302 | only a page of the document is taken; in continuous mode it also scrolls to the top of that page's band |
| UsePdfReader.PdfReader.ZoomIn | hooks/usePDFReader.ts:305-307 | the scale becomes the zoomed-in scale |
| UsePdfReader.PdfReader.ZoomOut | hooks/usePDFReader.ts:309-311 | the scale becomes the zoomed-out scale |
| UsePdfReader.PdfReader.ResetZoom | hooks/usePDFReader.ts:313-315 | the scale becomes exactly 1 |
| UsePdfReader.PdfReader.HandleKeyDown | hooks/usePDFReader.ts:235-272 | the default action is prevented exactly for a recognised key; the page becomes that command's target |
| UsePdfReader.PdfReader.HandleTouchStart | hooks/usePDFReader.ts:331-338 | in single mode the start point becomes the first touch's; in continuous mode nothing changes |
| UsePdfReader.PdfReader.HandleTouchEnd | hooks/usePDFReader.ts:340-359 | in single mode a swipe turns the page its way; in continuous mode nothing changes |
| UsePdfReader.PdfReader.HandleScroll | hooks/usePDFReader.ts:197-232 | in continuous mode the page becomes the page at the scroll position; otherwise nothing changes |
| UsePdfReader.PdfReader.Restore | hooks/usePDFReader.ts:60-77 | the saved page, mode and scale are taken back when they are usable; otherwise each is kept |
| UsePdfReader.PdfReader.Persist | hooks/usePDFReader.ts:79-92 | storage becomes the saved map of the current page, mode and scale |
| PdfReaderClient.Ratio | components/pdf-reader-client.tsx:105 | with pages, the exact quotient; with none, an infinity of the page's sign, or NaN for 0 / 0 |
| PdfReaderClient.Progress | components/pdf-reader-client.tsx:105 | the rounded percentage of the current page; stated by ProgressBounds |
| PdfReaderClient.ZoomPercent | components/pdf-reader-client.tsx:124 | the rounded percentage of the scale; stated by ZoomPercentBounds |
| PdfReaderClient.ProgressBounds | components/pdf-reader-client.tsx:105 | on a page of the document the progress is a whole percentage in [0, 100], and exactly 100 on the last page; before loading it is not finite |
| PdfReaderClient.ZoomPercentBounds | components/pdf-reader-client.tsx:124 | within the zoom range the label reads between 50% and 250%, and the reset scale reads 100% |
| PdfReaderClient.NonNumericInputIgnored | components/pdf-reader-client.tsx:321-324 | typing text without a digit leaves the page where it was |
| PdfReaderClient.EnabledButtonsMove | components/pdf-reader-client.tsx:115-332 | an enabled page button always moves one page, and an enabled zoom button always changes the scale its way |
| PdfReaderClient.PdfReaderPage.constructor | components/pdf-reader-client.tsx:45-49 | loading, no error, no message, no toasts |
| PdfReaderClient.PdfReaderPage.OnLoadSuccess | components/pdf-reader-client.tsx:61-65 | the page count is taken and both flags are cleared |
| PdfReaderClient.PdfReaderPage.OnLoadError | components/pdf-reader-client.tsx:67-76 | the error is set with the error's message, or the default when that is empty; loading stops; one toast is appended |
| PdfReaderClient.PdfReaderPage.OnPageInput | components/pdf-reader-client.tsx:321-324 | the page becomes the typed integer when it is a page of the document; otherwise the page stays |
| PdfReaderClient.PdfReaderPage.ShowsLoading | components/pdf-reader-client.tsx:206 | the loading indicator shows while loading without an error |
| PdfReaderClient.PdfReaderPage.ShowsPageControls | components/pdf-reader-client.tsx:302 | the page controls show in single mode once there are pages |
| PdfReaderClient.PdfReaderPage.PrevDisabled | components/pdf-reader-client.tsx:307 | the previous-page button is disabled from page 1 down; EnabledButtonsMove states that an enabled one moves a page back |
| PdfReaderClient.PdfReaderPage.NextDisabled | components/pdf-reader-client.tsx:332 | the next-page button is disabled from the last page up; EnabledButtonsMove states that an enabled one moves a page on |
| PdfReaderClient.PdfReaderPage.ZoomOutDisabled | components/pdf-reader-client.tsx:115 | zoom-out is disabled at 0.5 and below; EnabledButtonsMove states that an enabled one shrinks the scale |
| PdfReaderClient.PdfReaderPage.ZoomInDisabled | components/pdf-reader-client.tsx:126 | zoom-in is disabled at 2.5 and above; EnabledButtonsMove states that an enabled one grows the scale |
| BookReader.NextIndex | components/book-reader.tsx:13-17 | one chapter on exactly when not at the last one; otherwise no change |
| BookReader.PrevIndex | components/book-reader.tsx:19-23 | one chapter back exactly when not at the first one; otherwise no change |
| BookReader.StepsStayInBounds | components/book-reader.tsx:13-25 | both steps keep the index on an existing chapter |
| BookReader.DisabledIffNoOp | components/book-reader.tsx:83-92 | each arrow is disabled exactly when pressing it would change nothing |
| BookReader.StepsUndo | components/book-reader.tsx:13-23 | away from the ends, a step forward and one back cancel out |
| BookReader.ShippedSampleWalk | components/book-reader.tsx:13-17 | on the three chapters the sample ships (lib/book-content.ts), two forward presses from the first chapter reach the last, and a third changes nothing |
| BookReader.MountSample | components/book-reader.tsx:11 | the reader opens on the shipped sample at its first chapter, with the back arrow disabled and the forward arrow enabled |
| BookReader.SampleReader.constructor | components/book-reader.tsx:11 | the reader opens at the first chapter |
| BookReader.SampleReader.NextChapter | components/book-reader.tsx:13-17 | the index becomes the next index and stays on a chapter |
| BookReader.SampleReader.PrevChapter | components/book-reader.tsx:19-23 | the index becomes the previous index and stays on a chapter |
| BookReader.SampleReader.SelectFromToc | components/book-reader.tsx:52-55 | a table-of-contents click selects that chapter |
| BookReader.SampleReader.PrevDisabled | components/book-reader.tsx:83 | the back arrow is disabled on the first chapter; DisabledIffNoOp states that this is exactly when it would do nothing |
| BookReader.SampleReader.NextDisabled | components/book-reader.tsx:92 | the forward arrow is disabled on the last chapter; DisabledIffNoOp states that this is exactly when it would do nothing |

## Behaviour worth knowing

The code behaves as follows in cases a reader might expect otherwise, and the model follows it:

- `seek` moves to exactly the time given. Nothing clamps it to [0, duration].
- The store's setters store their argument unchanged. The volume and the playback rate are not clamped.
- The store persists the playback position (`currentTime`) along with the volume and the rate.
- An `ended` event stops and rewinds the player. Nothing moves on to the next chapter.
- Restoring the saved page does not check it against the page count.
- Before the document loads (0 pages), "next page" and End set the page to 0.
- The error and buffering banners of the audio player can show together: a `waiting` after an error sets buffering and keeps the error (`AudioPlayer.ErrorWithBuffering`; `AudioPlayer.LoadingBannerAlone` states what does hold).
- A second `stalled` before playback resumes overwrites the held timer without clearing it. Its warning still fires (`UseAudioPlayer.SecondStallLeaksFirstTimer`).
- The audiobook page and the chapter hook read `currentChapter`, `setCurrentChapter` and `playChapter` from the player store. The store declares none of these. The model records these calls (`ChapterCall`) without giving them an effect.

## Left out

- UseAudioPlayer.UsableDurationIff: the duration guard accepts negative finite durations too, as the code does. No stronger bound is claimed.
- UseAudioPlayer.AudioTransport.Seek: the TypeError the element throws for a non-finite time is reported through `thrown` rather than propagated.
- UseAudioPlayer.AudioTransport.Seek: the element's own clamping of a seek to the media's range is not modelled. After a seek past the duration, a real element's position is not the time given, and neither is the store's position after the next `timeupdate`. The model stores the time unchanged.
- UseAudioPlayer.AudioTransport.SyncVolume: the IndexSizeError for a volume outside [0, 1] is reported through `thrown` rather than propagated out of the effect.
- UseAudioPlayer.AudioTransport.SyncPlaybackRate: which playback rates a browser supports is its own choice, so it is the parameter `supported`. The NotSupportedError is reported through `thrown` rather than propagated.
- UseAudioPlayer.MediaElement.constructor: the `src={audioSrc}` binding of the audio element (components/audio-player.tsx:376) also sets the source when the element is created and again on every chapter change. The model's "no source" at creation, and `InitSource`'s "exactly once", describe only the hook's own effect.
- UseAudioPlayer.AudioTransport.PlayEffect: the outcome of the `play()` promise is a parameter. The promise's asynchrony is not modelled.
- UseAudioPlayer.FormatTime: its contract covers only the "0:00" cases. What it prints otherwise is stated by `ParseFormatTime`, a read-back, and not by the text itself.
- AudioPlayer.KeyCommandOf: `toLowerCase` is modelled on ASCII letters only.
- Numbers are idealised as exact reals. This affects:
  - steps of 0.1 in zoom and volume, which are exact here but not in doubles;
  - the progress and zoom percentages;
  - the page arithmetic of scrolling.
- UsePdfReader.PdfReader.Persist: `Number.prototype.toString` on the scale is the parameter `toText`. `RestoreAfterSave` assumes only that `parseFloat` reads that text back.
- PdfReaderClient.PdfReaderPage.OnPageInput requires single mode, because the page input exists only there.
- PdfReaderClient.PdfReaderPage.OnLoadSuccess requires no error, because the document, and so its callbacks, is not rendered while the error is set. The same holds for PdfReaderClient.PdfReaderPage.OnLoadError.
- React effects are modelled as explicit steps rather than scheduled by a renderer. These are `Restore`, `Persist`, `InitSource`, `PlayEffect`, `SyncVolume`, `SyncPlaybackRate` and `Mount`.
- Each scroll event is handled at once, so the `requestAnimationFrame` throttling of the scroll listener is not modelled.
- `PdfReader.GoToPage` returns the `scrollTo` target. Smooth scrolling is not modelled.
- Attaching and detaching event listeners, and the `ticking` flag, are not modelled.
- The chapter catalog is written as per-field tables indexed by id. Its contents are the shipped ones.
- Layout is not modelled: the page width and height computation, the resize observer, and the body overflow effect.
- Fullscreen, the single-mode scroll-to-top effect, and the keyboard shortcuts dialog are browser I/O without logic to prove.
- `downloadPdf` and `validatePdfExists` are DOM and network I/O.
- The toast library, react-pdf, console logging and the Cloudflare configuration are outside this model. Toasts are recorded as a log.
- The fixed literals of the JSON-LD schemas (descriptions, keywords, dates) compute nothing. Only the breadcrumbs, `sameAs` and the author lists are modelled.
