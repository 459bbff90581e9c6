# Download view state machine

A Dafny model of the state kept by the `Download` view of a YouTube downloader
front end (`src/components/Download.tsx`). The view searches a backend for
videos, lets the user download each result as MP4 or MP3, and shows per-video
progress pushed by the backend over a socket. The model keeps the view's state
and drops the network, the socket and the rendering:

- `KeyedStore` — the per-url stores are JavaScript objects updated with
  `{ ...prev, [url]: v }`; `Put` is that update, with last-write-wins and
  "no other key changes" as its contract.
- `Duration` — the `m:ss` text on each card (`Math.floor(d / 60)`, `:`,
  `String(d % 60).padStart(2, "0")`), with a reader `ParseDuration` as its
  partner and a round-trip proof.
- `Download` — the state record (`videos`, `progress`, `isDownloading`,
  `defaultPath`, `loading`), one `Event` per callback or synchronous handler step, the pure
  transition `Step`, and the render predicates (disabled buttons, button label,
  progress overlay, which buttons can be clicked at all).
- `DownloadSteps` — what each handler does in one step.
- `DownloadTraces` — arbitrary event sequences (every interleaving of
  callbacks on the single UI thread): last-write-wins against a reference
  definition, per-url independence, and the guard discipline the disabled
  button provides, together with the race that appears without it.
- `Scenarios` — concrete runs: a search followed by a successful download,
  a failed download, and two downloads of different urls at once.

Each callback is one atomic `Step`. A download handler is split into its
synchronous part (`StartDownload`: set the guard, post the request) and its
two possible continuations (`DownloadOk`, `DownloadFail`). The posted request
and the toast are returned as data (`Request`, `Notice`) next to the new state.
The download handlers never look at the guard; only the disabled button keeps a
second click out, which the model states as the admissibility predicate
`DownloadTraces.Admissible` (built on `Download.Clickable`).

A failed search shows its toast but never resets `loading`, and the model keeps
that: the skeleton placeholders stay until a later search succeeds (`DownloadSteps.SearchFailKeepsLoading`,
and the third `ensures` of `DownloadTraces.Run`). The progress percentage is
stored as received, with no clamping or rejection of values outside 0..100.

## Model

| member | source | states |
|---|---|---|
| KeyedStore.Put | src/components/Download.tsx:53-56 | the spread update stores the new entry under its key, every other key keeps its entry or absence, and the key set only gains that key |
| KeyedStore.PutLastWriteWins | src/components/Download.tsx:53-56 | a second write to a key leaves the same store as that write alone |
| KeyedStore.PutCommutes | src/components/Download.tsx:100-135 | writes to two distinct keys give the same store in either order |
| Duration.Decimal | src/components/Download.tsx:179 | `String(n)` of a natural number is a non-empty run of digits, one digit exactly below 10, no leading zero otherwise |
| Duration.PadStart | src/components/Download.tsx:179 | `padStart` returns a string of length max(len, width) that ends with the input and is filled with the pad character before it |
| Duration.DecimalRoundTrip | src/components/Download.tsx:179 | reading back the decimal text of n gives n |
| Duration.SecondsFieldTwoDigits | src/components/Download.tsx:179 | for any seconds value below 60 the padded field is exactly two digits and reads back as that value |
| Duration.FormatDurationShape | src/components/Download.tsx:178-179 | every duration text is decimal minutes equal to d / 60, a single colon, then two digits equal to d % 60 |
| Duration.FormatParseRoundTrip | src/components/Download.tsx:178-179 | reading the `m:ss` text of d gives back d |
| Duration.FormatDurationInjective | src/components/Download.tsx:178-179 | distinct durations are shown as distinct texts |
| Duration.FormatDurationExample | src/components/Download.tsx:178-179 | 125 seconds is shown as `2:05` |
| Download.Step | src/components/Download.tsx:50-139 | frame of every handler: videos change only on a search response, loading only on search start or response, the path only on a path response, progress only on a progress message, the guard map only on download events; an event for one url leaves every other url's entries alone; a request is posted exactly on a download start; a success toast exactly on a download success, an error toast exactly on the three failures |
| DownloadSteps.ProgressStoresAsReceived | src/components/Download.tsx:52-56 | a progress message stores exactly its (percent, downloaded, total) under its url, unclamped; other urls, the guard map and the other fields are unchanged; nothing is posted or shown |
| DownloadSteps.ProgressLastWriteWins | src/components/Download.tsx:53-56 | two progress messages for one url leave the state the later one alone leaves |
| DownloadSteps.StartDownloadSetsGuard | src/components/Download.tsx:98-131 | starting either format sets the url's guard whatever it held, leaves other urls and fields alone, and posts the format, the url and the current default path (None while unknown) |
| DownloadSteps.CompletionClearsGuard | src/components/Download.tsx:111-137 | success and failure of either format set the url's guard to false, hide the overlay, keep progress and other urls, and show the success toast or the format's error toast |
| DownloadSteps.ErrorTextNamesFormat | src/components/Download.tsx:113-137 | the MP4 and MP3 failure toasts differ, and are equal only for the same format |
| DownloadSteps.FormatsShareGuard | src/components/Download.tsx:100-135 | MP4 and MP3 of one url share one guard: either format's answer clears what the other's start set, and either start disables both buttons |
| DownloadSteps.DistinctUrlsCommute | src/components/Download.tsx:52-136 | progress and download events of two distinct urls leave the same state in either order |
| DownloadSteps.SearchStartSetsLoading | src/components/Download.tsx:82-83 | a search start raises the loading flag and changes nothing else |
| DownloadSteps.SearchOkReplacesVideos | src/components/Download.tsx:90-91 | a search response replaces the list wholesale by the response, clears loading, and keeps guards and progress of urls no longer listed |
| DownloadSteps.SearchFailKeepsLoading | src/components/Download.tsx:92-95 | a failed search keeps the old list, shows the search error toast, and leaves loading raised after a start |
| DownloadSteps.PathResolution | src/components/Download.tsx:60-73 | a path response sets the default path; a failed fetch changes nothing, keeps the path null at mount, and shows the path error toast |
| DownloadSteps.LabelMatchesDisabled | src/components/Download.tsx:184-206 | a button reads "Downloading..." exactly when it is disabled |
| DownloadSteps.RestartShowsStaleProgress | src/components/Download.tsx:210 | restarting a url that kept progress from an earlier download shows the overlay at once with the old figures |
| DownloadTraces.Run | src/components/Download.tsx:50-139 | over any event sequence: without a path response the path is unchanged; without a search response the list is unchanged and a raised loading flag stays raised |
| DownloadTraces.ProgressIsLastWrite | src/components/Download.tsx:52-56 | after any sequence, a url's stored progress is that of its last progress message in the sequence (the reference `LastProgressFor`), or what was stored before if there is none |
| DownloadTraces.ProgressForgetsHistory | src/components/Download.tsx:52-56 | runs ending in the same progress message store the same progress for its url, whatever the starting state and prefix |
| DownloadTraces.EntryDeterminedLocally | src/components/Download.tsx:52-137 | a url's progress and guard entries after a run depend only on its entries before the run |
| DownloadTraces.EntryDependsOnlyOnOwnEvents | src/components/Download.tsx:52-137 | a url's entries after any interleaving equal those after that url's own events alone |
| DownloadTraces.InterleavingIrrelevant | src/components/Download.tsx:52-137 | two interleavings with the same events for a url leave that url's entries equal |
| DownloadTraces.GuardInvInit | src/components/Download.tsx:45-47 | at mount no request is in flight and no guard is set |
| DownloadTraces.GuardInvStep | src/components/Download.tsx:98-139 | an admissible event keeps: at most one request in flight per url, and the guard true exactly while one is |
| DownloadTraces.GuardInvHolds | src/components/Download.tsx:182-197 | the same discipline holds after every sequence in which downloads start only from clickable buttons and answers match posted requests |
| DownloadTraces.GatedDownloadsNeverStick | src/components/Download.tsx:182-197 | from mount under the button gating, never two requests per url, and a url with none in flight has enabled buttons |
| DownloadTraces.OverlayTracksRequestAndLastProgress | src/components/Download.tsx:210-223 | from mount under the button gating, a url's overlay shows exactly while one request for it is in flight and some progress message for it has arrived in the run, and it shows the figures of the last such message |
| DownloadTraces.UngatedStartBreaksGuard | src/components/Download.tsx:98-139 | the handlers do not check the guard: two starts for one url are not admissible, and if they happen the first answer clears the guard while the other request is still in flight |
| Scenarios.SearchAndDownload | src/components/Download.tsx:82-139 | search then MP4 download: the card is clickable, the request carries a null path, the overlay shows 40% of "4MB"/"10MB", and the answer re-enables the buttons with the success toast |
| Scenarios.DownloadFailureRecovers | src/components/Download.tsx:113-116 | a failed MP4 download re-enables the buttons, shows the MP4 error toast and leaves progress untouched |
| Scenarios.TwoUrlsInFlight | src/components/Download.tsx:98-139 | downloads of two urls are in flight together, and their answers in either order give the same state |

## Left out

- The socket connection and the `socket.off` teardown on unmount: transport and lifecycle; progress messages are events.
- The HTTP calls, the backend URLs and `encodeURIComponent` on the query: foreign library calls; a download is the `Request` record it would post, a search or path fetch is its response event.
- The search query text (`query` state and the input box): it only feeds the search URL.
- Toast rendering and `console.error`: a toast is an abstract `Notice` with its level and text; console logging is dropped.
- React rendering, CSS classes, the skeleton cards and their count: presentation. Only the render conditions that gate or show state are modelled (disabled buttons, labels, overlay, cards shown only while not loading).
- KeyedStore.Lookup: url keys are assumed not to name properties every JavaScript object inherits from `Object.prototype` (`constructor`, `toString`, `__proto__`, ...). For such a url the view would read a truthy inherited value, disable and relabel both buttons from mount and show an empty overlay; real video urls never take those names, and the model reads every key without an own entry as absent.
- Path responses: `PathOk` carries a string; a response whose `path` field is missing or null (stored as `undefined` or `null`) is not modelled.
- Render scope: `ButtonDisabled`, `ButtonLabel` and `OverlayShown` are per-url predicates; whether the url's card is on screen at all is stated only in `Clickable`.
- React closures: the handlers read `defaultDownloadPath` from the render that created them; the model reads the path of the current state, as the view re-renders after the path arrives.
- Timing and real concurrency: callbacks run one at a time in any order; an arbitrary event sequence stands for every interleaving.
- Duration.Decimal: durations and seconds are natural numbers; fractional or negative JavaScript numbers, and the exponent notation `String` uses from 1e21 up, are not modelled.
- Download.Progress: the percentage is an integer rather than a JavaScript floating-point number; the code stores it without looking at it, so the type carries no further meaning.
