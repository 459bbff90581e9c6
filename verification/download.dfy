/**
 The state machine of the `Download` view: a search result list, a per-url
 progress store fed by the progress channel, a per-url "downloading" guard,
 the default destination path and the search loading flag.

 There is one `Event` per callback or synchronous handler step: a progress
 message, the path response, the synchronous part of a search or download click,
 and a search or download response. `Step` applies one event atomically, the way
 a callback runs on the single UI thread. Outgoing download
 requests and user notifications are returned as data next to the new state.
 */
module Download {
  import opened KeyedStore

  /** One search result; `url` is the key shared by the guard and progress stores. */
  datatype Video = Video(url: string, title: string, thumbnail: string, duration: nat)

  /** The last progress message received for a url: stored as received, unchecked. */
  datatype Progress = Progress(percent: int, downloaded: string, total: string)

  /** The two download targets, each with its own backend endpoint. */
  datatype Format = MP4 | MP3

  datatype State = State(
    videos: seq<Video>,
    progress: map<string, Progress>,
    isDownloading: map<string, bool>,
    defaultPath: Option<string>,
    loading: bool)

  datatype Event =
    | ProgressEvt(url: string, percent: int, downloaded: string, total: string)
    | PathOk(path: string)
    | PathFail
    | SearchStart
    | SearchOk(items: seq<Video>)
    | SearchFail
    | StartDownload(url: string, format: Format)
    | DownloadOk(url: string, format: Format)
    | DownloadFail(url: string, format: Format)

  /** The body posted to `/download/mp4` or `/download/mp3`. */
  datatype Request = Request(format: Format, url: string, path: Option<string>)

  datatype Level = Success | Error

  /** A toast shown to the user. */
  datatype Notice = Notice(level: Level, text: string)

  /** What one event produces: the next state, an outgoing request, a toast. */
  datatype Outcome = Outcome(state: State, request: Option<Request>, notice: Option<Notice>)

  const DownloadCompletedText := "Download completed"
  const SearchErrorText := "Error searching videos."
  const PathErrorText := "Error getting default download location. Please choose manually."

  function DownloadErrorText(f: Format): string
  {
    match f
    case MP4 => "Error downloading MP4."
    case MP3 => "Error downloading MP3."
  }

  /** The view as first mounted: nothing searched, nothing downloading, no path yet. */
  function Init(): State
  {
    State([], map[], map[], None, false)
  }

  /** Events that read or write the per-url stores, and the url they concern. */
  predicate Touches(e: Event, u: string)
  {
    (e.ProgressEvt? || e.StartDownload? || e.DownloadOk? || e.DownloadFail?) && e.url == u
  }

  /** Applies one event. Each field of the state changes only under the events
      that the view's handlers let write it. */
  function Step(s: State, e: Event): (r: Outcome)
    ensures r.state.videos != s.videos ==> e.SearchOk?
    ensures r.state.loading != s.loading ==> e.SearchStart? || e.SearchOk?
    ensures r.state.defaultPath != s.defaultPath ==> e.PathOk?
    ensures r.state.progress != s.progress ==> e.ProgressEvt?
    ensures r.state.isDownloading != s.isDownloading ==>
              e.StartDownload? || e.DownloadOk? || e.DownloadFail?
    ensures forall u :: !Touches(e, u) ==>
              Lookup(r.state.progress, u) == Lookup(s.progress, u) &&
              Lookup(r.state.isDownloading, u) == Lookup(s.isDownloading, u)
    ensures r.request.Some? <==> e.StartDownload?
    ensures r.notice.Some? && r.notice.value.level == Success <==> e.DownloadOk?
    ensures r.notice.Some? && r.notice.value.level == Error <==>
              e.PathFail? || e.SearchFail? || e.DownloadFail?
  {
    match e
    case ProgressEvt(url, percent, downloaded, total) =>
      Outcome(s.(progress := Put(s.progress, url, Progress(percent, downloaded, total))), None, None)
    case PathOk(path) =>
      Outcome(s.(defaultPath := Some(path)), None, None)
    case PathFail =>
      Outcome(s, None, Some(Notice(Error, PathErrorText)))
    case SearchStart =>
      Outcome(s.(loading := true), None, None)
    case SearchOk(items) =>
      Outcome(s.(videos := items, loading := false), None, None)
    case SearchFail =>
      // the catch branch shows a toast but never clears `loading`
      Outcome(s, None, Some(Notice(Error, SearchErrorText)))
    case StartDownload(url, format) =>
      // no look at the guard here: only the disabled button keeps a second click out
      Outcome(s.(isDownloading := Put(s.isDownloading, url, true)),
              Some(Request(format, url, s.defaultPath)), None)
    case DownloadOk(url, format) =>
      Outcome(s.(isDownloading := Put(s.isDownloading, url, false)),
              None, Some(Notice(Success, DownloadCompletedText)))
    case DownloadFail(url, format) =>
      Outcome(s.(isDownloading := Put(s.isDownloading, url, false)),
              None, Some(Notice(Error, DownloadErrorText(format))))
  }

  /** `isDownloading[url]` as a truth value: a url with no own entry reads `undefined`, falsy
      (urls naming inherited `Object.prototype` properties are not modelled). */
  predicate Downloading(s: State, url: string)
  {
    Lookup(s.isDownloading, url) == Some(true)
  }

  /** Both download buttons of a card are disabled exactly while the guard is set. */
  predicate ButtonDisabled(s: State, url: string)
  {
    Downloading(s, url)
  }

  function ButtonLabel(s: State, url: string, f: Format): string
  {
    if Downloading(s, url) then "Downloading..."
    else match f
      case MP4 => "Download MP4"
      case MP3 => "Download MP3"
  }

  /** The progress overlay needs both a set guard and a stored progress entry. */
  predicate OverlayShown(s: State, url: string)
  {
    Downloading(s, url) && url in s.progress
  }

  /** The urls of the cards on screen. */
  function Urls(vs: seq<Video>): set<string>
  {
    set i | 0 <= i < |vs| :: vs[i].url
  }

  /** A download button can be clicked: cards are rendered only while no search
      is loading, the url must be on one of them, and its buttons must be enabled. */
  predicate Clickable(s: State, url: string)
  {
    !s.loading && url in Urls(s.videos) && !ButtonDisabled(s, url)
  }
}
