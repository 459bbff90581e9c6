/**
 What each single event does to the view state, stated per handler of the
 `Download` view: the entry or field it writes, what it emits, and that every
 other url and every other field keeps what it had.
 */
module DownloadSteps {
  import opened KeyedStore
  import opened Download

  /** The state fields other than the two per-url stores. */
  predicate SameScalars(a: State, b: State)
  {
    a.videos == b.videos && a.defaultPath == b.defaultPath && a.loading == b.loading
  }

  /** A progress message stores exactly what was received under its url, with no
      clamping or validation of the percentage, and nothing else changes. */
  lemma ProgressStoresAsReceived(s: State, url: string, percent: int, downloaded: string, total: string)
    ensures var r := Step(s, ProgressEvt(url, percent, downloaded, total));
      && Lookup(r.state.progress, url) == Some(Progress(percent, downloaded, total))
      && AgreeExcept(r.state.progress, s.progress, url)
      && r.state.isDownloading == s.isDownloading
      && SameScalars(r.state, s)
      && r.request == None && r.notice == None
  {
  }

  /** Two progress messages for the same url: only the later one is visible, as if
      the earlier one had never arrived. */
  lemma ProgressLastWriteWins(s: State, e1: Event, e2: Event)
    requires e1.ProgressEvt? && e2.ProgressEvt? && e1.url == e2.url
    ensures Step(Step(s, e1).state, e2).state == Step(s, e2).state
  {
    PutLastWriteWins(s.progress, e1.url, Progress(e1.percent, e1.downloaded, e1.total),
                     Progress(e2.percent, e2.downloaded, e2.total));
  }

  /** Starting a download of either format sets the url's guard, leaves every other
      url alone, and posts the url with the default path as it currently is
      (`None` while the path is unknown). It does so whatever the guard held before. */
  lemma StartDownloadSetsGuard(s: State, url: string, f: Format)
    ensures var r := Step(s, StartDownload(url, f));
      && Downloading(r.state, url)
      && ButtonDisabled(r.state, url)
      && AgreeExcept(r.state.isDownloading, s.isDownloading, url)
      && r.state.progress == s.progress
      && SameScalars(r.state, s)
      && r.request == Some(Request(f, url, s.defaultPath))
      && r.notice == None
  {
  }

  /** Both completions of both formats clear the url's guard: no response leaves a
      card stuck on "Downloading...". Success shows the success toast; failure an
      error toast naming the format. The stored progress is kept. */
  lemma CompletionClearsGuard(s: State, e: Event)
    requires e.DownloadOk? || e.DownloadFail?
    ensures var r := Step(s, e);
      && Lookup(r.state.isDownloading, e.url) == Some(false)
      && !ButtonDisabled(r.state, e.url)
      && !OverlayShown(r.state, e.url)
      && AgreeExcept(r.state.isDownloading, s.isDownloading, e.url)
      && r.state.progress == s.progress
      && SameScalars(r.state, s)
      && r.request == None
      && (e.DownloadOk? ==> r.notice == Some(Notice(Success, DownloadCompletedText)))
      && (e.DownloadFail? ==> r.notice == Some(Notice(Error, DownloadErrorText(e.format))))
  {
  }

  /** The failure toast tells the two formats apart. */
  lemma ErrorTextNamesFormat(f: Format, g: Format)
    ensures DownloadErrorText(f) == DownloadErrorText(g) <==> f == g
  {
    if f != g {
      assert DownloadErrorText(f)[20] != DownloadErrorText(g)[20];
    }
  }

  /** The two formats share one guard: finishing one format's download re-enables
      the buttons of both. */
  lemma FormatsShareGuard(s: State, url: string, f: Format, g: Format)
    requires f != g
    ensures !ButtonDisabled(Step(Step(s, StartDownload(url, f)).state, DownloadOk(url, g)).state, url)
    ensures ButtonDisabled(Step(Step(s, DownloadOk(url, f)).state, StartDownload(url, g)).state, url)
  {
  }

  /** Events of distinct urls commute: their order leaves the same state. */
  lemma DistinctUrlsCommute(s: State, e1: Event, u1: string, e2: Event, u2: string)
    requires Touches(e1, u1) && Touches(e2, u2) && u1 != u2
    ensures Step(Step(s, e1).state, e2).state == Step(Step(s, e2).state, e1).state
  {
    var a := Step(Step(s, e1).state, e2).state;
    var b := Step(Step(s, e2).state, e1).state;
    assert a.progress == b.progress by {
      if e1.ProgressEvt? && e2.ProgressEvt? {
        PutCommutes(s.progress, u1, Progress(e1.percent, e1.downloaded, e1.total),
                    u2, Progress(e2.percent, e2.downloaded, e2.total));
      }
    }
    assert a.isDownloading == b.isDownloading by {
      if !e1.ProgressEvt? && !e2.ProgressEvt? {
        PutCommutes(s.isDownloading, u1, e1.StartDownload?, u2, e2.StartDownload?);
      }
    }
  }

  /** A search start raises the loading flag and touches nothing else. */
  lemma SearchStartSetsLoading(s: State)
    ensures var r := Step(s, SearchStart);
      r.state == s.(loading := true) && r.request == None && r.notice == None
  {
  }

  /** A search response replaces the result list wholesale and clears the loading
      flag; guards and progress of urls no longer listed are kept. */
  lemma SearchOkReplacesVideos(s: State, items: seq<Video>)
    ensures var r := Step(s, SearchOk(items));
      && r.state.videos == items
      && !r.state.loading
      && r.state.progress == s.progress
      && r.state.isDownloading == s.isDownloading
      && r.state.defaultPath == s.defaultPath
      && r.request == None && r.notice == None
  {
  }

  /** A failed search keeps the old list, shows an error toast and, as written,
      leaves the loading flag as it was: after a start, still raised. */
  lemma SearchFailKeepsLoading(s: State)
    ensures var r := Step(Step(s, SearchStart).state, SearchFail);
      && r.state.videos == s.videos
      && r.state.loading
      && r.notice == Some(Notice(Error, SearchErrorText))
  {
  }

  /** The default path is written by a successful fetch only. A failed fetch keeps
      it (null at mount) and shows an error toast. */
  lemma PathResolution(s: State, path: string)
    ensures Step(s, PathOk(path)).state.defaultPath == Some(path)
    ensures Step(s, PathFail).state == s
    ensures Step(s, PathFail).notice == Some(Notice(Error, PathErrorText))
    ensures Step(Init(), PathFail).state.defaultPath == None
  {
  }

  /** The button label reads "Downloading..." exactly when the button is disabled. */
  lemma LabelMatchesDisabled(s: State, url: string, f: Format)
    ensures ButtonLabel(s, url, f) == "Downloading..." <==> ButtonDisabled(s, url)
  {
    if !ButtonDisabled(s, url) {
      assert ButtonLabel(s, url, f)[9] != "Downloading..."[9];
    }
  }

  /** Progress is never cleared, so restarting a url whose earlier download left a
      progress entry shows the overlay at once, with the old figures. */
  lemma RestartShowsStaleProgress(s: State, url: string, f: Format)
    requires url in s.progress
    ensures OverlayShown(Step(s, StartDownload(url, f)).state, url)
    ensures Step(s, StartDownload(url, f)).state.progress[url] == s.progress[url]
  {
  }
}
