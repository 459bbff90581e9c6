/**
 Concrete runs of the view: a search followed by a download that succeeds, one
 that fails, and two downloads of different urls in flight at once.
 */
module Scenarios {
  import opened KeyedStore
  import opened Download
  import opened DownloadSteps

  const Cats := Video("v1", "Cats", "thumb", 125)

  /** Search, start an MP4 download, receive one progress message, then the answer.
      While the request is in flight the card shows 40% and "4MB of 10MB"; the answer
      re-enables the buttons and shows the success toast. */
  lemma SearchAndDownload()
    ensures var s2 := Step(Step(Init(), SearchStart).state, SearchOk([Cats])).state;
      var s3 := Step(s2, StartDownload("v1", MP4));
      var s4 := Step(s3.state, ProgressEvt("v1", 40, "4MB", "10MB")).state;
      var s5 := Step(s4, DownloadOk("v1", MP4));
      && Clickable(s2, "v1")
      && s3.request == Some(Request(MP4, "v1", None))
      && OverlayShown(s4, "v1")
      && s4.progress["v1"] == Progress(40, "4MB", "10MB")
      && !ButtonDisabled(s5.state, "v1")
      && s5.notice == Some(Notice(Success, DownloadCompletedText))
  {
    var s2 := Step(Step(Init(), SearchStart).state, SearchOk([Cats])).state;
    assert s2 == State([Cats], map[], map[], None, false);
    assert s2.videos[0].url == "v1";
    assert "v1" in Urls(s2.videos);
    var s3 := Step(s2, StartDownload("v1", MP4));
    assert s3.state == s2.(isDownloading := map["v1" := true]);
    var s4 := Step(s3.state, ProgressEvt("v1", 40, "4MB", "10MB")).state;
    assert s4 == s3.state.(progress := map["v1" := Progress(40, "4MB", "10MB")]);
    assert OverlayShown(s4, "v1");
  }

  /** A failed MP4 download re-enables the buttons, shows the MP4 error toast and
      leaves the stored progress as it was. */
  lemma DownloadFailureRecovers(s: State)
    ensures var s1 := Step(s, StartDownload("v1", MP4)).state;
      var r := Step(s1, DownloadFail("v1", MP4));
      && ButtonDisabled(s1, "v1")
      && !ButtonDisabled(r.state, "v1")
      && r.notice == Some(Notice(Error, "Error downloading MP4."))
      && r.state.progress == s.progress
  {
  }

  /** Two downloads of different urls and formats run at once: both guards are set
      together, and the two answers give the same state in either order. */
  lemma TwoUrlsInFlight(s: State)
    ensures var both := Step(Step(s, StartDownload("v1", MP4)).state, StartDownload("v2", MP3)).state;
      && ButtonDisabled(both, "v1") && ButtonDisabled(both, "v2")
      && Step(Step(both, DownloadOk("v1", MP4)).state, DownloadFail("v2", MP3)).state
         == Step(Step(both, DownloadFail("v2", MP3)).state, DownloadOk("v1", MP4)).state
  {
    var both := Step(Step(s, StartDownload("v1", MP4)).state, StartDownload("v2", MP3)).state;
    DistinctUrlsCommute(both, DownloadOk("v1", MP4), "v1", DownloadFail("v2", MP3), "v2");
  }
}
