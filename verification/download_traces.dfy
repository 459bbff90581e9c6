/**
 Event sequences. Callbacks of the view run one at a time in whatever order the
 network delivers them, so an arbitrary `seq<Event>` folded with `Step` covers
 every interleaving of searches, path fetches, progress messages and downloads.

 Three families of facts are proved here:
 - the progress store holds, per url, the last progress message of that url
   (`LastProgressFor` is the reference definition), whatever came before;
 - the entry of a url depends only on that url's own events, in their order,
   not on how other urls' events are interleaved with them;
 - under the gating the view applies (a download can only be started from an
   enabled button), each url has at most one outstanding request, and its
   guard is set exactly while that request is outstanding. Without the gating
   the guard can be cleared while a request is still outstanding.
 */
module DownloadTraces {
  import opened KeyedStore
  import opened Download

  /** Applies the events of `t` in order, starting from `s`. */
  function Run(s: State, t: seq<Event>): (r: State)
    ensures (forall i :: 0 <= i < |t| ==> !t[i].PathOk?) ==> r.defaultPath == s.defaultPath
    ensures (forall i :: 0 <= i < |t| ==> !t[i].SearchOk?) ==> r.videos == s.videos
    ensures (forall i :: 0 <= i < |t| ==> !t[i].SearchOk?) && s.loading ==> r.loading
    decreases |t|
  {
    if |t| == 0 then s else Run(Step(s, t[0]).state, t[1..])
  }

  /** Running two sequences one after the other is running their concatenation. */
  lemma {:induction false} RunAppend(s: State, a: seq<Event>, b: seq<Event>)
    ensures Run(s, a + b) == Run(Run(s, a), b)
    decreases |a|
  {
    if |a| > 0 {
      assert (a + b)[0] == a[0];
      assert (a + b)[1..] == a[1..] + b;
      RunAppend(Step(s, a[0]).state, a[1..], b);
    } else {
      assert a + b == b;
    }
  }

  /** Reference definition: the figures of the last progress message for `u` in `t`. */
  function LastProgressFor(t: seq<Event>, u: string): Option<Progress>
    decreases |t|
  {
    if |t| == 0 then None
    else
      var e := t[|t| - 1];
      if e.ProgressEvt? && e.url == u then Some(Progress(e.percent, e.downloaded, e.total))
      else LastProgressFor(t[..|t| - 1], u)
  }

  /** Last write wins over whole sequences: after `t`, the stored progress of `u` is
      that of the last progress message for `u` in `t`, or what was stored before
      when `t` holds none. */
  lemma {:induction false} ProgressIsLastWrite(s: State, t: seq<Event>, u: string)
    ensures Lookup(Run(s, t).progress, u) ==
              if LastProgressFor(t, u).Some? then LastProgressFor(t, u) else Lookup(s.progress, u)
    decreases |t|
  {
    if |t| > 0 {
      var init, e := t[..|t| - 1], t[|t| - 1];
      assert t == init + [e];
      RunAppend(s, init, [e]);
      assert [e][1..] == [];
      ProgressIsLastWrite(s, init, u);
    }
  }

  /** History does not matter: two runs that end with the same progress message for
      `u` store the same progress for `u`, from any states and after any prefixes. */
  lemma ProgressForgetsHistory(s1: State, a: seq<Event>, s2: State, b: seq<Event>, e: Event)
    requires e.ProgressEvt?
    ensures Lookup(Run(s1, a + [e]).progress, e.url) == Lookup(Run(s2, b + [e]).progress, e.url)
  {
    ProgressIsLastWrite(s1, a + [e], e.url);
    ProgressIsLastWrite(s2, b + [e], e.url);
    assert (a + [e])[..|a + [e]| - 1] == a;
    assert (b + [e])[..|b + [e]| - 1] == b;
  }

  /** What the view holds for one url: its progress entry and its guard entry. */
  function Entry(s: State, u: string): (Option<Progress>, Option<bool>)
  {
    (Lookup(s.progress, u), Lookup(s.isDownloading, u))
  }

  /** The events of `t` that concern `u`, in their original order. */
  function Only(t: seq<Event>, u: string): (r: seq<Event>)
    ensures forall i :: 0 <= i < |r| ==> Touches(r[i], u)
    ensures |r| <= |t|
    decreases |t|
  {
    if |t| == 0 then []
    else if Touches(t[0], u) then [t[0]] + Only(t[1..], u)
    else Only(t[1..], u)
  }

  /** One step moves equal entries of a url to equal entries. */
  lemma StepEntryLocal(s1: State, s2: State, e: Event, u: string)
    requires Entry(s1, u) == Entry(s2, u)
    ensures Entry(Step(s1, e).state, u) == Entry(Step(s2, e).state, u)
  {
    if !Touches(e, u) {
      assert Entry(Step(s1, e).state, u) == Entry(s1, u);
      assert Entry(Step(s2, e).state, u) == Entry(s2, u);
    } else {
      match e
      case ProgressEvt(v, p, d, t) =>
        assert Entry(Step(s1, e).state, u).0 == Some(Progress(p, d, t));
      case StartDownload(v, f) =>
        assert Entry(Step(s1, e).state, u).1 == Some(true);
      case DownloadOk(v, f) =>
        assert Entry(Step(s1, e).state, u).1 == Some(false);
      case DownloadFail(v, f) =>
        assert Entry(Step(s1, e).state, u).1 == Some(false);
    }
  }

  /** A url's entry after a run depends on its entry before the run and nothing else
      of the starting state. */
  lemma {:induction false} EntryDeterminedLocally(s1: State, s2: State, t: seq<Event>, u: string)
    requires Entry(s1, u) == Entry(s2, u)
    ensures Entry(Run(s1, t), u) == Entry(Run(s2, t), u)
    decreases |t|
  {
    if |t| > 0 {
      var e := t[0];
      StepEntryLocal(s1, s2, e, u);
      EntryDeterminedLocally(Step(s1, e).state, Step(s2, e).state, t[1..], u);
    }
  }

  /** Independence of urls: a url's entry after any interleaving is the entry after
      that url's own events alone. */
  lemma {:induction false} EntryDependsOnlyOnOwnEvents(s: State, t: seq<Event>, u: string)
    ensures Entry(Run(s, t), u) == Entry(Run(s, Only(t, u)), u)
    decreases |t|
  {
    if |t| > 0 {
      var e := t[0];
      var s' := Step(s, e).state;
      EntryDependsOnlyOnOwnEvents(s', t[1..], u);
      if Touches(e, u) {
        var o := [e] + Only(t[1..], u);
        assert o[0] == e && o[1..] == Only(t[1..], u);
      } else {
        assert Entry(s', u) == Entry(s, u);
        EntryDeterminedLocally(s', s, Only(t[1..], u), u);
      }
    }
  }

  /** Two interleavings that agree on the events of `u` leave `u` in the same place:
      how downloads of other urls complete around it makes no difference. */
  lemma InterleavingIrrelevant(s: State, t1: seq<Event>, t2: seq<Event>, u: string)
    requires Only(t1, u) == Only(t2, u)
    ensures Entry(Run(s, t1), u) == Entry(Run(s, t2), u)
  {
    EntryDependsOnlyOnOwnEvents(s, t1, u);
    EntryDependsOnlyOnOwnEvents(s, t2, u);
  }

  /** A download request that has been posted and not yet answered. */
  datatype Pending = Pending(url: string, format: Format)

  /** The view together with the requests it has in flight. */
  datatype World = World(state: State, pending: multiset<Pending>)

  function Outstanding(w: World, u: string): nat
  {
    w.pending[Pending(u, MP4)] + w.pending[Pending(u, MP3)]
  }

  /** An event the environment can deliver: a download starts only from a clickable
      button, and a response answers a request that is in flight. */
  predicate Admissible(w: World, e: Event)
  {
    match e
    case StartDownload(u, f) => Clickable(w.state, u)
    case DownloadOk(u, f) => Pending(u, f) in w.pending
    case DownloadFail(u, f) => Pending(u, f) in w.pending
    case _ => true
  }

  function WorldStep(w: World, e: Event): World
  {
    var s' := Step(w.state, e).state;
    match e
    case StartDownload(u, f) => World(s', w.pending + multiset{Pending(u, f)})
    case DownloadOk(u, f) => World(s', w.pending - multiset{Pending(u, f)})
    case DownloadFail(u, f) => World(s', w.pending - multiset{Pending(u, f)})
    case _ => World(s', w.pending)
  }

  /** Every event of `t` is admissible where it occurs. */
  predicate ValidTrace(w: World, t: seq<Event>)
    decreases |t|
  {
    |t| == 0 || (Admissible(w, t[0]) && ValidTrace(WorldStep(w, t[0]), t[1..]))
  }

  function RunWorld(w: World, t: seq<Event>): World
    decreases |t|
  {
    if |t| == 0 then w else RunWorld(WorldStep(w, t[0]), t[1..])
  }

  /** The guard discipline: at most one request per url, and the guard set exactly
      while it is outstanding. */
  ghost predicate GuardInv(w: World)
  {
    forall u :: Outstanding(w, u) <= 1 && (Outstanding(w, u) == 1 <==> Downloading(w.state, u))
  }

  function InitWorld(): World
  {
    World(Init(), multiset{})
  }

  /** The view tracked by a world is the view the plain run computes. */
  lemma {:induction false} RunWorldState(w: World, t: seq<Event>)
    ensures RunWorld(w, t).state == Run(w.state, t)
    decreases |t|
  {
    if |t| > 0 {
      RunWorldState(WorldStep(w, t[0]), t[1..]);
    }
  }

  lemma GuardInvInit()
    ensures GuardInv(InitWorld())
  {
  }

  /** One admissible event keeps the guard discipline. */
  lemma GuardInvStep(w: World, e: Event)
    requires GuardInv(w) && Admissible(w, e)
    ensures GuardInv(WorldStep(w, e))
  {
    var w' := WorldStep(w, e);
    forall u
      ensures Outstanding(w', u) <= 1 && (Outstanding(w', u) == 1 <==> Downloading(w'.state, u))
    {
      assert Outstanding(w, u) <= 1 && (Outstanding(w, u) == 1 <==> Downloading(w.state, u));
      match e
      case StartDownload(v, f) =>
        if v == u {
          assert !Downloading(w.state, u);
          var g := if f == MP4 then MP3 else MP4;
          assert w'.pending[Pending(u, f)] == w.pending[Pending(u, f)] + 1;
          assert w'.pending[Pending(u, g)] == w.pending[Pending(u, g)];
          assert Outstanding(w', u) == 1;
        } else {
          assert Outstanding(w', u) == Outstanding(w, u);
        }
      case DownloadOk(v, f) =>
        if v == u {
          var g := if f == MP4 then MP3 else MP4;
          assert w'.pending[Pending(u, f)] == w.pending[Pending(u, f)] - 1;
          assert w'.pending[Pending(u, g)] == w.pending[Pending(u, g)];
          assert Outstanding(w', u) == 0;
        } else {
          assert Outstanding(w', u) == Outstanding(w, u);
        }
      case DownloadFail(v, f) =>
        if v == u {
          var g := if f == MP4 then MP3 else MP4;
          assert w'.pending[Pending(u, f)] == w.pending[Pending(u, f)] - 1;
          assert w'.pending[Pending(u, g)] == w.pending[Pending(u, g)];
          assert Outstanding(w', u) == 0;
        } else {
          assert Outstanding(w', u) == Outstanding(w, u);
        }
      case _ =>
        assert Outstanding(w', u) == Outstanding(w, u);
    }
  }

  /** The guard discipline holds after every admissible sequence of events. */
  lemma {:induction false} GuardInvHolds(w: World, t: seq<Event>)
    requires GuardInv(w) && ValidTrace(w, t)
    ensures GuardInv(RunWorld(w, t))
    decreases |t|
  {
    if |t| > 0 {
      GuardInvStep(w, t[0]);
      GuardInvHolds(WorldStep(w, t[0]), t[1..]);
    }
  }

  /** From the mounted view, under the view's gating: never two requests in flight
      for one url, and a url with nothing in flight always has enabled buttons, so
      no answered download leaves its card stuck. */
  lemma GatedDownloadsNeverStick(t: seq<Event>, u: string)
    requires ValidTrace(InitWorld(), t)
    ensures Outstanding(RunWorld(InitWorld(), t), u) <= 1
    ensures Outstanding(RunWorld(InitWorld(), t), u) == 0 <==> !ButtonDisabled(Run(Init(), t), u)
  {
    GuardInvInit();
    GuardInvHolds(InitWorld(), t);
    RunWorldState(InitWorld(), t);
  }

  /** From the mounted view, under the view's gating, the progress overlay of a url
      shows exactly while a request for it is in flight and some progress message
      for it has arrived, and it then shows the figures of the last such message. */
  lemma OverlayTracksRequestAndLastProgress(t: seq<Event>, u: string)
    requires ValidTrace(InitWorld(), t)
    ensures OverlayShown(Run(Init(), t), u) <==>
              Outstanding(RunWorld(InitWorld(), t), u) == 1 && LastProgressFor(t, u).Some?
    ensures OverlayShown(Run(Init(), t), u) ==> Run(Init(), t).progress[u] == LastProgressFor(t, u).value
  {
    GatedDownloadsNeverStick(t, u);
    ProgressIsLastWrite(Init(), t, u);
  }

  /** The handler itself never consults the guard. Without the disabled button, two
      starts for one url put two requests in flight, and the first answer clears the
      guard while the second request is still outstanding. */
  lemma UngatedStartBreaksGuard(u: string)
    ensures var w0 := World(Init().(videos := [Video(u, "", "", 0)]), multiset{});
      var t := [StartDownload(u, MP4), StartDownload(u, MP3), DownloadOk(u, MP4)];
      && !ValidTrace(w0, t)
      && Outstanding(RunWorld(w0, t), u) == 1
      && !Downloading(RunWorld(w0, t).state, u)
  {
    var w0 := World(Init().(videos := [Video(u, "", "", 0)]), multiset{});
    var w1 := WorldStep(w0, StartDownload(u, MP4));
    var w2 := WorldStep(w1, StartDownload(u, MP3));
    var w3 := WorldStep(w2, DownloadOk(u, MP4));
    assert w0.state.videos[0].url == u;
    assert u in Urls(w0.state.videos);
    assert Admissible(w0, StartDownload(u, MP4));
    assert !Admissible(w1, StartDownload(u, MP3));
    assert w3.pending == multiset{Pending(u, MP3)};
    var t := [StartDownload(u, MP4), StartDownload(u, MP3), DownloadOk(u, MP4)];
    assert t[1..] == [StartDownload(u, MP3), DownloadOk(u, MP4)];
    assert t[1..][1..] == [DownloadOk(u, MP4)];
    assert t[1..][1..][1..] == [];
    assert RunWorld(w3, []) == w3;
    assert RunWorld(w2, t[1..][1..]) == w3;
    assert RunWorld(w1, t[1..]) == w3;
    assert RunWorld(w0, t) == w3;
  }
}
