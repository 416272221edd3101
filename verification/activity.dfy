/** The activity request handler: input guards, the LOCKED flag, the
    timestamp-only fast path, and the full path that resolves both
    artworks, advances the page and pushes the composed activity. */
module Activity {
  import opened Interfaces
  import opened JsText
  import opened Paging
  import opened Artwork

  /** Seconds between the end of a track and the clearing of the activity. */
  const WAIT_BEFORE_CLEAR := 15

  const MICROPHONE := "\U{1F3A4} "
  const MUSICAL_NOTE := "\U{1F3B5} "

  /** `Math.round(ms / 1000)`: the nearest whole second, halves rounded up. */
  function RoundSeconds(ms: int): (s: int)
    ensures 1000 * s - 500 <= ms < 1000 * s + 500
  {
    (ms + 500) / 1000
  }

  /** The fragments a full update rotates through: the title, the artist
      and the custom messages as one fragment. */
  function RpcInfo(track: TrackData, config: Config): (info: seq<string>)
    ensures |info| == 3 && info[0] == track.title && info[2] == config.customMessages
    ensures StartsWith(info[1], MICROPHONE) && info[1][|MICROPHONE|..] == track.user.username
  {
    [track.title, MICROPHONE + track.user.username, config.customMessages]
  }

  /** The timing fields of an activity the presence connection stores. */
  datatype Timing = Timing(trackURL: string, trackDuration: int, startTimestamp: int, endTimestamp: int)

  /** The last activity the presence connection holds, as `getActivity`
      hands it out; the fast path edits it in place. */
  class StoredActivity {
    var trackURL: string
    var trackDuration: int
    var startTimestamp: int
    var endTimestamp: int

    constructor (trackURL: string, trackDuration: int, startTimestamp: int, endTimestamp: int)
      ensures View() == Timing(trackURL, trackDuration, startTimestamp, endTimestamp)
    {
      this.trackURL := trackURL;
      this.trackDuration := trackDuration;
      this.startTimestamp := startTimestamp;
      this.endTimestamp := endTimestamp;
    }

    function View(): (t: Timing)
      reads this
    {
      Timing(trackURL, trackDuration, startTimestamp, endTimestamp)
    }
  }

  function ViewOf(a: StoredActivity?): (view: Option<Timing>)
    reads a
  {
    if a == null then None else Some(a.View())
  }

  predicate Complete(request: Request) {
    request.url.Some? && request.pos.Some?
  }

  /** A request past the guards. */
  datatype Admitted = Admitted(url: string, pos: int)

  /** The track of the stored activity is the requested one. */
  predicate SameTrack(prior: Option<Timing>, req: Admitted) {
    prior.Some? && prior.value.trackURL == req.url
  }

  /** The calls that end an update whose activity is `sent`: the push, and
      the auto-clear only once the push succeeded. */
  function PushAndClear(sent: Sent, endTimestamp: int, push: Ack): (calls: seq<Call>) {
    [SetActivity(sent)] + (if push.Acked? then [SetActivityTimeout(endTimestamp + WAIT_BEFORE_CLEAR)] else [])
  }

  /** The fast path: new timestamps from the cached duration, and nothing
      else changes. */
  ghost predicate FastSettled(s: Session, req: Admitted, counter0: nat, count0: nat, prior: Timing, after: Option<Timing>,
                        nowMs: int, push: Ack, r: Ack, calls: seq<Call>)
    reads s
  {
    var start := RoundSeconds(nowMs) - req.pos;
    var end := start + RoundSeconds(prior.trackDuration);
    && after == Some(prior.(startTimestamp := start, endTimestamp := end))
    && s.pageCounter == counter0 && s.pageCount == count0
    && calls == PushAndClear(Refreshed(req.url, start, end), end, push)
    && r == push
  }

  /** The end of a full path whose two artworks resolved to `keys`: the
      page advanced once, the payload composed from it, pushed, and the
      auto-clear scheduled once the push succeeded. */
  ghost predicate Pushed(s: Session, req: Admitted, counter0: nat, t: TrackData, nowMs: int, keys: seq<ImageRef>,
                   push: Ack, r: Ack, calls: seq<Call>)
    reads s
  {
    var start := RoundSeconds(nowMs) - req.pos;
    var end := start + RoundSeconds(t.duration);
    var pages := Pages(RpcInfo(t, s.config));
    && s.pageCount == |pages|
    && s.pageCounter == (counter0 + 1) % |pages|
    && var payload := Payload(
         MUSICAL_NOTE + t.title, pages[s.pageCounter], start, end,
         SetArtwork(0, keys, s.pageCounter, s.pageCount, s.config, s.constants), t.title,
         SetArtwork(1, keys, s.pageCounter, s.pageCount, s.config, s.constants), t.user.username,
         [Button(s.config.listenButtonText, req.url)]);
       && calls == PushAndClear(Composed(payload), end, push)
       && r == push
  }

  /** The full path: fetch the metadata, resolve the track artwork, then the
      artist artwork, then push; the first failure ends it with its own
      error and leaves the page state alone. */
  ghost predicate FullSettled(s: Session, req: Admitted, counter0: nat, count0: nat, nowMs: int, w: World,
                        r: Ack, calls: seq<Call>)
    reads s
  {
    && |calls| >= 1 && calls[0] == GetTrackData(req.url)
    && match w.metadata
       case Err(e) =>
         && r == Refused(e) && calls == [GetTrackData(req.url)]
         && s.pageCounter == counter0 && s.pageCount == count0
       case Ok(t) => ArtworkSettled(s, req, counter0, count0, nowMs, t, w, r, calls[1..])
  }

  /** The full path once the metadata `t` arrived: the track artwork is
      resolved first, and a failure there ends the update. */
  ghost predicate ArtworkSettled(s: Session, req: Admitted, counter0: nat, count0: nat, nowMs: int, t: TrackData, w: World,
                           r: Ack, calls: seq<Call>)
    reads s
  {
    var (trackKey, trackCalls) := Resolve(s.config, s.constants, s.constants.track, t.id, t.artworkUrl, w.trackArtwork);
    if trackKey.Err? then
      && r == Refused(trackKey.error) && calls == trackCalls
      && s.pageCounter == counter0 && s.pageCount == count0
    else
      && trackCalls <= calls
      && ArtistSettled(s, req, counter0, count0, nowMs, t, w, trackKey.value, r, calls[|trackCalls|..])
  }

  /** The full path once the track artwork resolved to `trackKey`: the
      artist artwork is resolved next, and a failure there ends the update;
      otherwise the activity is pushed with keys `[track, artist]`. */
  ghost predicate ArtistSettled(s: Session, req: Admitted, counter0: nat, count0: nat, nowMs: int, t: TrackData, w: World,
                          trackKey: ImageRef, r: Ack, calls: seq<Call>)
    reads s
  {
    var (artistKey, artistCalls) := Resolve(s.config, s.constants, s.constants.artist, t.user.id, t.user.avatarUrl, w.artistArtwork);
    if artistKey.Err? then
      && r == Refused(artistKey.error) && calls == artistCalls
      && s.pageCounter == counter0 && s.pageCount == count0
    else
      && artistCalls <= calls
      && Pushed(s, req, counter0, t, nowMs, [trackKey, artistKey.value], w.push, r, calls[|artistCalls|..])
  }

  /** How an admitted request settles the session, given the cursor and page
      count before (`counter0`, `count0`) and the stored activity before and
      after (`prior`, `after`): LOCKED is clear again, and the stored
      activity's track decides between the two paths. */
  ghost predicate Settled(s: Session, req: Admitted, counter0: nat, count0: nat, prior: Option<Timing>, after: Option<Timing>,
                    nowMs: int, w: World, r: Ack, calls: seq<Call>)
    reads s
  {
    && !s.locked
    && if SameTrack(prior, req) then FastSettled(s, req, counter0, count0, prior.value, after, nowMs, w.push, r, calls)
       else after == prior && FullSettled(s, req, counter0, count0, nowMs, w, r, calls)
  }

  /** The state the handler closes over: the page cursor and count of
      `nextPage` and the LOCKED flag. */
  class Session {
    const config: Config
    const constants: ArtworkConstants
    var pageCounter: nat
    var pageCount: nat
    var locked: bool

    /** The cursor is within the page list, or no page list was built yet. */
    ghost predicate Valid()
      reads this
    {
      pageCounter < pageCount || (pageCounter == 0 && pageCount == 0)
    }

    constructor (config: Config, constants: ArtworkConstants)
      ensures this.config == config && this.constants == constants
      ensures pageCounter == 0 && pageCount == 0 && !locked
      ensures Valid()
    {
      this.config := config;
      this.constants := constants;
      pageCounter, pageCount, locked := 0, 0, false;
    }

    /** `nextPage(rpcInfo)`: rebuilds the page list, advances the cursor by
        one modulo its length and returns the page under the cursor. */
    method NextPage(rpcInfo: seq<string>) returns (page: string)
      requires rpcInfo != []
      modifies this`pageCounter, this`pageCount
      ensures pageCount == |Pages(rpcInfo)| >= |rpcInfo|
      ensures pageCounter == Step(old(pageCounter), pageCount) == (old(pageCounter) + 1) % pageCount
      ensures pageCounter < pageCount && page == Pages(rpcInfo)[pageCounter]
      ensures Valid()
    {
      var info := Pages(rpcInfo);
      pageCount := |info|;
      pageCounter := (pageCounter + 1) % pageCount;
      page := info[pageCounter];
    }

    /** `steps` consecutive full updates over the same fragments: the cursor
        ends `steps` advances on, which by `AdvancedIsModularSum` is the
        start plus `steps` modulo the page count, and the pages shown are
        the ones under the intermediate cursors, in order. */
    method RotatePages(rpcInfo: seq<string>, steps: nat) returns (shown: seq<string>)
      requires rpcInfo != [] && steps > 0
      modifies this`pageCounter, this`pageCount
      ensures Valid() && pageCount == |Pages(rpcInfo)|
      ensures pageCounter == Advanced(old(pageCounter), pageCount, steps)
      ensures |shown| == steps
      ensures forall j | 0 <= j < steps :: shown[j] == Pages(rpcInfo)[Advanced(old(pageCounter), pageCount, j + 1)]
    {
      ghost var c0 := pageCounter;
      ghost var pages := Pages(rpcInfo);
      ghost var n := |pages|;
      var page := NextPage(rpcInfo);
      shown := [page];
      for i := 1 to steps
        invariant pageCount == n && pageCounter == Advanced(c0, n, i) && |shown| == i
        invariant forall j | 0 <= j < i :: shown[j] == pages[Advanced(c0, n, j + 1)]
      {
        page := NextPage(rpcInfo);
        shown := shown + [page];
      }
    }

    /** The synchronous entry of the handler: the three guards, then LOCKED. */
    method Admit(request: Request, connected: bool) returns (r: Result<Admitted>)
      modifies this`locked
      ensures !Complete(request) ==> r == Err(MissingArgument) && locked == old(locked)
      ensures Complete(request) && !connected ==> r == Err(RpcNotConnected) && locked == old(locked)
      ensures Complete(request) && connected && old(locked) ==> r == Err(AlreadyProcessing) && locked
      ensures Complete(request) && connected && !old(locked) ==>
        r == Ok(Admitted(request.url.value, request.pos.value)) && locked
    {
      if !Complete(request) {
        return Err(MissingArgument);
      }
      if !connected {
        return Err(RpcNotConnected);
      }
      if locked {
        return Err(AlreadyProcessing);
      }
      locked := true;
      r := Ok(Admitted(request.url.value, request.pos.value));
    }

    /** The rest of the handler, run with LOCKED held; every exit goes
        through `success()` or `error()`, which clear LOCKED. */
    method Settle(req: Admitted, last: StoredActivity?, nowMs: int, w: World) returns (r: Ack, calls: seq<Call>)
      requires locked && Valid()
      modifies this`locked, this`pageCounter, this`pageCount, last
      ensures Valid()
      ensures Settled(this, req, old(pageCounter), old(pageCount), old(ViewOf(last)), ViewOf(last), nowMs, w, r, calls)
    {
      if last != null && last.trackURL == req.url {
        r, calls := Refresh(req, last, nowMs, w.push);
      } else {
        r, calls := FullUpdate(req, nowMs, w);
      }
      locked := false;
    }

    /** The fast path: the stored activity gets new timestamps and is pushed
        again. */
    method Refresh(req: Admitted, last: StoredActivity, nowMs: int, push: Ack) returns (r: Ack, calls: seq<Call>)
      requires last.trackURL == req.url
      modifies last
      ensures FastSettled(this, req, pageCounter, pageCount, old(last.View()), Some(last.View()), nowMs, push, r, calls)
    {
      last.startTimestamp := RoundSeconds(nowMs) - req.pos;
      last.endTimestamp := last.startTimestamp + RoundSeconds(last.trackDuration);
      calls := [SetActivity(Refreshed(last.trackURL, last.startTimestamp, last.endTimestamp))];
      r := push;
      if push.Acked? {
        calls := calls + [SetActivityTimeout(last.endTimestamp + WAIT_BEFORE_CLEAR)];
      }
    }

    /** The full path, from the metadata fetch to the push. */
    method FullUpdate(req: Admitted, nowMs: int, w: World) returns (r: Ack, calls: seq<Call>)
      requires Valid()
      modifies this`pageCounter, this`pageCount
      ensures Valid()
      ensures FullSettled(this, req, old(pageCounter), old(pageCount), nowMs, w, r, calls)
    {
      if w.metadata.Err? {
        return Refused(w.metadata.error), [GetTrackData(req.url)];
      }
      var rest;
      r, rest := ResolveAndPush(req, w.metadata.value, nowMs, w);
      calls := [GetTrackData(req.url)] + rest;
      assert calls[1..] == rest;
    }

    /** The track artwork, then the rest of the full path. */
    method ResolveAndPush(req: Admitted, track: TrackData, nowMs: int, w: World) returns (r: Ack, calls: seq<Call>)
      requires Valid()
      modifies this`pageCounter, this`pageCount
      ensures Valid()
      ensures ArtworkSettled(this, req, old(pageCounter), old(pageCount), nowMs, track, w, r, calls)
    {
      var trackKey, trackCalls := ProcessArtwork(config, constants, constants.track, track.id, track.artworkUrl, w.trackArtwork);
      if trackKey.Err? {
        return Refused(trackKey.error), trackCalls;
      }
      var rest;
      r, rest := ResolveArtistAndPush(req, track, trackKey.value, nowMs, w);
      calls := trackCalls + rest;
      assert calls[|trackCalls|..] == rest;
    }

    /** The artist artwork, then the push with keys `[track, artist]`. */
    method ResolveArtistAndPush(req: Admitted, track: TrackData, trackKey: ImageRef, nowMs: int, w: World)
      returns (r: Ack, calls: seq<Call>)
      requires Valid()
      modifies this`pageCounter, this`pageCount
      ensures Valid()
      ensures ArtistSettled(this, req, old(pageCounter), old(pageCount), nowMs, track, w, trackKey, r, calls)
    {
      var artistKey, artistCalls := ProcessArtwork(config, constants, constants.artist, track.user.id, track.user.avatarUrl, w.artistArtwork);
      if artistKey.Err? {
        return Refused(artistKey.error), artistCalls;
      }
      var rest;
      r, rest := Push(req, track, nowMs, [trackKey, artistKey.value], w.push);
      calls := artistCalls + rest;
      assert calls[|artistCalls|..] == rest;
    }

    /** The end of the full path: advance the page, compose the activity,
        push it and schedule the auto-clear once the push succeeded. */
    method Push(req: Admitted, track: TrackData, nowMs: int, keys: seq<ImageRef>, push: Ack)
      returns (r: Ack, calls: seq<Call>)
      modifies this`pageCounter, this`pageCount
      ensures Valid()
      ensures Pushed(this, req, old(pageCounter), track, nowMs, keys, push, r, calls)
    {
      var startTimestamp := RoundSeconds(nowMs) - req.pos;
      var endTimestamp := startTimestamp + RoundSeconds(track.duration);
      var state := NextPage(RpcInfo(track, config));
      var payload := Payload(
        MUSICAL_NOTE + track.title, state, startTimestamp, endTimestamp,
        SetArtwork(0, keys, pageCounter, pageCount, config, constants), track.title,
        SetArtwork(1, keys, pageCounter, pageCount, config, constants), track.user.username,
        [Button(config.listenButtonText, req.url)]);
      calls := [SetActivity(Composed(payload))];
      r := push;
      if push.Acked? {
        calls := calls + [SetActivityTimeout(endTimestamp + WAIT_BEFORE_CLEAR)];
      }
    }

    /** The handler: a request refused by a guard changes nothing and calls
        nothing; an admitted one settles as `Settled` describes. */
    method Update(request: Request, connected: bool, last: StoredActivity?, nowMs: int, w: World)
      returns (r: Ack, calls: seq<Call>)
      requires Valid()
      modifies this`locked, this`pageCounter, this`pageCount, last
      ensures Valid()
      ensures !Complete(request) || !connected || old(locked) ==>
        && r == Refused(if !Complete(request) then MissingArgument
                        else if !connected then RpcNotConnected
                        else AlreadyProcessing)
        && calls == [] && locked == old(locked)
        && pageCounter == old(pageCounter) && pageCount == old(pageCount)
        && ViewOf(last) == old(ViewOf(last))
      ensures Complete(request) && connected && !old(locked) ==>
        Settled(this, Admitted(request.url.value, request.pos.value), old(pageCounter), old(pageCount),
                old(ViewOf(last)), ViewOf(last), nowMs, w, r, calls)
    {
      var admitted := Admit(request, connected);
      if admitted.Err? {
        return Refused(admitted.error), [];
      }
      r, calls := Settle(admitted.value, last, nowMs, w);
    }
  }

  /** Joining two strings without delimiters gives none. */
  lemma NoDelimiterConcat(a: string, b: string)
    requires NoDelimiter(a) && NoDelimiter(b)
    ensures NoDelimiter(a + b)
  {
    forall i | 0 <= i < |a + b|
      ensures !IsPageDelimiter((a + b)[i])
    {
      if i >= |a| {
        assert (a + b)[i] == b[i - |a|];
      }
    }
  }

  /** A fragment without delimiters makes one page: itself, trimmed. */
  lemma PiecesOfPlain(fragment: string)
    requires NoDelimiter(fragment)
    ensures Pieces(fragment) == [Trim(fragment)]
  {
    SplitWithoutDelimiter(fragment);
  }

  /** When neither the username nor the custom messages hold a delimiter,
      the pages are the title's pieces followed by one artist page and one
      message page. */
  lemma PagesWithPlainFragments(t: TrackData, config: Config)
    requires NoDelimiter(t.user.username) && NoDelimiter(config.customMessages)
    ensures Pages(RpcInfo(t, config))
      == Pieces(t.title) + [Trim(MICROPHONE + t.user.username), Trim(config.customMessages)]
  {
    var artistFragment := MICROPHONE + t.user.username;
    PagesOfThree(t.title, artistFragment, config.customMessages);
    assert NoDelimiter(MICROPHONE);
    NoDelimiterConcat(MICROPHONE, t.user.username);
    PiecesOfPlain(artistFragment);
    PiecesOfPlain(config.customMessages);
  }

  /** With plain fragments, the large slot shows the track artwork on the
      last title page, the artist artwork on the artist page and the
      configured image elsewhere; the small slot always shows the artist
      artwork. */
  lemma SlotsFollowDisplayedFragment(t: TrackData, config: Config, c: ArtworkConstants, cursor: int,
                                     trackKey: ImageRef, artistKey: ImageRef)
    requires c.track == 1 && c.artist == 2
    requires NoDelimiter(t.user.username) && NoDelimiter(config.customMessages)
    ensures var count := |Pages(RpcInfo(t, config))|;
      var titlePages := |Split(t.title)|;
      && count == titlePages + 2
      && SetArtwork(0, [trackKey, artistKey], cursor, count, config, c)
           == (if cursor == titlePages - 1 then trackKey
               else if cursor == titlePages then artistKey
               else Fallback(config))
      && SetArtwork(1, [trackKey, artistKey], cursor, count, config, c) == artistKey
  {
    PagesWithPlainFragments(t, config);
  }

  /** A microphone-prefixed username holds a delimiter when the username
      does. */
  lemma ArtistFragmentKeepsDelimiter(username: string)
    requires !NoDelimiter(username)
    ensures |Split(MICROPHONE + username)| >= 2
  {
    var i :| 0 <= i < |username| && IsPageDelimiter(username[i]);
    assert (MICROPHONE + username)[|MICROPHONE| + i] == username[i];
    SplitWithDelimiter(MICROPHONE + username);
  }

  /** When the username or the custom messages hold a delimiter, the
      thresholds `pageCount - 3` and `pageCount - 2` fall past the title:
      the last title page shows the configured image, not the track's. */
  lemma ShiftedPagesMissTheTitle(t: TrackData, config: Config, c: ArtworkConstants, keys: seq<ImageRef>)
    requires c.track == 1
    requires !NoDelimiter(t.user.username) || !NoDelimiter(config.customMessages)
    ensures var count := |Pages(RpcInfo(t, config))|;
      var titlePages := |Split(t.title)|;
      && count >= titlePages + 3
      && SetArtwork(0, keys, titlePages - 1, count, config, c) == Fallback(config)
  {
    var artistFragment := MICROPHONE + t.user.username;
    PageCountOfThree(t.title, artistFragment, config.customMessages);
    if !NoDelimiter(t.user.username) {
      ArtistFragmentKeepsDelimiter(t.user.username);
    } else {
      SplitWithDelimiter(config.customMessages);
    }
  }

  /** With uploading off, a full update that gets its metadata and whose
      push succeeds makes exactly three calls: the metadata fetch, the push
      of an activity whose small image is the avatar URL and which lasts the
      track's rounded duration, and the auto-clear 15 seconds after its end. */
  lemma FullPathWithoutUpload(s: Session, req: Admitted, counter0: nat, count0: nat, nowMs: int, w: World,
                              r: Ack, calls: seq<Call>)
    requires FullSettled(s, req, counter0, count0, nowMs, w, r, calls)
    requires !s.config.uploadArtwork && s.constants.track == 1 && s.constants.artist == 2
    requires w.metadata.Ok? && w.push.Acked?
    ensures r == Acked && |calls| == 3
    ensures calls[0] == GetTrackData(req.url)
    ensures calls[1].SetActivity? && calls[1].sent.Composed?
    ensures var p := calls[1].sent.payload;
      && p.startTimestamp == RoundSeconds(nowMs) - req.pos
      && p.endTimestamp - p.startTimestamp == RoundSeconds(w.metadata.value.duration)
      && p.smallImageKey == w.metadata.value.user.avatarUrl
      && calls[2] == SetActivityTimeout(p.endTimestamp + WAIT_BEFORE_CLEAR)
  {
    var t := w.metadata.value;
    var prefix := [GetTrackData(req.url)];
    assert Resolve(s.config, s.constants, s.constants.track, t.id, t.artworkUrl, w.trackArtwork) == (Ok(t.artworkUrl), []);
    assert Resolve(s.config, s.constants, s.constants.artist, t.user.id, t.user.avatarUrl, w.artistArtwork) == (Ok(t.user.avatarUrl), []);
    assert prefix + [] + [] == prefix;
    assert calls == prefix + calls[1..];
  }

  /** Two requests overlapping in time: while the first is in flight the
      second is refused as already processing, and once the first settled
      a new request is admitted. */
  method OverlappingRequests(s: Session, first: Request, second: Request, last: StoredActivity?, nowMs: int, w: World)
    returns (admitted1: Result<Admitted>, admitted2: Result<Admitted>, settled: Ack, admitted3: Result<Admitted>)
    requires s.Valid() && !s.locked && Complete(first) && Complete(second)
    modifies s, last
    ensures admitted1.Ok? && admitted2 == Err(AlreadyProcessing) && admitted3.Ok?
  {
    admitted1 := s.Admit(first, true);
    admitted2 := s.Admit(second, true);
    var calls;
    settled, calls := s.Settle(admitted1.value, last, nowMs, w);
    admitted3 := s.Admit(second, true);
  }
}
