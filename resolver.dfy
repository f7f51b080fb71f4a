/** The catalog resolution loop of `analyze_mood`: every recommended
    (artist, track) pair is looked up in the music catalog, one song at a
    time and in order, and the accepted hits are collected. The catalog is
    an oracle `search` from a query to its ranked items or a raised
    exception. */
module Resolver {
  import opened Text
  import opened PyJson
  import opened Matching

  /** One item of a catalog search answer. `artists` holds the artist names
      in catalog order; `albumImages` the album art URLs. */
  datatype CatalogTrack = CatalogTrack(
    id: string,
    name: string,
    artists: seq<string>,
    album: string,
    albumImages: seq<string>,
    previewUrl: Option<string>,
    externalUrl: string,
    uri: string)

  /** The track record the endpoint returns. */
  datatype ResolvedTrack = ResolvedTrack(
    id: string,
    name: string,
    artist: string,
    album: string,
    previewUrl: Option<string>,
    externalUrl: string,
    image: Option<string>,
    uri: string)

  /** The two catalog queries. The exact one is sent as
      `artist:"<artist>" track:"<track>"`, the broad one as
      `<artist> <track>`; both texts are functions of the two fields, which
      is why the query carries the fields themselves. */
  datatype Query = ExactQuery(artist: Json, track: Json) | BroadQuery(artist: Json, track: Json)

  /** What the catalog answers: ranked items, or an exception raised by the
      client (network failure, rate limit, malformed answer). */
  datatype SearchResult = Items(items: seq<CatalogTrack>) | Raised

  /** Why a song contributes no track. */
  datatype DropReason =
    | MissingField   // artist or track missing or empty: no search at all
    | LookupFailed   // an exception inside the per-song `try`
    | Rejected       // the exact top hit failed the acceptance test
    | NoMatch        // the broad search found nothing

  /** The effect of one recommendation: a track, nothing, or an exception
      that escapes the loop (the element is not a dictionary, so `song.get`
      raises outside the per-song `try`). */
  datatype SongOutcome = Added(track: ResolvedTrack) | Dropped(reason: DropReason) | Fatal

  /** One recommendation's outcome together with the queries it issued. */
  datatype Step = Step(outcome: SongOutcome, queries: seq<Query>)

  /** The state of the loop: whether an exception escaped, the tracks
      collected and every query issued so far. */
  datatype Resolution = Resolution(fatal: bool, tracks: seq<ResolvedTrack>, queries: seq<Query>)

  /** The record built from a catalog item; its artist is the first one. */
  function Record(hit: CatalogTrack): (t: ResolvedTrack)
    requires |hit.artists| > 0
    ensures t.id == hit.id && t.name == hit.name && t.artist == hit.artists[0]
    ensures t.album == hit.album && t.previewUrl == hit.previewUrl
    ensures t.externalUrl == hit.externalUrl && t.uri == hit.uri
    ensures t.image.Some? <==> |hit.albumImages| > 0
    ensures t.image.Some? ==> t.image.value == hit.albumImages[0]
  {
    ResolvedTrack(
      hit.id, hit.name, hit.artists[0], hit.album, hit.previewUrl, hit.externalUrl,
      if |hit.albumImages| > 0 then Some(hit.albumImages[0]) else None,
      hit.uri)
  }

  /** `song.get(key, '')`, for a recommendation that is a dictionary. */
  function Field(song: Json, key: string): Json
    requires song.JObj?
  {
    Get(song.fields, key, JStr(""))
  }

  /** The verdict on the exact search's top hit. Lower-casing a requested
      artist or track that is not a string raises, and so does taking the
      first artist of a hit that lists none; either exception drops the
      song inside the per-song `try`. */
  function JudgeExactHit(artist: Json, track: Json, hit: CatalogTrack): (o: SongOutcome)
    ensures !o.Fatal?
    ensures o.Added? <==>
      artist.JStr? && track.JStr? && |hit.artists| > 0
      && Accepts(Lower(artist.str), Lower(hit.artists[0]), Lower(hit.name))
    ensures o.Added? ==> |hit.artists| > 0 && o.track == Record(hit)
    ensures o == Dropped(Rejected) <==>
      artist.JStr? && track.JStr? && |hit.artists| > 0
      && !Accepts(Lower(artist.str), Lower(hit.artists[0]), Lower(hit.name))
  {
    if !artist.JStr? || !track.JStr? || |hit.artists| == 0 then Dropped(LookupFailed)
    else if Accepts(Lower(artist.str), Lower(hit.artists[0]), Lower(hit.name)) then Added(Record(hit))
    else Dropped(Rejected)
  }

  /** Acceptance ignores case: a hit whose first artist equals the
      requested artist once both are lower-cased, and whose lower-cased
      title carries no variant marker, is added. */
  lemma CaseInsensitiveArtistAccepted(artist: Json, track: Json, hit: CatalogTrack)
    requires artist.JStr? && track.JStr? && |hit.artists| > 0
    requires Lower(artist.str) == Lower(hit.artists[0])
    requires forall m | m in VariantMarkers :: !Occurs(m, Lower(hit.name))
    ensures JudgeExactHit(artist, track, hit) == Added(Record(hit))
  {
    assert "remix" in VariantMarkers && "cover" in VariantMarkers && "version" in VariantMarkers;
    SameArtistAccepted(Lower(artist.str), Lower(hit.name));
  }

  /** The requested track title plays no part in the verdict, as long as
      it is a string that can be lower-cased. */
  lemma TrackTitleIrrelevant(artist: Json, track1: Json, track2: Json, hit: CatalogTrack)
    requires track1.JStr? && track2.JStr?
    ensures JudgeExactHit(artist, track1, hit) == JudgeExactHit(artist, track2, hit)
  {
  }

  /** The broad search's top hit is taken without any test; only a hit with
      no artist fails, when its record is built. */
  function TakeBroadHit(hit: CatalogTrack): (o: SongOutcome)
    ensures o.Added? <==> |hit.artists| > 0
    ensures o.Added? ==> |hit.artists| > 0 && o.track == Record(hit)
    ensures !o.Added? ==> o == Dropped(LookupFailed)
  {
    if |hit.artists| == 0 then Dropped(LookupFailed) else Added(Record(hit))
  }

  /** The per-song `try` block: the exact search, then either the verdict
      on its top hit or, when it found nothing, the broad search. Every
      exception raised here drops the song. */
  function LookUp(artist: Json, track: Json, search: Query -> SearchResult): (r: Step)
    ensures !r.outcome.Fatal?
    ensures 1 <= |r.queries| <= 2 && r.queries[0] == ExactQuery(artist, track)
  {
    var exact := ExactQuery(artist, track);
    var results := search(exact);
    if results.Raised? then Step(Dropped(LookupFailed), [exact])
    else if |results.items| > 0 then Step(JudgeExactHit(artist, track, results.items[0]), [exact])
    else
      var broad := BroadQuery(artist, track);
      var more := search(broad);
      if more.Raised? then Step(Dropped(LookupFailed), [exact, broad])
      else if |more.items| > 0 then Step(TakeBroadHit(more.items[0]), [exact, broad])
      else Step(Dropped(NoMatch), [exact, broad])
  }

  /** One iteration of the loop. */
  function ResolveSong(song: Json, search: Query -> SearchResult): (r: Step)
    // only a recommendation that is not a dictionary escapes the loop
    ensures r.outcome.Fatal? <==> !song.JObj?
    ensures |r.queries| <= 2
  {
    if !song.JObj? then Step(Fatal, [])
    else
      var artist := Field(song, "artist");
      var track := Field(song, "track");
      if !(Truthy(artist) && Truthy(track)) then Step(Dropped(MissingField), [])
      else LookUp(artist, track, search)
  }

  /** What one iteration does, case by case. */
  lemma ResolveSongCases(song: Json, search: Query -> SearchResult)
    ensures var r := ResolveSong(song, search);
      // a recommendation that is not a dictionary issues no search
      && (!song.JObj? ==> r.queries == [])
      // a missing or empty artist or track issues no search
      && (song.JObj? && !(Truthy(Field(song, "artist")) && Truthy(Field(song, "track"))) ==>
            r == Step(Dropped(MissingField), []))
      // otherwise the exact query comes first
      && (song.JObj? && Truthy(Field(song, "artist")) && Truthy(Field(song, "track")) ==>
            1 <= |r.queries| && r.queries[0] == ExactQuery(Field(song, "artist"), Field(song, "track")))
      // the broad query is issued exactly when the exact one found nothing
      && (|r.queries| == 2 <==> |r.queries| >= 1 && search(r.queries[0]) == Items([]))
      && (|r.queries| == 2 ==> r.queries[1] == BroadQuery(r.queries[0].artist, r.queries[0].track))
      // an exception from the exact search drops the song
      && (|r.queries| >= 1 && search(r.queries[0]).Raised? ==> r.outcome == Dropped(LookupFailed))
      // a top exact hit is judged alone: a rejected one drops the song
      && (|r.queries| >= 1 && search(r.queries[0]).Items? && |search(r.queries[0]).items| > 0 ==>
            r == Step(JudgeExactHit(r.queries[0].artist, r.queries[0].track, search(r.queries[0]).items[0]), r.queries[..1]))
      // a non-empty broad answer's top hit is taken without any test
      && (|r.queries| == 2 && search(r.queries[1]).Items? && |search(r.queries[1]).items| > 0 ==>
            r.outcome == TakeBroadHit(search(r.queries[1]).items[0]))
      // every track added is the top item of the last search issued
      && (r.outcome.Added? ==>
            |r.queries| >= 1
            && var last := search(r.queries[|r.queries| - 1]);
            last.Items? && |last.items| > 0 && |last.items[0].artists| > 0
            && r.outcome.track == Record(last.items[0]))
  {
  }

  /** The loop state after one more recommendation. */
  function Extend(r: Resolution, step: Step): Resolution {
    if r.fatal then r
    else match step.outcome
      case Fatal => Resolution(true, r.tracks, r.queries + step.queries)
      case Dropped(_) => Resolution(false, r.tracks, r.queries + step.queries)
      case Added(t) => Resolution(false, r.tracks + [t], r.queries + step.queries)
  }

  /** The loop state after a run of iterations, folded from the first. At
      most one track per iteration, at most two queries per iteration. */
  function Run(steps: seq<Step>): (r: Resolution)
    ensures |r.tracks| <= |steps|
    ensures (forall i | 0 <= i < |steps| :: |steps[i].queries| <= 2) ==> |r.queries| <= 2 * |steps|
    decreases |steps|
  {
    if steps == [] then Resolution(false, [], [])
    else
      var n := |steps| - 1;
      assert forall i | 0 <= i < n :: steps[..n][i] == steps[i];
      Extend(Run(steps[..n]), steps[n])
  }

  /** `f` applied to every element of `s`, in order. */
  function MapSeq<A, B>(f: A -> B, s: seq<A>): (r: seq<B>)
    ensures |r| == |s|
    ensures forall i | 0 <= i < |s| :: r[i] == f(s[i])
  {
    seq(|s|, i requires 0 <= i < |s| => f(s[i]))
  }

  lemma MapSeqAppend<A, B>(f: A -> B, a: seq<A>, b: seq<A>)
    ensures MapSeq(f, a + b) == MapSeq(f, a) + MapSeq(f, b)
  {
  }

  /** The iterations over `songs`, one per recommendation, in order. */
  function Steps(songs: seq<Json>, search: Query -> SearchResult): (steps: seq<Step>)
    ensures |steps| == |songs|
  {
    MapSeq(song => ResolveSong(song, search), songs)
  }

  /** The i-th iteration is the i-th recommendation's. */
  lemma StepsAt(songs: seq<Json>, search: Query -> SearchResult)
    ensures forall i | 0 <= i < |songs| :: Steps(songs, search)[i] == ResolveSong(songs[i], search)
  {
  }

  /** The loop state after running over `songs`. */
  function Resolve(songs: seq<Json>, search: Query -> SearchResult): (r: Resolution)
    ensures |r.tracks| <= |songs|
    ensures |r.queries| <= 2 * |songs|
  {
    StepsAt(songs, search);
    Run(Steps(songs, search))
  }

  lemma RunSnoc(steps: seq<Step>, step: Step)
    ensures Run(steps + [step]) == Extend(Run(steps), step)
  {
    assert (steps + [step])[..|steps|] == steps;
  }

  lemma StepsAppend(a: seq<Json>, b: seq<Json>, search: Query -> SearchResult)
    ensures Steps(a + b, search) == Steps(a, search) + Steps(b, search)
  {
    MapSeqAppend(song => ResolveSong(song, search), a, b);
  }

  lemma StepsPrefix(songs: seq<Json>, k: nat, search: Query -> SearchResult)
    requires k <= |songs|
    ensures Steps(songs, search)[..k] == Steps(songs[..k], search)
  {
    StepsAppend(songs[..k], songs[k..], search);
    assert songs[..k] + songs[k..] == songs;
  }

  /** Once an exception has escaped, later iterations change nothing: the
      loop has stopped. */
  lemma {:induction false} FatalIsFinal(steps: seq<Step>, n: nat)
    requires n <= |steps|
    requires Run(steps[..n]).fatal
    ensures Run(steps) == Run(steps[..n])
    decreases |steps| - n
  {
    if n < |steps| {
      RunSnoc(steps[..n], steps[n]);
      assert steps[..n + 1] == steps[..n] + [steps[n]];
      FatalIsFinal(steps, n + 1);
    } else {
      assert steps[..n] == steps;
    }
  }

  /** The per-song `try` block, step by step: the exact search, the test
      on its top hit, and the broad search when the exact one found
      nothing. `added` is the track appended, if any; every exception is
      caught and leaves `added` empty. */
  method TrySong(artist: Json, track: Json, search: Query -> SearchResult)
    returns (added: Option<ResolvedTrack>, issued: seq<Query>)
    ensures issued == LookUp(artist, track, search).queries
    ensures added.Some? <==> LookUp(artist, track, search).outcome.Added?
    ensures added.Some? ==> added.value == LookUp(artist, track, search).outcome.track
  {
    added := None;
    var exact := ExactQuery(artist, track);
    issued := [exact];
    var results := search(exact);
    if results.Raised? {
      return;
    }
    if |results.items| > 0 {
      var hit := results.items[0];
      // `.lower()` and `['artists'][0]` raise unless these hold
      if artist.JStr? && track.JStr? && |hit.artists| > 0 {
        var trackName := Lower(hit.name);
        var artistName := Lower(hit.artists[0]);
        var originalArtist := Lower(artist.str);
        if Accepts(originalArtist, artistName, trackName) {
          added := Some(Record(hit));
        }
      }
    } else {
      var broad := BroadQuery(artist, track);
      issued := issued + [broad];
      var more := search(broad);
      if more.Items? && |more.items| > 0 && |more.items[0].artists| > 0 {
        added := Some(Record(more.items[0]));
      }
    }
  }

  /** One iteration of the loop, step by step: a recommendation that is
      not a dictionary raises, one without an artist or a track is
      skipped, and any other goes through the per-song `try`. */
  method ResolveOne(song: Json, search: Query -> SearchResult)
    returns (raised: bool, added: Option<ResolvedTrack>, issued: seq<Query>)
    ensures raised <==> ResolveSong(song, search).outcome.Fatal?
    ensures raised ==> issued == [] && added == None
    ensures issued == ResolveSong(song, search).queries
    ensures added.Some? <==> ResolveSong(song, search).outcome.Added?
    ensures added.Some? ==> added.value == ResolveSong(song, search).outcome.track
  {
    if !song.JObj? {
      // `song.get` raises outside the per-song `try`
      return true, None, [];
    }
    var artist := Get(song.fields, "artist", JStr(""));
    var track := Get(song.fields, "track", JStr(""));
    if Truthy(artist) && Truthy(track) {
      added, issued := TrySong(artist, track, search);
    } else {
      added, issued := None, [];
    }
    raised := false;
  }

  /** One iteration, in the terms the loop uses: the queries issued are
      appended, and so is the track added, if any. */
  lemma ExtendByOne(before: Resolution, step: Step, raised: bool, added: Option<ResolvedTrack>, issued: seq<Query>)
    requires !before.fatal && step.queries == issued
    requires raised <==> step.outcome.Fatal?
    requires added.Some? <==> step.outcome.Added?
    requires added.Some? ==> added.value == step.outcome.track
    ensures Extend(before, step) ==
      Resolution(raised, before.tracks + (if added.Some? then [added.value] else []), before.queries + issued)
  {
  }

  /** The fold over the first i + 1 recommendations extends the fold over
      the first i by the i-th iteration. */
  lemma RunStepsSnoc(songs: seq<Json>, i: nat, search: Query -> SearchResult)
    requires i < |songs|
    ensures Run(Steps(songs[..i + 1], search)) == Extend(Run(Steps(songs[..i], search)), ResolveSong(songs[i], search))
  {
    assert songs[..i + 1] == songs[..i] + [songs[i]];
    StepsAppend(songs[..i], [songs[i]], search);
    assert Steps([songs[i]], search) == [ResolveSong(songs[i], search)];
    RunSnoc(Steps(songs[..i], search), ResolveSong(songs[i], search));
  }

  /** When the fold over a prefix has raised, it is the fold over all. */
  lemma ResolveFromFatalPrefix(songs: seq<Json>, n: nat, search: Query -> SearchResult)
    requires n <= |songs|
    requires Run(Steps(songs[..n], search)).fatal
    ensures Resolve(songs, search) == Run(Steps(songs[..n], search))
  {
    StepsPrefix(songs, n, search);
    FatalIsFinal(Steps(songs, search), n);
  }

  /** The loop of the handler: each recommendation is processed in turn,
      the per-song `try` keeps lookup failures to that song, and a
      recommendation that is not a dictionary ends the loop with an
      exception. */
  method ResolveAll(songs: seq<Json>, search: Query -> SearchResult)
    returns (fatal: bool, tracks: seq<ResolvedTrack>, queries: seq<Query>)
    ensures Resolution(fatal, tracks, queries) == Resolve(songs, search)
  {
    fatal, tracks, queries := false, [], [];
    for i := 0 to |songs|
      invariant Run(Steps(songs[..i], search)) == Resolution(false, tracks, queries)
    {
      var raised, added, issued := ResolveOne(songs[i], search);
      RunStepsSnoc(songs, i, search);
      ExtendByOne(Resolution(false, tracks, queries), ResolveSong(songs[i], search), raised, added, issued);
      queries := queries + issued;
      if added.Some? {
        tracks := tracks + [added.value];
      }
      if raised {
        fatal := true;
        ResolveFromFatalPrefix(songs, i + 1, search);
        return;
      }
    }
    assert songs[..|songs|] == songs;
  }

  /** The fold raises exactly when one of its iterations does. */
  lemma {:induction false} RunFatalIff(steps: seq<Step>)
    ensures Run(steps).fatal <==> exists i | 0 <= i < |steps| :: steps[i].outcome.Fatal?
  {
    if steps != [] {
      var n := |steps| - 1;
      var init := steps[..n];
      RunFatalIff(init);
      assert Run(steps).fatal <==> Run(init).fatal || steps[n].outcome.Fatal?;
      if exists i | 0 <= i < |steps| :: steps[i].outcome.Fatal? {
        var i :| 0 <= i < |steps| && steps[i].outcome.Fatal?;
        if i < n {
          assert init[i].outcome.Fatal?;
        }
      }
      if exists i | 0 <= i < n :: init[i].outcome.Fatal? {
        var i :| 0 <= i < n && init[i].outcome.Fatal?;
        assert steps[i].outcome.Fatal?;
      }
    }
  }

  /** A recommendation raises out of the loop exactly when one of them is
      not a dictionary. */
  lemma FatalIff(songs: seq<Json>, search: Query -> SearchResult)
    ensures Resolve(songs, search).fatal <==> exists i | 0 <= i < |songs| :: !songs[i].JObj?
  {
    var steps := Steps(songs, search);
    RunFatalIff(steps);
    StepsAt(songs, search);
    if exists i | 0 <= i < |songs| :: !songs[i].JObj? {
      var i :| 0 <= i < |songs| && !songs[i].JObj?;
      assert steps[i].outcome.Fatal?;
    }
  }

  /** The indices of the iterations that add a track, in increasing
      order. */
  function Picks(steps: seq<Step>): (ps: seq<nat>)
    ensures forall k | 0 <= k < |ps| :: ps[k] < |steps|
    ensures forall k, l | 0 <= k < l < |ps| :: ps[k] < ps[l]
    ensures forall k | 0 <= k < |ps| :: steps[ps[k]].outcome.Added?
    decreases |steps|
  {
    if steps == [] then []
    else
      var n := |steps| - 1;
      var init := Picks(steps[..n]);
      if steps[n].outcome.Added? then init + [n] else init
  }

  /** Every iteration that adds a track is among the picks. */
  lemma {:induction false} PicksComplete(steps: seq<Step>, i: nat)
    requires i < |steps| && steps[i].outcome.Added?
    ensures i in Picks(steps)
  {
    var n := |steps| - 1;
    if i < n {
      assert steps[..n][i] == steps[i];
      PicksComplete(steps[..n], i);
    }
  }

  /** The fold collects the picked tracks in order: one track per pick, the
      k-th being the one iteration `Picks[k]` adds. */
  lemma {:induction false} RunFollowsPicks(steps: seq<Step>)
    requires !Run(steps).fatal
    ensures var ps, ts := Picks(steps), Run(steps).tracks;
      |ps| == |ts| && forall k | 0 <= k < |ps| :: steps[ps[k]].outcome == Added(ts[k])
  {
    if steps != [] {
      var n := |steps| - 1;
      var init := steps[..n];
      RunFollowsPicks(init);
    }
  }

  /** Order preservation and at most one track per recommendation: when no
      exception escapes, the k-th track is the one added by recommendation
      `Picks[k]`, the picks are increasing, and every recommendation that
      adds a track is among them. */
  lemma TracksFollowRecommendations(songs: seq<Json>, search: Query -> SearchResult)
    requires !Resolve(songs, search).fatal
    ensures var ps, ts := Picks(Steps(songs, search)), Resolve(songs, search).tracks;
      |ps| == |ts|
      && (forall k | 0 <= k < |ps| :: ps[k] < |songs| && ResolveSong(songs[ps[k]], search).outcome == Added(ts[k]))
      && (forall i | 0 <= i < |songs| && ResolveSong(songs[i], search).outcome.Added? :: i in ps)
  {
    var steps := Steps(songs, search);
    RunFollowsPicks(steps);
    StepsAt(songs, search);
    forall i | 0 <= i < |songs| && ResolveSong(songs[i], search).outcome.Added?
      ensures i in Picks(steps)
    {
      PicksComplete(steps, i);
    }
  }

  /** A dropped iteration leaves the fold's exception flag and tracks as if
      it were not there. */
  lemma {:induction false} DroppedStepIsInvisible(before: seq<Step>, step: Step, after: seq<Step>)
    requires step.outcome.Dropped?
    ensures Run(before + [step] + after).fatal == Run(before + after).fatal
    ensures Run(before + [step] + after).tracks == Run(before + after).tracks
    decreases |after|
  {
    if after == [] {
      RunSnoc(before, step);
      assert before + [step] + after == before + [step];
      assert before + after == before;
    } else {
      var n := |after| - 1;
      DroppedStepIsInvisible(before, step, after[..n]);
      assert before + [step] + after == (before + [step] + after[..n]) + [after[n]];
      assert before + after == (before + after[..n]) + [after[n]];
      RunSnoc(before + [step] + after[..n], after[n]);
      RunSnoc(before + after[..n], after[n]);
    }
  }

  /** Per-song fault isolation: a recommendation that is dropped, for
      whatever reason (including an exception from either search), leaves
      the outcome of the whole loop as if it were not there. */
  lemma DroppedSongIsInvisible(before: seq<Json>, song: Json, after: seq<Json>, search: Query -> SearchResult)
    requires ResolveSong(song, search).outcome.Dropped?
    ensures Resolve(before + [song] + after, search).fatal == Resolve(before + after, search).fatal
    ensures Resolve(before + [song] + after, search).tracks == Resolve(before + after, search).tracks
  {
    StepsAppend(before + [song], after, search);
    StepsAppend(before, [song], search);
    StepsAppend(before, after, search);
    assert Steps([song], search) == [ResolveSong(song, search)];
    DroppedStepIsInvisible(Steps(before, search), ResolveSong(song, search), Steps(after, search));
  }

  /** A failing lookup for one recommendation removes that recommendation
      only: with every recommendation a dictionary, no exception reaches
      the caller, and the tracks are those of the other recommendations. */
  lemma FailedLookupIsolated(before: seq<Json>, song: Json, after: seq<Json>, search: Query -> SearchResult)
    requires song.JObj? && Truthy(Field(song, "artist")) && Truthy(Field(song, "track"))
    requires search(ExactQuery(Field(song, "artist"), Field(song, "track"))).Raised?
    requires forall i | 0 <= i < |before + after| :: (before + after)[i].JObj?
    ensures !Resolve(before + [song] + after, search).fatal
    ensures Resolve(before + [song] + after, search).tracks == Resolve(before + after, search).tracks
    ensures |Resolve(before + [song] + after, search).tracks| <= |before| + |after|
  {
    DroppedSongIsInvisible(before, song, after, search);
    FatalIff(before + after, search);
  }
}
