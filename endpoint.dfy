/** The `POST /analyze_mood` handler: the language model's reply is cut down
    to its JSON block, the recommended songs are resolved against the
    catalog, and the response is assembled. The model's HTTP call and
    `json.loads` are inputs: the reply arrives as a status and the decoded
    message content, and the parser is a partial function `parse`. */
module MoodEndpoint {
  import opened PyJson
  import opened Extraction
  import opened Resolver

  /** Most tracks a response carries. */
  const MaxTracks: nat := 10

  const EmbedPrefix: string := "https://open.spotify.com/embed/track/"
  const DefaultName: string := "Friend"
  const PlaylistSuffix: string := "'s Mood Playlist"
  const DefaultMoodAnalysis: string := "Enjoy your personalized playlist!"

  /** The request body when it is a JSON object; only `name` is used
      outside the prompt. */
  datatype MoodRequest = MoodRequest(fields: map<string, string>)

  /** The language model's answer: an exception from the HTTP call, or a
      status with the decoded first choice's message content (None when the
      body is not JSON or has no such entry). */
  datatype LlmReply = LlmRaised | LlmAnswered(status: int, content: Option<Json>)

  datatype ErrorKind =
    | AiAnalysisFailed  // the model answered with a status other than 200
    | ParseFailed       // the extracted span is not valid JSON
    | ServerError       // any other exception escaping the handler

  /** The JSON body the endpoint answers with. */
  datatype Response =
    | Playlist(playlistName: Json, moodAnalysis: Json, tracks: seq<ResolvedTrack>, embedUrls: seq<string>, totalTracks: nat)
    | Failure(kind: ErrorKind)
  {
    /** The HTTP status of the response. */
    function Status(): (s: nat)
      ensures s == 200 <==> Playlist?
      ensures Failure? ==> s == 500
    {
      if Playlist? then 200 else 500
    }
  }

  /** The `error` string of a failure; the exception text that follows
      "Server error: " comes from the runtime and is not modelled. */
  function ErrorMessage(kind: ErrorKind): string {
    match kind
    case AiAnalysisFailed => "AI analysis failed"
    case ParseFailed => "Failed to parse AI recommendations"
    case ServerError => "Server error: "
  }

  /** A response together with every catalog query issued to produce it. */
  datatype Handled = Handled(response: Response, queries: seq<Query>)

  /** `tracks[:10]`. */
  function FirstTen(tracks: seq<ResolvedTrack>): (r: seq<ResolvedTrack>)
    ensures |r| <= MaxTracks && |r| <= |tracks|
    ensures r == tracks[..|r|]
    ensures |tracks| <= MaxTracks ==> r == tracks
    ensures |tracks| > MaxTracks ==> |r| == MaxTracks
  {
    if |tracks| <= MaxTracks then tracks else tracks[..MaxTracks]
  }

  /** The embed URLs of `tracks`, one per track, in the same order. */
  function EmbedUrls(tracks: seq<ResolvedTrack>): (urls: seq<string>)
    ensures |urls| == |tracks|
    ensures forall i | 0 <= i < |tracks| :: urls[i] == EmbedPrefix + tracks[i].id
    decreases |tracks|
  {
    if tracks == [] then []
    else EmbedUrls(tracks[..|tracks| - 1]) + [EmbedPrefix + tracks[|tracks| - 1].id]
  }

  /** The loop that appends one embed URL per kept track. */
  method BuildEmbedUrls(tracks: seq<ResolvedTrack>) returns (urls: seq<string>)
    ensures |urls| == |tracks|
    ensures forall i | 0 <= i < |tracks| :: urls[i] == EmbedPrefix + tracks[i].id
    ensures urls == EmbedUrls(tracks)
  {
    urls := [];
    for i := 0 to |tracks|
      invariant |urls| == i
      invariant forall j | 0 <= j < i :: urls[j] == EmbedPrefix + tracks[j].id
    {
      urls := urls + [EmbedPrefix + tracks[i].id];
    }
  }

  /** The whole handler as a function of its inputs. */
  function Handle(request: Option<MoodRequest>, reply: LlmReply,
                  parse: string -> Option<Json>, search: Query -> SearchResult): (h: Handled)
    // the response shape: counts agree, at most ten tracks, URLs aligned
    ensures h.response.Playlist? ==>
      var p := h.response;
      |p.tracks| == |p.embedUrls| == p.totalTracks <= MaxTracks
      && forall i | 0 <= i < |p.tracks| :: p.embedUrls[i] == EmbedPrefix + p.tracks[i].id
    // the catalog is only consulted after a 200 answer from the model
    ensures h.queries != [] ==> reply.LlmAnswered? && reply.status == 200
    ensures request.Some? && reply.LlmAnswered? && reply.status != 200 ==>
      h == Handled(Failure(AiAnalysisFailed), [])
    // a parse failure is only reported for a 200 answer, before any search
    ensures h.response == Failure(ParseFailed) ==>
      reply.LlmAnswered? && reply.status == 200 && h.queries == []
  {
    if request.None? then Handled(Failure(ServerError), [])
    else
      var fields := request.value.fields;
      var name := if "name" in fields then fields["name"] else DefaultName;
      if reply.LlmRaised? then Handled(Failure(ServerError), [])
      else if reply.status != 200 then Handled(Failure(AiAnalysisFailed), [])
      else if reply.content.None? then Handled(Failure(ServerError), [])
      // `.find` on content that is not a string raises inside the parse `try`
      else if !reply.content.value.JStr? then Handled(Failure(ParseFailed), [])
      else
        var parsed := parse(ExtractSpan(reply.content.value.str));
        if parsed.None? then Handled(Failure(ParseFailed), [])
        else if !parsed.value.JObj? then Handled(Failure(ServerError), [])
        else
          var recs := parsed.value.fields;
          var songs := SongElements(Get(recs, "songs", JArr([])));
          if songs.None? then Handled(Failure(ServerError), [])
          else
            var resolved := Resolve(songs.value, search);
            if resolved.fatal then Handled(Failure(ServerError), resolved.queries)
            else
              var tracks := FirstTen(resolved.tracks);
              Handled(
                Playlist(
                  Get(recs, "playlist_name", JStr(name + PlaylistSuffix)),
                  Get(recs, "mood_analysis", JStr(DefaultMoodAnalysis)),
                  tracks, EmbedUrls(tracks), |tracks|),
                resolved.queries)
  }

  /** The handler, step by step. */
  method AnalyzeMood(request: Option<MoodRequest>, reply: LlmReply,
                     parse: string -> Option<Json>, search: Query -> SearchResult)
    returns (response: Response, issued: seq<Query>)
    ensures Handled(response, issued) == Handle(request, reply, parse, search)
  {
    issued := [];
    if request.None? {
      // `data.get` on a body that is not an object raises
      return Failure(ServerError), issued;
    }
    var fields := request.value.fields;
    var name := if "name" in fields then fields["name"] else DefaultName;
    if reply.LlmRaised? {
      return Failure(ServerError), issued;
    }
    if reply.status != 200 {
      return Failure(AiAnalysisFailed), issued;
    }
    if reply.content.None? {
      return Failure(ServerError), issued;
    }
    var aiContent := reply.content.value;
    if !aiContent.JStr? {
      return Failure(ParseFailed), issued;
    }
    var jsonStr := ExtractSpan(aiContent.str);
    var parsed := parse(jsonStr);
    if parsed.None? {
      return Failure(ParseFailed), issued;
    }
    var recommendations := parsed.value;
    if !recommendations.JObj? {
      return Failure(ServerError), issued;
    }
    var songs := SongElements(Get(recommendations.fields, "songs", JArr([])));
    if songs.None? {
      return Failure(ServerError), issued;
    }
    var fatal, playlistTracks;
    fatal, playlistTracks, issued := ResolveAll(songs.value, search);
    if fatal {
      return Failure(ServerError), issued;
    }
    playlistTracks := FirstTen(playlistTracks);
    var embedUrls := BuildEmbedUrls(playlistTracks);
    response := Playlist(
      Get(recommendations.fields, "playlist_name", JStr(name + PlaylistSuffix)),
      Get(recommendations.fields, "mood_analysis", JStr(DefaultMoodAnalysis)),
      playlistTracks, embedUrls, |playlistTracks|);
  }

  /** A reply without any `{` is a parse error, given that the parser
      rejects the only two spans such a reply can give: the empty string
      and a lone `}`. */
  lemma NoOpenBraceIsParseError(request: MoodRequest, content: string,
                                parse: string -> Option<Json>, search: Query -> SearchResult)
    requires '{' !in content
    requires parse("") == None && parse("}") == None
    ensures Handle(Some(request), LlmAnswered(200, Some(JStr(content))), parse, search)
      == Handled(Failure(ParseFailed), [])
  {
    var span := ExtractSpan(content);
    assert span == "" || span == "}";
  }

  /** The inputs of a run that reaches the catalog stage: an object body,
      a 200 reply, and a span that parses to a dictionary. */
  predicate ReachesCatalog(request: Option<MoodRequest>, reply: LlmReply, parse: string -> Option<Json>) {
    request.Some? && reply.LlmAnswered? && reply.status == 200
    && reply.content.Some? && reply.content.value.JStr?
    && var parsed := parse(ExtractSpan(reply.content.value.str));
    parsed.Some? && parsed.value.JObj?
  }

  /** The dictionary the model's reply parses to, on a run that reaches the
      catalog stage. */
  function Recommendations(reply: LlmReply, parse: string -> Option<Json>): (m: map<string, Json>)
    requires reply.LlmAnswered? && reply.content.Some? && reply.content.value.JStr?
    requires var p := parse(ExtractSpan(reply.content.value.str)); p.Some? && p.value.JObj?
    ensures parse(ExtractSpan(reply.content.value.str)) == Some(JObj(m))
  {
    parse(ExtractSpan(reply.content.value.str)).value.fields
  }

  /** An empty `songs` list, or none at all, gives a successful empty
      playlist without any catalog search. */
  lemma NoSongsEmptyPlaylist(request: Option<MoodRequest>, reply: LlmReply,
                             parse: string -> Option<Json>, search: Query -> SearchResult)
    requires ReachesCatalog(request, reply, parse)
    requires var m := Recommendations(reply, parse); "songs" !in m || m["songs"] == JArr([])
    ensures var h := Handle(request, reply, parse, search);
      h.queries == [] && h.response.Playlist?
      && h.response.tracks == [] && h.response.embedUrls == [] && h.response.totalTracks == 0
  {
  }

  /** The texts of a successful response: the model's `playlist_name` and
      `mood_analysis` when it gives them, otherwise "<name>'s Mood Playlist"
      (with "Friend" for a request without `name`) and the stock analysis. */
  lemma PlaylistTexts(request: Option<MoodRequest>, reply: LlmReply,
                      parse: string -> Option<Json>, search: Query -> SearchResult)
    requires ReachesCatalog(request, reply, parse)
    requires Handle(request, reply, parse, search).response.Playlist?
    ensures var m, fields := Recommendations(reply, parse), request.value.fields;
      var p := Handle(request, reply, parse, search).response;
      var name := if "name" in fields then fields["name"] else DefaultName;
      p.playlistName == (if "playlist_name" in m then m["playlist_name"] else JStr(name + PlaylistSuffix))
      && p.moodAnalysis == (if "mood_analysis" in m then m["mood_analysis"] else JStr(DefaultMoodAnalysis))
  {
  }

  /** With neither a `playlist_name` nor a `mood_analysis` in the reply and
      no `name` in the request, a successful response carries the default
      texts. */
  lemma DefaultTexts(request: Option<MoodRequest>, reply: LlmReply,
                     parse: string -> Option<Json>, search: Query -> SearchResult)
    requires ReachesCatalog(request, reply, parse)
    requires "name" !in request.value.fields
    requires var m := Recommendations(reply, parse); "playlist_name" !in m && "mood_analysis" !in m
    requires Handle(request, reply, parse, search).response.Playlist?
    ensures Handle(request, reply, parse, search).response.playlistName == JStr("Friend's Mood Playlist")
    ensures Handle(request, reply, parse, search).response.moodAnalysis == JStr("Enjoy your personalized playlist!")
  {
    PlaylistTexts(request, reply, parse, search);
    DefaultTextsSpelled();
  }

  lemma DefaultTextsSpelled()
    ensures DefaultName + PlaylistSuffix == "Friend's Mood Playlist"
    ensures DefaultMoodAnalysis == "Enjoy your personalized playlist!"
  {
  }

  /** The three error texts differ, so the `error` string tells the client
      which failure occurred. */
  lemma ErrorMessageIdentifiesKind(k1: ErrorKind, k2: ErrorKind)
    ensures ErrorMessage(k1) == ErrorMessage(k2) ==> k1 == k2
  {
    assert ErrorMessage(AiAnalysisFailed)[0] == 'A';
    assert ErrorMessage(ParseFailed)[0] == 'F';
    assert ErrorMessage(ServerError)[0] == 'S';
  }

  /** A model answer with a status other than 200 is reported as a 500
      with "AI analysis failed", before any catalog search. */
  lemma ModelFailureReported(request: MoodRequest, status: int, content: Option<Json>,
                             parse: string -> Option<Json>, search: Query -> SearchResult)
    requires status != 200
    ensures var h := Handle(Some(request), LlmAnswered(status, content), parse, search);
      h.response.Failure? && h.response.Status() == 500
      && ErrorMessage(h.response.kind) == "AI analysis failed" && h.queries == []
  {
  }

  /** The tracks of a successful response are the first ten tracks the
      catalog stage collected, and the k-th of them is the one added by the
      k-th recommendation that adds one. */
  lemma {:induction false} TracksAreFirstPicks(request: Option<MoodRequest>, reply: LlmReply,
                                               parse: string -> Option<Json>, search: Query -> SearchResult)
    requires ReachesCatalog(request, reply, parse)
    requires var m := Recommendations(reply, parse); "songs" in m && m["songs"].JArr?
    requires Handle(request, reply, parse, search).response.Playlist?
    ensures var songs := Recommendations(reply, parse)["songs"].items;
      var ts := Handle(request, reply, parse, search).response.tracks;
      var ps := Picks(Steps(songs, search));
      |ts| == (if |ps| < MaxTracks then |ps| else MaxTracks)
      && forall k | 0 <= k < |ts| :: ResolveSong(songs[ps[k]], search).outcome == Added(ts[k])
  {
    var songs := Recommendations(reply, parse)["songs"].items;
    TracksFollowRecommendations(songs, search);
  }

  /** Once the reply parses to a dictionary whose `songs` is a list, the
      request fails with a server error exactly when some recommendation is
      not a dictionary. */
  lemma {:induction false} ServerErrorIffMalformedSong(request: Option<MoodRequest>, reply: LlmReply,
                                                      parse: string -> Option<Json>, search: Query -> SearchResult)
    requires ReachesCatalog(request, reply, parse)
    requires var m := Recommendations(reply, parse); "songs" in m && m["songs"].JArr?
    ensures var songs := Recommendations(reply, parse)["songs"].items;
      Handle(request, reply, parse, search).response == Failure(ServerError)
      <==> exists i | 0 <= i < |songs| :: !songs[i].JObj?
  {
    FatalIff(Recommendations(reply, parse)["songs"].items, search);
  }
}
