# Moodtify `analyze_mood`, modelled in Dafny

Moodtify is a small Flask service that builds a playlist from a mood. Its
only endpoint with logic is `POST /analyze_mood`, which works in five steps:

1. It asks a language model for ten song recommendations as JSON.
2. It cuts the JSON block out of the model's free-text reply, from the first
   `{` through the last `}`.
3. It resolves each recommended (artist, track) pair against the Spotify
   catalog. The exact query comes first. Its top hit is kept only if the
   artist names contain one another and the title is not a remix, cover or
   version. The broad query runs only when the exact one found nothing.
4. It keeps at most ten tracks.
5. It answers with the tracks, their embed URLs and a playlist name and
   mood analysis, each with a default.

The model has five modules:

- `Text`: the Python string primitives the handler uses. These are
  `str.lower` (ASCII), substring `in`, `find`, `rfind`, and slicing with
  Python's bound normalisation, including a negative start.
- `PyJson`: the decoded JSON values, `dict.get` with a default, truthiness,
  and what iterating over the `songs` value yields.
- `Extraction`: the brace-slicing heuristic.
- `Matching`: the acceptance test for the exact search's top hit.
- `Resolver`: the per-song lookup and the loop over the recommendations.
  - The loop is specified as a fold (`Run`) over one `Step` per
    recommendation (`Steps`).
  - It is implemented by the methods `ResolveAll`, `ResolveOne` and
    `TrySong`, which mirror the source's statements.
  - Lemmas about the fold state order preservation, per-song fault
    isolation and when an exception escapes.
- `MoodEndpoint`: the whole handler. `Handle` is its specification as a
  function, and `AnalyzeMood` is the step-by-step method.

Some things the handler depends on are inputs to the model:

- The language model's reply is an input: an exception, or a status with
  the decoded message content.
- `json.loads` is an abstract partial function `parse`.
- The catalog is an oracle `search` from a query to its ranked items or a
  raised exception.

The model follows what the code does, including where its comments
suggest more:

- The comment "If exact search fails, try broader search" (app.py:161)
  could be read as a fallback for any failed exact match. The `else`
  belongs to the emptiness test of app.py:136, though. So the broad query
  is issued only when the exact query returned no items. A rejected exact
  top hit drops the song, and no broad query follows.
- The requested track title is lower-cased (app.py:142) but never used,
  so it has no effect on acceptance.
- A recommendation that is not a dictionary raises outside the per-song
  `try`. The whole request then fails with a server error, instead of just
  that song being skipped.
- A model reply whose content is present but not a string fails inside the
  parse `try`. It therefore reports "Failed to parse AI recommendations",
  not a server error.

## Model

| member | source | states |
|---|---|---|
| Text.LowerChar | app.py:141-144 | one character lower-cased: upper-case ASCII letters move down by 32, everything else is kept, and no upper-case letter comes out |
| Text.Lower | app.py:141-144 | `str.lower` keeps the length, maps each upper-case letter to its lower-case partner, keeps every other character in place, and leaves no upper-case letter |
| Text.LowerKeepsOccurrence | app.py:141-148 | lower-casing both sides keeps a substring occurrence, so a marker in any casing is still seen after `.lower()` |
| Text.Find | app.py:115 | `find('{')` is -1 exactly when there is no `{`, and otherwise is the index of the first `{` |
| Text.RFind | app.py:116 | `rfind('}')` is -1 exactly when there is no `}`, and otherwise is the index of the last `}` |
| Text.SliceBound | app.py:117 | Python's slice-bound normalisation: a negative bound counts from the end, and bounds are clamped to the length |
| Text.Slice | app.py:117 | `s[start:end]` is the subsequence between the normalised bounds when the normalised start is before the normalised end, including a negative start, and empty otherwise |
| PyJson.Get | app.py:191-192 | `dict.get(key, default)` is the stored value when the key is present, and the default otherwise |
| PyJson.Truthy | app.py:130 | Python truthiness of a decoded value: `None`, `False`, zero and empty strings, lists and dictionaries are false |
| PyJson.SongElements | app.py:126 | `for song in songs` runs over the list's elements; an empty string or empty dictionary yields nothing; any other value makes the loop raise |
| Extraction.ExtractSpan | app.py:115-117 | the span is empty, a lone `}`, or starts with `{` and ends with `}`; it is a contiguous piece of the reply; without a `{` it is `}` exactly when the reply ends in `}`, and empty otherwise |
| Extraction.SpanIsFirstOpenToLastClose | app.py:115-117 | when a `}` follows the first `{`, the span runs from the first `{` through the last `}`, inclusive |
| Extraction.SpanEmptyWhenNoCloseAfterOpen | app.py:115-117 | when no `}` follows the first `{`, the span is empty |
| Matching.Accepts | app.py:147-148 | the acceptance test on lower-cased strings: the artists contain one another in either direction, and the title contains none of "remix", "cover" and "version" |
| Matching.AcceptsSymmetric | app.py:147 | swapping the requested and the candidate artist never changes the verdict |
| Matching.SameArtistAccepted | app.py:147-148 | a hit by exactly the requested artist with a clean title is accepted |
| Matching.VariantTitleRejected | app.py:141-148 | a title holding "Remix", "COVER", "Version" or any other casing of a marker is rejected, whoever the artists are |
| Resolver.Record | app.py:150-159 | the track record copies the hit's id, name, album, preview URL, external URL and URI, takes its first artist, and carries the first album image exactly when the album has one |
| Resolver.Field | app.py:127-128 | `song.get(key, '')` on a recommendation that is a dictionary |
| Resolver.JudgeExactHit | app.py:136-159 | the exact top hit is added iff the requested fields are strings, the hit has an artist, and the lower-cased names pass the acceptance test; it is rejected iff they fail it; it never raises out of the loop |
| Resolver.CaseInsensitiveArtistAccepted | app.py:141-148 | a hit whose first artist equals the requested artist ignoring case, and whose lower-cased title carries no variant marker, is added |
| Resolver.TrackTitleIrrelevant | app.py:142-148 | the requested track title has no effect on the verdict, as long as it is a string |
| Resolver.TakeBroadHit | app.py:164-175 | the broad top hit is added without any test, unless it has no artist, in which case the failure drops the song |
| Resolver.LookUp | app.py:131-179 | the per-song `try` never raises out of the loop, issues one or two queries, and the exact query comes first |
| Resolver.ResolveSong | app.py:126-179 | one iteration raises out of the loop iff the recommendation is not a dictionary, and issues at most two queries |
| Resolver.ResolveSongCases | app.py:127-179 | a missing or empty artist or track gives no search; the broad query is issued iff the exact one found no items; an exception from the exact search drops the song; an exact top hit is judged alone, so a rejected one is not followed by a broad query; a non-empty broad answer's top hit is taken without any test; every added track is the top item of the last search |
| Resolver.Extend | app.py:126-179 | one more iteration of the loop: after an escape nothing changes, a raise sets the flag, and otherwise the iteration's queries and its track, if any, are appended |
| Resolver.Run | app.py:124-179 | the loop collects at most one track per recommendation and issues at most two queries per recommendation |
| Resolver.Resolve | app.py:124-179 | the whole loop yields no more tracks than there are recommendations, and at most two queries per recommendation |
| Resolver.TrySong | app.py:131-179 | the imperative per-song `try` issues exactly the queries of `LookUp` and appends exactly the track `LookUp` adds |
| Resolver.ResolveOne | app.py:126-179 | the imperative iteration raises, issues queries and appends a track exactly as `ResolveSong` says |
| Resolver.ResolveAll | app.py:124-179 | the imperative loop ends with the raised flag, the track list and the issued queries of the fold `Resolve` |
| Resolver.FatalIsFinal | app.py:126-128 | once an exception has escaped, later recommendations change nothing |
| Resolver.RunFatalIff | app.py:126-128 | the fold raises iff one of its iterations raises |
| Resolver.FatalIff | app.py:126-128 | the loop raises iff some recommendation is not a dictionary |
| Resolver.Picks | app.py:150-166 | the indices of recommendations that add a track are in range, strictly increasing, and each one adds a track |
| Resolver.PicksComplete | app.py:150-166 | every recommendation that adds a track is among the picks |
| Resolver.RunFollowsPicks | app.py:124-179 | the fold's k-th track is the one added by the k-th pick |
| Resolver.TracksFollowRecommendations | app.py:124-179 | with no exception, the tracks are in recommendation order: the k-th track is the one the k-th adding recommendation produced, and every adding recommendation is counted |
| Resolver.DroppedStepIsInvisible | app.py:177-179 | a dropped iteration leaves the fold's exception flag and tracks as if it were absent |
| Resolver.DroppedSongIsInvisible | app.py:130-179 | a dropped recommendation, for any reason, leaves the loop's exception flag and tracks as if it were absent |
| Resolver.FailedLookupIsolated | app.py:131-179 | an exception from one song's exact search drops only that song: no error reaches the response, and the other songs' tracks are kept |
| MoodEndpoint.Response.Status | app.py:106-200 | a playlist answers 200 and every failure 500 |
| MoodEndpoint.ErrorMessage | app.py:107-200 | the `error` text of each failure kind |
| MoodEndpoint.ErrorMessageIdentifiesKind | app.py:107-200 | the three error texts differ, so the text tells which failure occurred |
| MoodEndpoint.ModelFailureReported | app.py:106-107 | a model status other than 200 answers 500 with "AI analysis failed", and no catalog search is made |
| MoodEndpoint.FirstTen | app.py:182 | `tracks[:10]` is a prefix of at most ten tracks; the whole list when it has at most ten, exactly ten otherwise |
| MoodEndpoint.EmbedUrls | app.py:185-187 | one embed URL per track, index-aligned, each the embed prefix followed by the track id |
| MoodEndpoint.BuildEmbedUrls | app.py:185-187 | the append loop builds exactly the aligned embed URLs |
| MoodEndpoint.Handle | app.py:52-200 | a playlist has equal track, URL and total counts, at most ten tracks and aligned URLs; a non-200 model status gives "AI analysis failed" with no search; the catalog is searched only after a 200 reply; a parse failure comes before any search |
| MoodEndpoint.AnalyzeMood | app.py:52-200 | the imperative handler gives exactly the response and the queries of `Handle` |
| MoodEndpoint.NoOpenBraceIsParseError | app.py:113-120 | a reply without a `{` always gives the parse error, because its span can only be empty or a lone `}` |
| MoodEndpoint.NoSongsEmptyPlaylist | app.py:126-196 | no `songs`, or an empty list, gives a successful empty playlist and no search |
| MoodEndpoint.PlaylistTexts | app.py:191-192 | a playlist carries the model's `playlist_name` and `mood_analysis` when it gives them; otherwise "<name>'s Mood Playlist", with "Friend" when the request has no `name`, and the stock analysis |
| MoodEndpoint.DefaultTexts | app.py:191-192 | with no name and no texts from the model, the playlist is "Friend's Mood Playlist" with "Enjoy your personalized playlist!" |
| MoodEndpoint.TracksAreFirstPicks | app.py:124-182 | the response keeps the first min(10, n) of the n tracks the recommendations add, in order, the k-th being the one the k-th adding recommendation produced |
| MoodEndpoint.ServerErrorIffMalformedSong | app.py:126-200 | once `songs` is a list, the request fails with a server error iff some recommendation is not a dictionary |

## Left out

- The HTTP call to the language model and `response.json()`
  (app.py:93-110) are not modelled. The reply is an input: an exception,
  or a status with the decoded content. The content is absent when the
  body has no `choices[0].message.content`.
- The internals of `json.loads` (app.py:118) are not modelled. It is the
  abstract partial function `parse`.
- The spotipy client and its searches (app.py:134, app.py:163) are the
  oracle `search`. The oracle is assumed to answer the same query the same
  way within one request.
- The catalog item is typed (`CatalogTrack`). A `KeyError` from an item
  that lacks `album`, `external_urls` or `uri` is not modelled. An item
  without artists is modelled, and drops the song.
- Queries carry the artist and track values rather than the query text.
  The f-string text is a function of those values, so Python's `str()` of
  a non-string field is not modelled.
- The prompt text (app.py:66-90) and the request fields used only in it
  (`mood`, `feelings`, `time_of_day`, `language`, `genres`, `artists`) are
  not modelled. Only `name` is. A request body that is not a JSON object
  is a single case that fails with a server error.
- `print` logging (app.py:178, app.py:199) is not modelled.
- The runtime's exception text after "Server error: " (app.py:200) is not
  modelled. Only the error kind is.
- The `success` flag of the response (app.py:190) is not modelled. It is
  always true for a playlist.
- The request's `name` is a string in the model. `data.get('name', ...)`
  (app.py:57) can return any JSON value, and the f-string at app.py:191
  renders it with `str()`, so `{"name": null}` gives "None's Mood
  Playlist". That rendering is not modelled.
- The result limits of the two searches, 3 and 1 (app.py:134, app.py:163),
  are not modelled. Only the top item of either answer is ever used, so
  the limit does not change the outcome.
- `str.lower` is ASCII only. Unicode case mapping is not modelled.
- Flask routing, the OAuth and client factories, the other routes,
  configuration and static/js/script.js are not part of this model. They
  are routing, configuration and browser code.
