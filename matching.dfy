/** The test that decides whether the top hit of the exact catalog search is
    the recommended recording rather than a variant of it. */
module Matching {
  import opened Text

  /** Title words that mark a variant recording. */
  const VariantMarkers: seq<string> := ["remix", "cover", "version"]

  /** The acceptance test on already lower-cased strings: the requested and
      the candidate artist contain one another in either direction, and the
      candidate title contains none of the variant markers. The requested
      track title is not an argument: the source computes it and never uses
      it. */
  predicate Accepts(requestedArtist: string, candidateArtist: string, candidateTitle: string) {
    (Occurs(requestedArtist, candidateArtist) || Occurs(candidateArtist, requestedArtist))
    && !Occurs("remix", candidateTitle)
    && !Occurs("cover", candidateTitle)
    && !Occurs("version", candidateTitle)
  }

  /** The artist test runs in both directions, so swapping the requested
      and the candidate artist never changes the verdict. */
  lemma AcceptsSymmetric(requestedArtist: string, candidateArtist: string, candidateTitle: string)
    ensures Accepts(requestedArtist, candidateArtist, candidateTitle) == Accepts(candidateArtist, requestedArtist, candidateTitle)
  {
  }

  /** A candidate whose artist is exactly the requested one is accepted as
      long as its title is clean. */
  lemma SameArtistAccepted(artist: string, title: string)
    requires !Occurs("remix", title) && !Occurs("cover", title) && !Occurs("version", title)
    ensures Accepts(artist, artist, title)
  {
    assert OccursAt(artist, artist, 0);
  }

  /** A title holding `marker` in any casing, where `marker` lower-cases to
      one of the variant markers, is rejected once the title is
      lower-cased, whoever the artists are. */
  lemma VariantTitleRejected(requestedArtist: string, candidateArtist: string, title: string, marker: string)
    requires Lower(marker) in VariantMarkers
    requires Occurs(marker, title)
    ensures !Accepts(requestedArtist, candidateArtist, Lower(title))
  {
    LowerKeepsOccurrence(marker, title);
  }
}
