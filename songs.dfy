/** Song identity shared by the exporter and the top-10 relay: the ledger entry
    stored in the play-stats document and the "::"-joined key that both
    programs build from a song's title, artist and album. */
module Songs {

  datatype Option<T> = None | Some(value: T)

  /** One value of the play-count ledger, as the stats document stores it. */
  datatype Entry = Entry(title: string, artist: string, album: string, albumArtUrl: string, playCount: int)

  /** The (title, artist, album) label values a play-count series is published under. */
  datatype Labels = Labels(title: string, artist: string, album: string)

  function LabelsOf(e: Entry): Labels
  {
    Labels(e.title, e.artist, e.album)
  }

  const Separator: string := "::"

  /** The ledger key `title::artist::album`. Title and album can be read back
      from the two ends of the key, but the key as a whole is not injective:
      see KeyCollision. */
  function SongKey(title: string, artist: string, album: string): (k: string)
    ensures |k| == |title| + |artist| + |album| + 2 * |Separator|
    ensures k[..|title|] == title
    ensures k[|k| - |album|..] == album
  {
    title + Separator + artist + Separator + album
  }

  function EntryKey(e: Entry): string
  {
    SongKey(e.title, e.artist, e.album)
  }

  /** Two different songs whose fields contain "::" share one key. */
  lemma KeyCollision()
    ensures Labels("a::b", "c", "d") != Labels("a", "b::c", "d")
    ensures SongKey("a::b", "c", "d") == SongKey("a", "b::c", "d")
  {
    assert SongKey("a::b", "c", "d") == "a::b::c::d";
    assert SongKey("a", "b::c", "d") == "a::b::c::d";
  }
}
