/** The top-10 relay's scan loop: each tick ranks the ledger, and when the
    ordered key list differs from the previous tick's, walks every new rank,
    swapping that rank's published label set and refreshing its cached cover
    image; it also decides what the per-rank image route answers. */
module ImageRelay {
  import opened Songs
  import opened Ranking
  import NestExporter

  type Bytes = seq<bv8>

  /** What downloading a cover image can come to. */
  datatype FetchResult =
    | Raised                         // connection error or timeout: nothing written
    | Response(status: int, body: Bytes)
    | BrokenStream(written: Bytes)   // status 200, then the stream failed after `written` was saved

  /** The cached image file of a rank after a fetch attempt for url: only a
      non-empty url answered with status 200 touches the file, and a stream
      that breaks leaves the part already written. */
  function CachedImage(current: Option<Bytes>, url: string, fetch: FetchResult): (r: Option<Bytes>)
    ensures r != current ==> url != "" && (fetch.BrokenStream? || (fetch.Response? && fetch.status == 200))
    ensures url != "" && fetch.Response? && fetch.status == 200 ==> r == Some(fetch.body)
    ensures url != "" && fetch.BrokenStream? ==> r == Some(fetch.written)
  {
    if url == "" then current
    else match fetch
      case Raised => current
      case Response(status, body) => if status == 200 then Some(body) else current
      case BrokenStream(written) => Some(written)
  }

  /** The file current_art_{rank}.jpg, if it exists. */
  function ImageAt(cache: map<int, Bytes>, rank: int): Option<Bytes>
  {
    if rank in cache then Some(cache[rank]) else None
  }

  /** Applies the outcome of one fetch to the image directory. */
  function StoreFetched(cache: map<int, Bytes>, rank: int, url: string, fetch: FetchResult): (r: map<int, Bytes>)
    ensures ImageAt(r, rank) == CachedImage(ImageAt(cache, rank), url, fetch)
    ensures forall q :: q != rank ==> ImageAt(r, q) == ImageAt(cache, q)
  {
    match CachedImage(ImageAt(cache, rank), url, fetch)
    case Some(b) => cache[rank := b]
    case None => cache
  }

  datatype ImageResponse = Image(body: Bytes) | NotFound | InvalidRank {
    function StatusCode(): int
    {
      match this
      case Image(_) => 200
      case NotFound => 404
      case InvalidRank => 400
    }
  }

  /** GET /current_art_<rank>.jpg: a rank outside 1..10 is rejected with 400,
      a valid rank without a cached file gives 404, otherwise the file is served. */
  function ServeTopImage(cache: map<int, Bytes>, rank: int): (r: ImageResponse)
    ensures r.StatusCode() == 400 <==> !(1 <= rank <= TopN)
    ensures r.StatusCode() == 404 <==> 1 <= rank <= TopN && rank !in cache
    ensures r.StatusCode() == 200 <==> 1 <= rank <= TopN && rank in cache
    ensures r.Image? ==> r.body == cache[rank]
  {
    if 1 <= rank <= TopN then
      if rank in cache then Image(cache[rank]) else NotFound
    else InvalidRank
  }

  /** A failed fetch leaves a rank's cache as it was, so the image route keeps
      serving the previous (stale) bytes for that rank. */
  lemma FailedFetchServesStale(cache: map<int, Bytes>, rank: int, url: string, fetch: FetchResult)
    requires fetch.Raised? || (fetch.Response? && fetch.status != 200) || url == ""
    ensures ServeTopImage(StoreFetched(cache, rank, url, fetch), rank) == ServeTopImage(cache, rank)
  {
    var r := StoreFetched(cache, rank, url, fetch);
    assert ImageAt(r, rank) == ImageAt(cache, rank);
  }

  /** Removing a label set from a series map; an absent one is left alone. */
  function RemoveSeries(series: map<Labels, int>, l: Labels): (r: map<Labels, int>)
    ensures r.Keys == series.Keys - {l}
    ensures l !in series ==> r == series
    ensures forall m :: m in r ==> r[m] == series[m]
  {
    series - {l}
  }

  /** The label sets a rank may carry, given what previous_labels recorded for it. */
  function Recorded(prev: Option<Labels>): set<Labels>
  {
    if prev.Some? then {prev.value} else {}
  }

  /** The relay's state: the key list of the last applied ranking, the label set
      recorded per rank, the series of each rank's gauge and the image directory. */
  class TopTenRelay {
    var lastTopKeys: seq<string>
    var previousLabels: seq<Option<Labels>>
    /** Series of song_top{i+1}_most_played, by label set. */
    var topSeries: seq<map<Labels, int>>
    /** The image directory: rank to the bytes of current_art_{rank}.jpg. */
    var cache: map<int, Bytes>

    /** Every rank's gauge carries at most the label set recorded for it. */
    ghost predicate Valid()
      reads this
    {
      && |previousLabels| == TopN
      && |topSeries| == TopN
      && forall i :: 0 <= i < TopN ==> topSeries[i].Keys <= Recorded(previousLabels[i])
    }

    /** At most one published label set per rank. */
    lemma AtMostOneLabelSetPerRank(i: nat)
      requires Valid() && i < TopN
      ensures |topSeries[i].Keys| <= 1
    {
      var keys := topSeries[i].Keys;
      assert keys <= Recorded(previousLabels[i]);
      if keys != {} {
        var l :| l in keys;
        assert keys == {l};
      }
    }

    /** Start-up with the image files already on disk. */
    constructor (files: map<int, Bytes>)
      ensures Valid()
      ensures lastTopKeys == [] && cache == files
      ensures forall i :: 0 <= i < TopN ==> previousLabels[i] == None && topSeries[i] == map[]
    {
      lastTopKeys := [];
      previousLabels := seq(TopN, _ => None);
      topSeries := seq(TopN, _ => map[]);
      cache := files;
    }

    /** Everything a tick can change: the key list, the recorded labels, the
        gauges and the image directory. */
    ghost function Published(): (seq<string>, seq<Option<Labels>>, seq<map<Labels, int>>, map<int, Bytes>)
      reads this
    {
      (lastTopKeys, previousLabels, topSeries, cache)
    }

    /** One step of the walk, for rank i + 1 and its new entry e:
        remove the recorded label set (absent is fine), try to refresh the image,
        then publish e's label set at its play_count and record it. */
    method ApplyRank(i: nat, e: Entry, fetched: FetchResult)
      requires Valid() && i < TopN
      modifies this`previousLabels, this`topSeries, this`cache
      ensures Valid()
      ensures previousLabels == old(previousLabels)[i := Some(LabelsOf(e))]
      ensures topSeries == old(topSeries)[i := map[LabelsOf(e) := e.playCount]]
      ensures cache == StoreFetched(old(cache), i + 1, e.albumArtUrl, fetched)
    {
      var labels := LabelsOf(e);
      var series := topSeries[i];
      var prev := previousLabels[i];
      if prev.Some? {
        series := RemoveSeries(series, prev.value);
      }
      assert series == map[];
      cache := StoreFetched(cache, i + 1, e.albumArtUrl, fetched);
      series := series[labels := e.playCount];
      topSeries := topSeries[i := series];
      previousLabels := previousLabels[i := Some(labels)];
    }

    /** The walk over the new ranking: every rank present in it
        is processed in turn; a failed fetch stops nothing. */
    method Apply(ranked: seq<Entry>, fetch: int -> FetchResult)
      requires Valid() && |ranked| <= TopN
      modifies this`previousLabels, this`topSeries, this`cache
      ensures Valid()
      ensures forall i :: 0 <= i < |ranked| ==>
        && previousLabels[i] == Some(LabelsOf(ranked[i]))
        && topSeries[i] == map[LabelsOf(ranked[i]) := ranked[i].playCount]
      ensures forall i :: |ranked| <= i < TopN ==>
        previousLabels[i] == old(previousLabels[i]) && topSeries[i] == old(topSeries[i])
      ensures forall rank :: 1 <= rank <= |ranked| ==>
        ImageAt(cache, rank) == CachedImage(ImageAt(old(cache), rank), ranked[rank - 1].albumArtUrl, fetch(rank))
      ensures forall rank :: !(1 <= rank <= |ranked|) ==> ImageAt(cache, rank) == ImageAt(old(cache), rank)
    {
      for i := 0 to |ranked|
        invariant Valid()
        invariant forall j :: 0 <= j < i ==>
          && previousLabels[j] == Some(LabelsOf(ranked[j]))
          && topSeries[j] == map[LabelsOf(ranked[j]) := ranked[j].playCount]
        invariant forall j :: i <= j < TopN ==>
          previousLabels[j] == old(previousLabels[j]) && topSeries[j] == old(topSeries[j])
        invariant forall rank :: 1 <= rank <= i ==>
          ImageAt(cache, rank) == CachedImage(ImageAt(old(cache), rank), ranked[rank - 1].albumArtUrl, fetch(rank))
        invariant forall rank :: !(1 <= rank <= i) ==> ImageAt(cache, rank) == ImageAt(old(cache), rank)
      {
        ApplyRank(i, ranked[i], fetch(i + 1));
      }
    }

    /** One tick of the scan loop. `data` is the stats document's values in
        order, None when reading it raised; `fetch(rank)` is what downloading
        that rank's cover would come to. */
    method Tick(data: Option<seq<Entry>>, fetch: int -> FetchResult) returns (changed: bool)
      requires Valid()
      modifies this
      ensures Valid()
      ensures data.None? ==> !changed && unchanged(this)
      ensures data.Some? ==>
        var r := Rank(data.value);
        && changed == (TopKeys(r) != old(lastTopKeys))
        && lastTopKeys == TopKeys(r)
        && (!changed ==> previousLabels == old(previousLabels) && topSeries == old(topSeries) && cache == old(cache))
        && (changed ==>
              && (forall i :: 0 <= i < |r| ==>
                    && previousLabels[i] == Some(LabelsOf(r[i]))
                    && topSeries[i] == map[LabelsOf(r[i]) := r[i].playCount])
              && (forall i :: |r| <= i < TopN ==>
                    previousLabels[i] == old(previousLabels[i]) && topSeries[i] == old(topSeries[i]))
              && (forall rank :: 1 <= rank <= |r| ==>
                    ImageAt(cache, rank) == CachedImage(ImageAt(old(cache), rank), r[rank - 1].albumArtUrl, fetch(rank)))
              && (forall rank :: !(1 <= rank <= |r|) ==> ImageAt(cache, rank) == ImageAt(old(cache), rank)))
    {
      changed := false;
      if data.None? {
        return;
      }
      var ranked := Rank(data.value);
      var keys := TopKeys(ranked);
      if keys != lastTopKeys {
        changed := true;
        lastTopKeys := keys;
        Apply(ranked, fetch);
      }
    }
  }

  /** Idempotence: once a tick has recorded a document's key list (Tick
      ensures lastTopKeys == TopKeys(Rank(data))), ticking again on the same
      document reports no change and leaves the key list, the recorded labels,
      the gauges and the images as they were. */
  method TickAgain(relay: TopTenRelay, data: seq<Entry>, fetch: int -> FetchResult) returns (changed: bool)
    requires relay.Valid() && relay.lastTopKeys == TopKeys(Rank(data))
    modifies relay
    ensures !changed
    ensures relay.Published() == old(relay.Published())
  {
    changed := relay.Tick(Some(data), fetch);
  }

  /** The relay ranks what the exporter saved: every ranked entry is an entry
      of the ledger, and in a ledger whose entries sit under their own keys each
      published key leads back to its ranked entry. */
  lemma RankOfLedger(l: NestExporter.Ledger)
    requires l.Valid()
    ensures var r := Rank(NestExporter.Values(l));
      && |r| == (if |l.order| < TopN then |l.order| else TopN)
      && (forall i :: 0 <= i < |r| ==> exists k :: k in l.entries && l.entries[k] == r[i])
      && (NestExporter.WellKeyed(l) ==>
            forall i :: 0 <= i < |r| ==> TopKeys(r)[i] in l.entries && l.entries[TopKeys(r)[i]] == r[i])
  {
    var vs := NestExporter.Values(l);
    var r := Rank(vs);
    forall i | 0 <= i < |r|
      ensures exists k :: k in l.entries && l.entries[k] == r[i]
      ensures NestExporter.WellKeyed(l) ==> TopKeys(r)[i] in l.entries && l.entries[TopKeys(r)[i]] == r[i]
    {
      assert r[i] in multiset(r);
      assert r[i] in vs;
      var j :| 0 <= j < |vs| && vs[j] == r[i];
      var k := l.order[j];
      assert k in l.order;
      assert l.entries[k] == r[i];
    }
  }
}
