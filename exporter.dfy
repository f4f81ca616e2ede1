/** The now-playing exporter's poll loop: each poll normalises the cast's media
    status, counts a play when the song key changes to a known title, persists
    the play-count ledger, and rebuilds the now-playing gauges, the play-count
    gauge and the now-playing record. */
module NestExporter {
  import opened Songs

  const Unknown: string := "Unknown"
  const UnknownState: string := "UNKNOWN"

  /** The media status as the cast reports it: any text field may be missing. */
  datatype MediaStatus = MediaStatus(
    title: Option<string>,
    artist: Option<string>,
    albumName: Option<string>,
    imageUrls: seq<string>,
    playerState: Option<string>)

  /** A normalised now-playing snapshot. */
  datatype Snapshot = Snapshot(title: string, artist: string, album: string, image: string, playerState: string)

  /** The record served at /nowplaying. */
  datatype NowPlaying = NowPlaying(title: string, artist: string, album: string, albumArtUrl: string, status: string)

  /** Python truthiness of an optional string: present and not empty. */
  predicate Truthy(v: Option<string>)
  {
    v.Some? && v.value != ""
  }

  function OrDefault(v: Option<string>, default: string): string
  {
    if Truthy(v) then v.value else default
  }

  /** Missing or empty text fields become "Unknown" ("UNKNOWN" for the player
      state); the image is the first image URL, or "" when there is none. */
  function Normalize(st: MediaStatus): (s: Snapshot)
    ensures s.title != "" && s.artist != "" && s.album != "" && s.playerState != ""
    ensures Truthy(st.title) ==> s.title == st.title.value
    ensures !Truthy(st.title) ==> s.title == Unknown
    ensures Truthy(st.artist) ==> s.artist == st.artist.value
    ensures !Truthy(st.artist) ==> s.artist == Unknown
    ensures Truthy(st.albumName) ==> s.album == st.albumName.value
    ensures !Truthy(st.albumName) ==> s.album == Unknown
    ensures Truthy(st.playerState) ==> s.playerState == st.playerState.value
    ensures !Truthy(st.playerState) ==> s.playerState == UnknownState
    ensures |st.imageUrls| > 0 ==> s.image == st.imageUrls[0]
    ensures |st.imageUrls| == 0 ==> s.image == ""
  {
    Snapshot(
      OrDefault(st.title, Unknown),
      OrDefault(st.artist, Unknown),
      OrDefault(st.albumName, Unknown),
      if |st.imageUrls| > 0 then st.imageUrls[0] else "",
      OrDefault(st.playerState, UnknownState))
  }

  function SnapshotKey(s: Snapshot): string
  {
    SongKey(s.title, s.artist, s.album)
  }

  /** The play-stats dict: its keys in insertion order, and the entries. */
  datatype Ledger = Ledger(order: seq<string>, entries: map<string, Entry>) {
    ghost predicate Valid()
    {
      && (forall i, j :: 0 <= i < j < |order| ==> order[i] != order[j])
      && (forall k :: k in entries <==> k in order)
    }
  }

  const EmptyLedger: Ledger := Ledger([], map[])

  /** Every entry is stored under the key built from its own fields. */
  ghost predicate WellKeyed(l: Ledger)
  {
    forall k :: k in l.entries ==> EntryKey(l.entries[k]) == k
  }

  /** The play count recorded for key k, 0 when there is none. */
  function Count(l: Ledger, k: string): int
  {
    if k in l.entries then l.entries[k].playCount else 0
  }

  /** The ledger's entries in the dict's order (what `values()` yields). */
  function Values(l: Ledger): (vs: seq<Entry>)
    requires l.Valid()
    ensures |vs| == |l.order|
    ensures forall i :: 0 <= i < |vs| ==> vs[i] == l.entries[l.order[i]]
  {
    seq(|l.order|, i requires 0 <= i < |l.order| => assert l.order[i] in l.order; l.entries[l.order[i]])
  }

  /** Loading the stats document: no file gives the empty ledger. */
  function LoadPlayStats(file: Option<Ledger>): (l: Ledger)
    ensures file.None? ==> l.entries == map[] && l.order == []
    ensures file.Some? ==> l == file.value
  {
    if file.Some? then file.value else EmptyLedger
  }

  /** Counting one play: the first sighting of a key appends an entry with
      play_count 1 and the current image URL, a later one adds 1 to the count
      and keeps the stored title, artist, album and image. */
  function RecordPlay(l: Ledger, s: Snapshot): (r: Ledger)
    requires l.Valid()
    ensures r.Valid()
    ensures r.entries.Keys == l.entries.Keys + {SnapshotKey(s)}
    ensures SnapshotKey(s) !in l.entries ==>
              && r.entries[SnapshotKey(s)] == Entry(s.title, s.artist, s.album, s.image, 1)
              && r.order == l.order + [SnapshotKey(s)]
    ensures SnapshotKey(s) in l.entries ==>
              && r.entries[SnapshotKey(s)] == l.entries[SnapshotKey(s)].(playCount := l.entries[SnapshotKey(s)].playCount + 1)
              && r.order == l.order
    ensures forall k :: k in l.entries && k != SnapshotKey(s) ==> r.entries[k] == l.entries[k]
  {
    var k := SnapshotKey(s);
    if k !in l.entries then
      Ledger(l.order + [k], l.entries[k := Entry(s.title, s.artist, s.album, s.image, 1)])
    else
      Ledger(l.order, l.entries[k := l.entries[k].(playCount := l.entries[k].playCount + 1)])
  }

  /** Counting touches one key: it adds exactly 1 to that key's count, changes
      no other count, removes nothing and keeps the earlier keys' order. */
  lemma RecordPlayGrows(l: Ledger, s: Snapshot)
    requires l.Valid()
    ensures var r := RecordPlay(l, s);
      && l.entries.Keys <= r.entries.Keys
      && l.order <= r.order
      && Count(r, SnapshotKey(s)) == Count(l, SnapshotKey(s)) + 1
      && (forall k :: k != SnapshotKey(s) ==> Count(r, k) == Count(l, k))
  {
  }

  /** Counting keeps every entry stored under its own key. */
  lemma RecordPlayWellKeyed(l: Ledger, s: Snapshot)
    requires l.Valid() && WellKeyed(l)
    ensures WellKeyed(RecordPlay(l, s))
  {
  }

  /** The loop's counting state: the ledger and `last_song_id`. */
  datatype Tracker = Tracker(ledger: Ledger, lastSongId: Option<string>)

  const InitialTracker: Tracker := Tracker(EmptyLedger, None)

  /** A snapshot is counted iff its key differs from last_song_id and its title is known. */
  predicate Qualifies(t: Tracker, s: Snapshot)
  {
    t.lastSongId != Some(SnapshotKey(s)) && s.title != Unknown
  }

  /** One snapshot: a counted one records the play; last_song_id moves to its
      key only when the save after counting succeeded. */
  function Observe(t: Tracker, s: Snapshot, saveSucceeds: bool): (r: Tracker)
    requires t.ledger.Valid()
    ensures r.ledger.Valid()
    ensures !Qualifies(t, s) ==> r == t
    ensures Qualifies(t, s) ==> r.ledger == RecordPlay(t.ledger, s)
    ensures r.lastSongId == if Qualifies(t, s) && saveSucceeds then Some(SnapshotKey(s)) else t.lastSongId
  {
    if Qualifies(t, s) then
      Tracker(RecordPlay(t.ledger, s), if saveSucceeds then Some(SnapshotKey(s)) else t.lastSongId)
    else t
  }

  /** A snapshot titled "Unknown" is never counted. */
  lemma UnknownNeverCounts(t: Tracker, s: Snapshot, saveSucceeds: bool)
    requires t.ledger.Valid() && s.title == Unknown
    ensures Observe(t, s, saveSucceeds) == t
  {
  }

  /** A snapshot repeated after a successfully saved count is not counted again. */
  lemma RepeatNeverCounts(t: Tracker, s: Snapshot, saveSucceeds: bool)
    requires t.ledger.Valid()
    ensures Observe(Observe(t, s, true), s, saveSucceeds) == Observe(t, s, true)
  {
  }

  /** A failed save leaves last_song_id behind, so the same song seen on the
      next poll is counted a second time. */
  lemma SaveFailureRecounts(t: Tracker, s: Snapshot)
    requires t.ledger.Valid() && Qualifies(t, s)
    ensures var t2 := Observe(Observe(t, s, false), s, true);
      Count(t2.ledger, SnapshotKey(s)) == Count(t.ledger, SnapshotKey(s)) + 2
  {
    var t1 := Observe(t, s, false);
    RecordPlayGrows(t.ledger, s);
    RecordPlayGrows(t1.ledger, s);
  }

  /** Songs whose fields contain "::" can share one ledger entry. Song b right
      after song a looks like a repeat and is not counted; after another song
      in between it is counted on a's entry, which keeps a's fields. */
  lemma CollidingSongsShareEntry()
    ensures var a := Snapshot("a::b", "c", "d", "", "PLAYING");
      var b := Snapshot("a", "b::c", "d", "", "PLAYING");
      var x := Snapshot("x", "y", "z", "", "PLAYING");
      var t1 := Observe(InitialTracker, a, true);
      var t3 := Observe(Observe(t1, x, true), b, true);
      && SnapshotKey(a) == SnapshotKey(b)
      && !Qualifies(t1, b)
      && t3.ledger.entries[SnapshotKey(b)] == Entry("a::b", "c", "d", "", 2)
  {
    var a := Snapshot("a::b", "c", "d", "", "PLAYING");
    var b := Snapshot("a", "b::c", "d", "", "PLAYING");
    var x := Snapshot("x", "y", "z", "", "PLAYING");
    KeyCollision();
    var k := SnapshotKey(a);
    var kx := SnapshotKey(x);
    assert kx == "x::y::z" && k == "a::b::c::d";
    var t1 := Observe(InitialTracker, a, true);
    assert Qualifies(InitialTracker, a);
    assert t1.ledger.entries == map[k := Entry("a::b", "c", "d", "", 1)];
    assert t1.lastSongId == Some(k);
    var t2 := Observe(t1, x, true);
    assert Qualifies(t1, x);
    assert t2.ledger.entries[k] == Entry("a::b", "c", "d", "", 1);
    assert t2.lastSongId == Some(kx);
    assert Qualifies(t2, b);
  }

  /** A run of polls: snaps[i] is the snapshot of poll i, and saves[i] whether
      the save after a count on that poll succeeds. */
  function Replay(t: Tracker, snaps: seq<Snapshot>, saves: seq<bool>): (r: Tracker)
    requires t.ledger.Valid() && |saves| == |snaps|
    ensures r.ledger.Valid()
    decreases |snaps|
  {
    if |snaps| == 0 then t else Replay(Observe(t, snaps[0], saves[0]), snaps[1..], saves[1..])
  }

  /** The keys counted during a run, in order. */
  function CountedKeys(t: Tracker, snaps: seq<Snapshot>, saves: seq<bool>): seq<string>
    requires t.ledger.Valid() && |saves| == |snaps|
    decreases |snaps|
  {
    if |snaps| == 0 then []
    else
      (if Qualifies(t, snaps[0]) then [SnapshotKey(snaps[0])] else [])
      + CountedKeys(Observe(t, snaps[0], saves[0]), snaps[1..], saves[1..])
  }

  /** Whether the save after each counted play succeeded, in the order of CountedKeys. */
  function CountedSaves(t: Tracker, snaps: seq<Snapshot>, saves: seq<bool>): (cs: seq<bool>)
    requires t.ledger.Valid() && |saves| == |snaps|
    ensures |cs| == |CountedKeys(t, snaps, saves)|
    decreases |snaps|
  {
    if |snaps| == 0 then []
    else
      (if Qualifies(t, snaps[0]) then [saves[0]] else [])
      + CountedSaves(Observe(t, snaps[0], saves[0]), snaps[1..], saves[1..])
  }

  /** A key's play count grows by exactly the number of counted transitions
      into it, whether or not their saves succeeded. */
  lemma {:induction false} ReplayCounts(t: Tracker, snaps: seq<Snapshot>, saves: seq<bool>, k: string)
    requires t.ledger.Valid() && |saves| == |snaps|
    ensures Count(Replay(t, snaps, saves).ledger, k) == Count(t.ledger, k) + multiset(CountedKeys(t, snaps, saves))[k]
    decreases |snaps|
  {
    if |snaps| > 0 {
      var s := snaps[0];
      var t1 := Observe(t, s, saves[0]);
      ReplayCounts(t1, snaps[1..], saves[1..], k);
      if Qualifies(t, s) {
        RecordPlayGrows(t.ledger, s);
      }
    }
  }

  /** A counted play whose save succeeded is followed by a counted play of a
      different key, and the first counted key differs from the starting
      last_song_id: a repeated snapshot counts again only after a failed save. */
  lemma {:induction false} CountedKeysChange(t: Tracker, snaps: seq<Snapshot>, saves: seq<bool>)
    requires t.ledger.Valid() && |saves| == |snaps|
    ensures var c, cs := CountedKeys(t, snaps, saves), CountedSaves(t, snaps, saves);
      && (forall i :: 0 <= i < |c| - 1 && cs[i] ==> c[i] != c[i + 1])
      && (|c| > 0 ==> t.lastSongId != Some(c[0]))
    decreases |snaps|
  {
    if |snaps| > 0 {
      var s := snaps[0];
      var t1 := Observe(t, s, saves[0]);
      CountedKeysChange(t1, snaps[1..], saves[1..]);
      var rest := CountedKeys(t1, snaps[1..], saves[1..]);
      var restSaves := CountedSaves(t1, snaps[1..], saves[1..]);
      if Qualifies(t, s) {
        var c, cs := [SnapshotKey(s)] + rest, [saves[0]] + restSaves;
        forall i | 0 <= i < |c| - 1 && cs[i]
          ensures c[i] != c[i + 1]
        {
          if i > 0 {
            assert c[i] == rest[i - 1] && c[i + 1] == rest[i] && cs[i] == restSaves[i - 1];
          } else {
            assert t1.lastSongId == Some(SnapshotKey(s));
          }
        }
      } else {
        assert t1 == t;
      }
    }
  }

  /** No counted play after position i was saved. */
  predicate NoneSavedAfter(cs: seq<bool>, i: int)
  {
    forall j :: 0 <= j < |cs| && i < j ==> !cs[j]
  }

  /** last_song_id ends at the last counted key whose save succeeded, and stays
      put when no counted play was saved. */
  lemma {:induction false} ReplayLastSongId(t: Tracker, snaps: seq<Snapshot>, saves: seq<bool>)
    requires t.ledger.Valid() && |saves| == |snaps|
    ensures var c, cs := CountedKeys(t, snaps, saves), CountedSaves(t, snaps, saves);
      var last := Replay(t, snaps, saves).lastSongId;
      && (NoneSavedAfter(cs, -1) ==> last == t.lastSongId)
      && (forall i :: 0 <= i < |c| && cs[i] && NoneSavedAfter(cs, i) ==> last == Some(c[i]))
    decreases |snaps|
  {
    if |snaps| > 0 {
      var s := snaps[0];
      var t1 := Observe(t, s, saves[0]);
      ReplayLastSongId(t1, snaps[1..], saves[1..]);
      var last := Replay(t1, snaps[1..], saves[1..]).lastSongId;
      assert Replay(t, snaps, saves).lastSongId == last;
      var rest := CountedKeys(t1, snaps[1..], saves[1..]);
      var restSaves := CountedSaves(t1, snaps[1..], saves[1..]);
      // the induction hypothesis, stated on the function terms so that it can be instantiated
      assert forall k ::
          0 <= k < |CountedKeys(t1, snaps[1..], saves[1..])| &&
          CountedSaves(t1, snaps[1..], saves[1..])[k] &&
          NoneSavedAfter(CountedSaves(t1, snaps[1..], saves[1..]), k) ==>
          last == Some(CountedKeys(t1, snaps[1..], saves[1..])[k]);
      if Qualifies(t, s) {
        var c, cs := [SnapshotKey(s)] + rest, [saves[0]] + restSaves;
        assert CountedKeys(t, snaps, saves) == c && CountedSaves(t, snaps, saves) == cs;
        forall i | 0 <= i < |c| && cs[i] && NoneSavedAfter(cs, i)
          ensures last == Some(c[i])
        {
          assert NoneSavedAfter(restSaves, i - 1) by {
            forall j | 0 <= j < |restSaves| && i - 1 < j
              ensures !restSaves[j]
            {
              assert restSaves[j] == cs[j + 1];
            }
          }
          if i > 0 {
            assert c[i] == rest[i - 1] && restSaves[i - 1];
          } else {
            assert t1.lastSongId == Some(SnapshotKey(s));
          }
        }
        if NoneSavedAfter(cs, -1) {
          assert !cs[0];
          assert NoneSavedAfter(restSaves, -1) by {
            forall j | 0 <= j < |restSaves|
              ensures !restSaves[j]
            {
              assert restSaves[j] == cs[j + 1];
            }
          }
        }
      } else {
        assert t1 == t;
        assert CountedKeys(t, snaps, saves) == rest && CountedSaves(t, snaps, saves) == restSaves;
      }
    }
  }

  /** Counts never decrease and entries are never removed over a run of polls,
      failed saves included. */
  lemma {:induction false} ReplayMonotone(t: Tracker, snaps: seq<Snapshot>, saves: seq<bool>)
    requires t.ledger.Valid() && |saves| == |snaps|
    ensures var r := Replay(t, snaps, saves).ledger;
      && t.ledger.order <= r.order
      && (forall k :: k in t.ledger.entries ==> k in r.entries && Count(t.ledger, k) <= Count(r, k))
    decreases |snaps|
  {
    if |snaps| > 0 {
      var t1 := Observe(t, snaps[0], saves[0]);
      if Qualifies(t, snaps[0]) {
        RecordPlayGrows(t.ledger, snaps[0]);
      }
      ReplayMonotone(t1, snaps[1..], saves[1..]);
    }
  }

  /** Snapshots [A, A, B, A], every save succeeding, count A twice and B once. */
  lemma ScenarioRepeatsAndReturn(a: Snapshot, b: Snapshot)
    requires a.title != Unknown && b.title != Unknown && SnapshotKey(a) != SnapshotKey(b)
    ensures var r := Replay(InitialTracker, [a, a, b, a], [true, true, true, true]).ledger;
      Count(r, SnapshotKey(a)) == 2 && Count(r, SnapshotKey(b)) == 1
  {
    var ka, kb := SnapshotKey(a), SnapshotKey(b);
    var t1 := Observe(InitialTracker, a, true);
    var t2 := Observe(t1, a, true);
    var t3 := Observe(t2, b, true);
    var t4 := Observe(t3, a, true);
    assert [a, a, b, a][1..] == [a, b, a] && [a, b, a][1..] == [b, a] && [b, a][1..] == [a];
    var yes := [true, true, true, true];
    assert yes[1..] == [true, true, true] && yes[1..][1..] == [true, true] && yes[1..][1..][1..] == [true];
    assert Replay(t3, [a], [true]) == Replay(t4, [], []) == t4;
    assert Replay(t2, [b, a], [true, true]) == Replay(t3, [a], [true]);
    assert Replay(t1, [a, b, a], [true, true, true]) == Replay(t2, [b, a], [true, true]);
    assert Replay(InitialTracker, [a, a, b, a], yes) == Replay(t1, [a, b, a], [true, true, true]);
    assert Count(t1.ledger, ka) == 1 && t1.lastSongId == Some(ka);
    assert t2 == t1;
    assert Count(t3.ledger, ka) == 1 && Count(t3.ledger, kb) == 1 && t3.lastSongId == Some(kb);
  }

  /** Snapshots [A, Unknown, A], every save succeeding, count A once: the
      Unknown snapshot does not move last_song_id. */
  lemma ScenarioUnknownFlicker(a: Snapshot, u: Snapshot)
    requires a.title != Unknown && u.title == Unknown
    ensures Count(Replay(InitialTracker, [a, u, a], [true, true, true]).ledger, SnapshotKey(a)) == 1
  {
    var t1 := Observe(InitialTracker, a, true);
    assert [a, u, a][1..] == [u, a] && [u, a][1..] == [a];
    assert [true, true, true][1..] == [true, true] && [true, true][1..] == [true];
    assert Observe(t1, u, true) == t1;
    assert Observe(t1, a, true) == t1;
    assert Replay(t1, [a], [true]) == Replay(t1, [], []) == t1;
    assert Replay(t1, [u, a], [true, true]) == Replay(t1, [a], [true]);
    assert Replay(InitialTracker, [a, u, a], [true, true, true]) == Replay(t1, [u, a], [true, true]);
  }

  /** Snapshots [A, A] where the first save fails count A on both polls. */
  lemma ScenarioFailedSaveRepeats(a: Snapshot)
    requires a.title != Unknown
    ensures CountedKeys(InitialTracker, [a, a], [false, true]) == [SnapshotKey(a), SnapshotKey(a)]
  {
    var t1 := Observe(InitialTracker, a, false);
    assert t1.lastSongId == None;
    assert [a, a][1..] == [a] && [false, true][1..] == [true];
    assert CountedKeys(t1, [a], [true]) == [SnapshotKey(a)] + CountedKeys(Observe(t1, a, true), [], []);
  }

  /** The label sets of the ledger's entries. */
  ghost function EntryLabels(l: Ledger): set<Labels>
  {
    set k | k in l.entries :: LabelsOf(l.entries[k])
  }

  /** The play-count gauge holds the ledger: one series per entry's labels,
      valued at that entry's play_count when each entry sits under its own key. */
  ghost predicate ExportsLedger(g: map<Labels, int>, l: Ledger)
  {
    && g.Keys == EntryLabels(l)
    && (WellKeyed(l) ==> forall k :: k in l.entries ==> g[LabelsOf(l.entries[k])] == l.entries[k].playCount)
  }

  /** In a well-keyed ledger different entries publish different label sets,
      so the gauge holds exactly one series per entry. */
  lemma WellKeyedLabelsDistinct(l: Ledger, k1: string, k2: string)
    requires WellKeyed(l) && k1 in l.entries && k2 in l.entries && k1 != k2
    ensures LabelsOf(l.entries[k1]) != LabelsOf(l.entries[k2])
  {
  }

  /** The export loop: one series per ledger entry, set to its play_count. */
  method ExportPlayCounts(l: Ledger) returns (g: map<Labels, int>)
    requires l.Valid()
    ensures ExportsLedger(g, l)
  {
    g := map[];
    var order := l.order;
    for i := 0 to |order|
      invariant g.Keys == OrderLabels(l, i)
      invariant forall j :: 0 <= j < i ==> LabelsOf(l.entries[order[j]]) in g
      invariant WellKeyed(l) ==> forall j :: 0 <= j < i ==> g[LabelsOf(l.entries[order[j]])] == l.entries[order[j]].playCount
    {
      assert order[i] in l.entries;
      var e := l.entries[order[i]];
      ghost var before := g;
      g := g[LabelsOf(e) := e.playCount];
      if WellKeyed(l) {
        forall j | 0 <= j < i + 1
          ensures g[LabelsOf(l.entries[order[j]])] == l.entries[order[j]].playCount
        {
          if j < i {
            WellKeyedLabelsDistinct(l, order[j], order[i]);
            assert g[LabelsOf(l.entries[order[j]])] == before[LabelsOf(l.entries[order[j]])];
          }
        }
      }
    }
    OrderLabelsAll(l);
  }

  /** The label sets of the first n entries in the ledger's order. */
  ghost function OrderLabels(l: Ledger, n: nat): set<Labels>
    requires l.Valid() && n <= |l.order|
  {
    if n == 0 then {}
    else
      assert l.order[n - 1] in l.order;
      OrderLabels(l, n - 1) + {LabelsOf(l.entries[l.order[n - 1]])}
  }

  lemma {:induction false} OrderLabelsPrefix(l: Ledger, n: nat)
    requires l.Valid() && n <= |l.order|
    ensures forall lab :: lab in OrderLabels(l, n) <==> exists j :: 0 <= j < n && LabelsOf(l.entries[l.order[j]]) == lab
  {
    if n > 0 {
      OrderLabelsPrefix(l, n - 1);
    }
  }

  lemma OrderLabelsAll(l: Ledger)
    requires l.Valid()
    ensures OrderLabels(l, |l.order|) == EntryLabels(l)
  {
    OrderLabelsPrefix(l, |l.order|);
    forall lab | lab in EntryLabels(l)
      ensures lab in OrderLabels(l, |l.order|)
    {
      var k :| k in l.entries && LabelsOf(l.entries[k]) == lab;
      var j :| 0 <= j < |l.order| && l.order[j] == k;
    }
  }

  /** The exporter process: the ledger in memory, the loop's last_song_id, the
      stats file, the now-playing record and the gauges it publishes. */
  class Exporter {
    var playStats: Ledger
    var lastSongId: Option<string>
    /** The stats document on disk; None while there is no file. */
    var statsFile: Option<Ledger>
    /** How often save_play_stats has been called. */
    var saveCalls: nat
    var nowPlaying: NowPlaying
    var currentSong: map<string, int>
    var currentArtist: map<string, int>
    var currentAlbum: map<string, int>
    var currentStatus: map<string, int>
    var currentAlbumArt: map<string, int>
    var songPlayCount: map<Labels, int>

    ghost predicate Valid()
      reads this
    {
      playStats.Valid() && (statsFile.Some? ==> statsFile.value.Valid())
    }

    function State(): Tracker
      reads this
    {
      Tracker(playStats, lastSongId)
    }

    /** Start-up: the ledger is loaded from the stats file, if there is one. */
    constructor (file: Option<Ledger>)
      requires file.Some? ==> file.value.Valid()
      ensures Valid()
      ensures playStats == LoadPlayStats(file) && lastSongId == None
      ensures statsFile == file && saveCalls == 0
      ensures nowPlaying == NowPlaying("", "", "", "", "")
      ensures currentSong == map[] && currentArtist == map[] && currentAlbum == map[]
      ensures currentStatus == map[] && currentAlbumArt == map[] && songPlayCount == map[]
    {
      playStats := LoadPlayStats(file);
      lastSongId := None;
      statsFile := file;
      saveCalls := 0;
      nowPlaying := NowPlaying("", "", "", "", "");
      currentSong, currentArtist, currentAlbum := map[], map[], map[];
      currentStatus, currentAlbumArt, songPlayCount := map[], map[], map[];
    }

    /** Whether the gauges and the now-playing record show snapshot s and the
        current ledger: each now-playing gauge holds the one series for s, the
        play-count gauge exports the ledger, and the record equals s. */
    ghost predicate Shows(s: Snapshot)
      reads this
    {
      && nowPlaying == NowPlaying(s.title, s.artist, s.album, s.image, s.playerState)
      && currentSong == map[s.title := 1] && currentArtist == map[s.artist := 1]
      && currentAlbum == map[s.album := 1] && currentStatus == map[s.playerState := 1]
      && currentAlbumArt == map[s.image := 1]
      && ExportsLedger(songPlayCount, playStats)
    }

    /** The rebuild after counting: the now-playing gauges are cleared and set
        to the snapshot, the play-count gauge is rebuilt from the ledger, and
        the now-playing record becomes the snapshot. */
    method Publish(s: Snapshot)
      requires Valid()
      modifies this`nowPlaying, this`currentSong, this`currentArtist, this`currentAlbum
      modifies this`currentStatus, this`currentAlbumArt, this`songPlayCount
      ensures Shows(s)
    {
      currentSong := map[s.title := 1];
      currentArtist := map[s.artist := 1];
      currentAlbum := map[s.album := 1];
      currentStatus := map[s.playerState := 1];
      currentAlbumArt := map[s.image := 1];
      nowPlaying := NowPlaying(s.title, s.artist, s.album, s.image, s.playerState);
      var g := ExportPlayCounts(playStats);
      songPlayCount := g;
    }

    /** What the exporter shows: the now-playing record and every gauge. */
    ghost function Display(): (NowPlaying, map<string, int>, map<string, int>, map<string, int>,
                               map<string, int>, map<string, int>, map<Labels, int>)
      reads this
    {
      (nowPlaying, currentSong, currentArtist, currentAlbum, currentStatus, currentAlbumArt, songPlayCount)
    }

    /** The counting step of the loop: count the play when the snapshot qualifies,
        then save the ledger; last_song_id moves only once the save succeeded.
        `saved` is false exactly when the save raised. */
    method CountPlay(s: Snapshot, saveSucceeds: bool) returns (counted: bool, saved: bool)
      requires Valid()
      modifies this`playStats, this`lastSongId, this`statsFile, this`saveCalls
      ensures Valid()
      ensures counted == Qualifies(old(State()), s)
      ensures saved == (!counted || saveSucceeds)
      ensures State() == Observe(old(State()), s, saveSucceeds)
      ensures saveCalls == old(saveCalls) + (if counted then 1 else 0)
      ensures statsFile == (if counted && saveSucceeds then Some(playStats) else old(statsFile))
    {
      counted, saved := false, true;
      var songId := SnapshotKey(s);
      if lastSongId != Some(songId) && s.title != Unknown {
        counted := true;
        playStats := RecordPlay(playStats, s);
        saveCalls := saveCalls + 1;
        if !saveSucceeds {
          saved := false;
          return;
        }
        statsFile := Some(playStats);
        lastSongId := Some(songId);
      }
    }

    /** One iteration of the poll loop. `status` is None when polling the cast
        raised; `saveSucceeds` is whether writing the stats file works. An
        exception skips the rest of the iteration: nothing after it happens. */
    method Poll(status: Option<MediaStatus>, saveSucceeds: bool) returns (counted: bool)
      requires Valid()
      modifies this
      ensures Valid()
      ensures status.None? ==> !counted && unchanged(this)
      ensures status.Some? ==>
        var s := Normalize(status.value);
        && counted == Qualifies(old(State()), s)
        && State() == Observe(old(State()), s, saveSucceeds)
        && saveCalls == old(saveCalls) + (if counted then 1 else 0)
        && statsFile == (if counted && saveSucceeds then Some(playStats) else old(statsFile))
        && (counted && !saveSucceeds ==> Display() == old(Display()))
        && (!counted || saveSucceeds ==> Shows(s))
    {
      counted := false;
      if status.None? {
        return;
      }
      var s := Normalize(status.value);
      var saved;
      counted, saved := CountPlay(s, saveSucceeds);
      if saved {
        Publish(s);
      }
    }
  }

  /** Restart round trip: after a poll that counted a play and saved the
      ledger, a restarted exporter loads exactly that ledger, so every recorded
      play count survives. */
  method RestartAfterSave(e: Exporter, st: MediaStatus) returns (counted: bool, restarted: Exporter)
    requires e.Valid()
    modifies e
    ensures counted == Qualifies(old(e.State()), Normalize(st))
    ensures restarted.playStats == LoadPlayStats(e.statsFile)
    ensures counted ==> e.statsFile == Some(e.playStats)
    ensures counted ==> restarted.playStats == e.playStats
    ensures counted ==> forall k :: Count(restarted.playStats, k) == Count(e.playStats, k)
  {
    counted := e.Poll(Some(st), true);
    restarted := new Exporter(e.statsFile);
  }
}
