/**
  Song recognition (server/internal/recognition/service.go). The sample's
  hashes are looked up in the fingerprint table; every pair of a stored
  hash and a sample hash with the same value is a vote for the stored
  hash's song at the time difference between the two, rounded to 50 ms
  bins. The (song, bin) with the most votes wins if its count reaches an
  adaptive threshold.

  The song table is a parameter: a lookup from song ID to the song or an
  error.
 */
module Recognition {
  import opened Base
  import Audio
  import opened Hashing
  import opened FingerprintRepository
  import FingerprintService

  /** Bins per second: 50 ms bins. */
  const TimeBinResolution: int := 20
  const MinAbsoluteScore: int := 5
  const MinScoreRatio: real := 0.015

  datatype SongEntity = SongEntity(id: Uuid, title: string, artist: string, duration: int, youtubeId: string)

  datatype MatchResult = MatchResult(song: SongEntity, timeOffset: real, score: int)

  /** `math.Round`: the nearest integer, halves rounded away from zero. */
  function Round(x: real): (r: int)
    ensures 0.0 <= x ==> r as real - 0.5 <= x < r as real + 0.5
    ensures x < 0.0 ==> r as real - 0.5 < x <= r as real + 0.5
  {
    if x >= 0.0 then (x + 0.5).Floor else -((-x + 0.5).Floor)
  }

  /** The package's `max`. */
  function Max(a: int, b: int): (m: int)
    ensures m >= a && m >= b && (m == a || m == b)
  {
    if a > b then a else b
  }

  /** The adaptive threshold for a sample of n hashes: max(5, int(n * 0.015)). */
  function Threshold(n: nat): int {
    Max(MinAbsoluteScore, (n as real * MinScoreRatio).Floor)
  }

  /** The threshold is never below 5, and above 5 it is 1.5% of the sample, rounded down. */
  lemma ThresholdBounds(n: nat)
    ensures Threshold(n) >= MinAbsoluteScore
    ensures Threshold(n) == MinAbsoluteScore || Threshold(n) as real <= n as real * MinScoreRatio < Threshold(n) as real + 1.0
    ensures n < 400 ==> Threshold(n) == MinAbsoluteScore
  {
  }

  // ---------------------------------------------------------------------------
  // The sample's offsets by hash value
  // ---------------------------------------------------------------------------

  /** The offsets of the sample hashes that have value v, in sample order. */
  function OffsetsFor(sample: seq<Hash>, v: int): (os: seq<real>)
    ensures |os| <= |sample|
    ensures forall o :: o in os <==> exists s :: s in sample && s.hashValue == v && s.timeOffset == o
  {
    if sample == [] then []
    else
      var last := sample[|sample| - 1];
      var prefix := sample[..|sample| - 1];
      assert sample == prefix + [last];
      OffsetsFor(prefix, v) + (if last.hashValue == v then [last.timeOffset] else [])
  }

  /** The map `sampleHashMap`: an entry for each value in the sample, holding that value's offsets. */
  ghost predicate OffsetMapOf(sample: seq<Hash>, m: map<int, seq<real>>) {
    forall v :: (v in m ==> m[v] == OffsetsFor(sample, v) && m[v] != []) && (v !in m ==> OffsetsFor(sample, v) == [])
  }

  /** A value has an entry exactly when some sample hash carries it. */
  lemma OffsetMapKeys(sample: seq<Hash>, m: map<int, seq<real>>, v: int)
    requires OffsetMapOf(sample, m)
    ensures v in m <==> exists s :: s in sample && s.hashValue == v
  {
    if v in m {
      assert m[v][0] in OffsetsFor(sample, v);
    }
    if exists s :: s in sample && s.hashValue == v {
      var s :| s in sample && s.hashValue == v;
      assert s.timeOffset in OffsetsFor(sample, v);
    }
  }

  /** The loop that fills `sampleHashMap`, appending each offset under its value. */
  method BuildOffsetMap(sample: seq<Hash>) returns (m: map<int, seq<real>>)
    ensures OffsetMapOf(sample, m)
  {
    m := map[];
    for i := 0 to |sample|
      invariant OffsetMapOf(sample[..i], m)
    {
      var h := sample[i];
      var offsets := if h.hashValue in m then m[h.hashValue] else [];
      m := m[h.hashValue := offsets + [h.timeOffset]];
      assert sample[..i + 1][..i] == sample[..i];
    }
    assert sample[..|sample|] == sample;
  }

  // ---------------------------------------------------------------------------
  // Votes
  // ---------------------------------------------------------------------------

  /** A (song, offset bin) pair: what the histogram counts. */
  datatype Key = Key(songId: Uuid, bin: int)

  /** One vote, with the stored hash's offset that the result reports. */
  datatype Vote = Vote(key: Key, dbOffset: real)

  /** The vote of a stored hash against a sample offset. */
  function VoteOf(d: Hash, sampleOffset: real): Vote {
    Vote(Key(d.songId, Round((d.timeOffset - sampleOffset) * TimeBinResolution as real)), d.timeOffset)
  }

  /** The votes of one stored hash, one per sample offset, in order. */
  function VotesFor(d: Hash, offsets: seq<real>): (vs: seq<Vote>)
    ensures |vs| == |offsets|
  {
    seq(|offsets|, k requires 0 <= k < |offsets| => VoteOf(d, offsets[k]))
  }

  /** All votes in the order the loops cast them: stored hashes in order, then sample offsets in order. */
  function Votes(sample: seq<Hash>, dbHashes: seq<Hash>): seq<Vote> {
    if dbHashes == [] then []
    else
      var d := dbHashes[|dbHashes| - 1];
      Votes(sample, dbHashes[..|dbHashes| - 1]) + VotesFor(d, OffsetsFor(sample, d.hashValue))
  }

  /**
    The votes are exactly the pairs of a stored hash and a sample hash with
    the same value: a stored hash whose value is not in the sample casts none.
   */
  lemma {:induction false} VotesArePairs(sample: seq<Hash>, dbHashes: seq<Hash>, v: Vote)
    ensures v in Votes(sample, dbHashes) <==>
      exists d, s :: d in dbHashes && s in sample && d.hashValue == s.hashValue && v == VoteOf(d, s.timeOffset)
    decreases |dbHashes|
  {
    if dbHashes != [] {
      var d := dbHashes[|dbHashes| - 1];
      var prefix := dbHashes[..|dbHashes| - 1];
      assert dbHashes == prefix + [d];
      VotesArePairs(sample, prefix, v);
      VotesOfOneHash(sample, d, v);
      if exists d', s :: d' in dbHashes && s in sample && d'.hashValue == s.hashValue && v == VoteOf(d', s.timeOffset) {
        var d', s :| d' in dbHashes && s in sample && d'.hashValue == s.hashValue && v == VoteOf(d', s.timeOffset);
        assert d' == d || d' in prefix;
      }
    }
  }

  /** The votes of one stored hash are its pairs with the sample hashes of the same value. */
  lemma VotesOfOneHash(sample: seq<Hash>, d: Hash, v: Vote)
    ensures v in VotesFor(d, OffsetsFor(sample, d.hashValue)) <==>
      exists s :: s in sample && s.hashValue == d.hashValue && v == VoteOf(d, s.timeOffset)
  {
    var offsets := OffsetsFor(sample, d.hashValue);
    if v in VotesFor(d, offsets) {
      var k :| 0 <= k < |offsets| && VotesFor(d, offsets)[k] == v;
      assert offsets[k] in offsets;
    }
    if exists s :: s in sample && s.hashValue == d.hashValue && v == VoteOf(d, s.timeOffset) {
      var s :| s in sample && s.hashValue == d.hashValue && v == VoteOf(d, s.timeOffset);
      assert s.timeOffset in offsets;
      var k :| 0 <= k < |offsets| && offsets[k] == s.timeOffset;
      assert VotesFor(d, offsets)[k] == v;
    }
  }

  // ---------------------------------------------------------------------------
  // The histogram and the best-so-far
  // ---------------------------------------------------------------------------

  /** The number of votes for key. */
  function Count(votes: seq<Vote>, key: Key): nat {
    if votes == [] then 0
    else Count(votes[..|votes| - 1], key) + (if votes[|votes| - 1].key == key then 1 else 0)
  }

  /** `bestScore`, `bestSongID` and `bestTimeOffset`. */
  datatype Best = Best(score: int, songId: Uuid, timeOffset: real)

  /** The loop state: `scores` (flattened to one map over (song, bin)) and the best so far. */
  datatype Tally = Tally(scores: map<Key, int>, best: Best)

  const Initial: Tally := Tally(map[], Best(0, NilUuid, 0.0))

  /** `scores[song][bin]`, zero when absent. */
  function CountIn(scores: map<Key, int>, key: Key): int {
    if key in scores then scores[key] else 0
  }

  /** One vote: its count goes up by one, and a count above the best so far takes over, with the vote's song and stored offset. */
  function Cast(t: Tally, v: Vote): Tally {
    var c := CountIn(t.scores, v.key) + 1;
    Tally(t.scores[v.key := c], if c > t.best.score then Best(c, v.key.songId, v.dbOffset) else t.best)
  }

  /** The state after the votes, cast in order from the initial state. */
  function TallyOf(votes: seq<Vote>): Tally {
    if votes == [] then Initial else Cast(TallyOf(votes[..|votes| - 1]), votes[|votes| - 1])
  }

  lemma TallyOfAppend(votes: seq<Vote>, v: Vote)
    ensures TallyOf(votes + [v]) == Cast(TallyOf(votes), v)
  {
    assert (votes + [v])[..|votes|] == votes;
  }

  /** The histogram holds the number of votes of every (song, bin). */
  lemma {:induction false} TallyCounts(votes: seq<Vote>, key: Key)
    ensures CountIn(TallyOf(votes).scores, key) == Count(votes, key)
    decreases |votes|
  {
    if votes != [] {
      TallyCounts(votes[..|votes| - 1], key);
    }
  }

  lemma {:induction false} CountOfPrefix(votes: seq<Vote>, n: nat, key: Key)
    requires n <= |votes|
    ensures Count(votes[..n], key) <= Count(votes, key)
    decreases |votes|
  {
    if n < |votes| {
      CountOfPrefix(votes[..|votes| - 1], n, key);
      assert votes[..|votes| - 1][..n] == votes[..n];
    } else {
      assert votes[..n] == votes;
    }
  }

  /**
    The vote at position i brought its (song, bin) to `score`, and no
    earlier vote brought its own (song, bin) that high: with the strict `>`,
    the first to reach the top count wins a tie.
   */
  ghost predicate FirstToReach(votes: seq<Vote>, i: int, score: int) {
    && 0 <= i < |votes|
    && Count(votes[..i + 1], votes[i].key) == score
    && forall j :: 0 <= j < i ==> Count(votes[..j + 1], votes[j].key) < score
  }

  /**
    The best score is the largest count of any (song, bin), zero only when
    there are no votes; the reported song and offset are those of the vote
    that first reached it.
   */
  lemma {:induction false} TallyBest(votes: seq<Vote>)
    ensures var b := TallyOf(votes).best;
      && (forall key :: Count(votes, key) <= b.score)
      && (b.score == 0 <==> votes == [])
      && (votes != [] ==> exists i :: FirstToReach(votes, i, b.score) && votes[i].key.songId == b.songId && votes[i].dbOffset == b.timeOffset)
    decreases |votes|
  {
    if votes != [] {
      var prefix := votes[..|votes| - 1];
      var v := votes[|votes| - 1];
      assert votes == prefix + [v];
      TallyBest(prefix);
      var t := TallyOf(prefix);
      var b := TallyOf(votes).best;
      TallyCounts(prefix, v.key);
      var c := Count(prefix, v.key) + 1;
      assert Count(votes, v.key) == c;
      forall key
        ensures Count(votes, key) <= b.score
      {
      }
      if c > t.best.score {
        assert b.score == c;
        FirstToReachLast(prefix, v, c);
      } else {
        assert b == t.best;
        var i :| FirstToReach(prefix, i, b.score) && prefix[i].key.songId == b.songId && prefix[i].dbOffset == b.timeOffset;
        FirstToReachExtends(prefix, v, i, b.score);
      }
    }
  }

  /** A vote that lifts its count above every count before it is the first to reach that count. */
  lemma FirstToReachLast(prefix: seq<Vote>, v: Vote, score: int)
    requires forall key :: Count(prefix, key) < score
    requires Count(prefix + [v], v.key) == score
    ensures FirstToReach(prefix + [v], |prefix|, score)
  {
    var votes := prefix + [v];
    forall j | 0 <= j < |prefix|
      ensures Count(votes[..j + 1], votes[j].key) < score
    {
      assert votes[..j + 1] == prefix[..j + 1];
      CountOfPrefix(prefix, j + 1, prefix[j].key);
    }
    assert votes[..|prefix| + 1] == votes;
  }

  /** A later vote does not change who first reached a count. */
  lemma FirstToReachExtends(prefix: seq<Vote>, v: Vote, i: int, score: int)
    requires FirstToReach(prefix, i, score)
    ensures FirstToReach(prefix + [v], i, score)
  {
    var votes := prefix + [v];
    assert votes[..i + 1] == prefix[..i + 1];
    forall j | 0 <= j < i
      ensures Count(votes[..j + 1], votes[j].key) < score
    {
      assert votes[..j + 1] == prefix[..j + 1];
    }
  }

  // ---------------------------------------------------------------------------
  // Counting votes as pairs
  // ---------------------------------------------------------------------------

  /** The sample hashes that pair with stored hash d and vote for key. */
  function PairsWith(sample: seq<Hash>, d: Hash, key: Key): nat {
    if sample == [] then 0
    else
      var s := sample[|sample| - 1];
      PairsWith(sample[..|sample| - 1], d, key) + (if s.hashValue == d.hashValue && VoteOf(d, s.timeOffset).key == key then 1 else 0)
  }

  /** The (stored hash, sample hash) pairs with equal values that vote for key. */
  function PairCount(sample: seq<Hash>, dbHashes: seq<Hash>, key: Key): nat {
    if dbHashes == [] then 0
    else PairCount(sample, dbHashes[..|dbHashes| - 1], key) + PairsWith(sample, dbHashes[|dbHashes| - 1], key)
  }

  lemma {:induction false} CountAppend(a: seq<Vote>, b: seq<Vote>, key: Key)
    ensures Count(a + b, key) == Count(a, key) + Count(b, key)
    decreases |b|
  {
    if b == [] {
      assert a + b == a;
    } else {
      assert (a + b)[..|a + b| - 1] == a + b[..|b| - 1];
      CountAppend(a, b[..|b| - 1], key);
    }
  }

  lemma {:induction false} CountVotesFor(sample: seq<Hash>, d: Hash, key: Key)
    ensures Count(VotesFor(d, OffsetsFor(sample, d.hashValue)), key) == PairsWith(sample, d, key)
    decreases |sample|
  {
    if sample != [] {
      var s := sample[|sample| - 1];
      var prefix := sample[..|sample| - 1];
      CountVotesFor(prefix, d, key);
      var extra := if s.hashValue == d.hashValue then [s.timeOffset] else [];
      assert VotesFor(d, OffsetsFor(prefix, d.hashValue) + extra) == VotesFor(d, OffsetsFor(prefix, d.hashValue)) + VotesFor(d, extra);
      CountAppend(VotesFor(d, OffsetsFor(prefix, d.hashValue)), VotesFor(d, extra), key);
      if s.hashValue == d.hashValue {
        assert VotesFor(d, extra) == [] + [VoteOf(d, s.timeOffset)];
      }
    }
  }

  /** The count for a (song, bin) is the number of (stored hash, sample hash) pairs with equal values that fall in it. */
  lemma {:induction false} CountIsPairCount(sample: seq<Hash>, dbHashes: seq<Hash>, key: Key)
    ensures Count(Votes(sample, dbHashes), key) == PairCount(sample, dbHashes, key)
    decreases |dbHashes|
  {
    if dbHashes != [] {
      var d := dbHashes[|dbHashes| - 1];
      CountIsPairCount(sample, dbHashes[..|dbHashes| - 1], key);
      CountAppend(Votes(sample, dbHashes[..|dbHashes| - 1]), VotesFor(d, OffsetsFor(sample, d.hashValue)), key);
      CountVotesFor(sample, d, key);
    }
  }

  // ---------------------------------------------------------------------------
  // The scoring loops
  // ---------------------------------------------------------------------------

  /** The nested loops of `IdentifySong` over the stored hashes and, for each, the sample offsets of its value. */
  method ScoreVotes(sampleHashMap: map<int, seq<real>>, dbHashes: seq<Hash>, ghost sample: seq<Hash>)
    returns (bestScore: int, bestSongId: Uuid, bestTimeOffset: real)
    requires OffsetMapOf(sample, sampleHashMap)
    ensures Best(bestScore, bestSongId, bestTimeOffset) == TallyOf(Votes(sample, dbHashes)).best
  {
    var scores: map<Key, int> := map[];
    bestScore, bestSongId, bestTimeOffset := 0, NilUuid, 0.0;
    for i := 0 to |dbHashes|
      invariant Tally(scores, Best(bestScore, bestSongId, bestTimeOffset)) == TallyOf(Votes(sample, dbHashes[..i]))
    {
      var dbHash := dbHashes[i];
      var sampleOffsets := if dbHash.hashValue in sampleHashMap then sampleHashMap[dbHash.hashValue] else [];
      VotesStep(sample, dbHashes, i);
      scores, bestScore, bestSongId, bestTimeOffset :=
        CastVotes(scores, bestScore, bestSongId, bestTimeOffset, dbHash, sampleOffsets, Votes(sample, dbHashes[..i]));
    }
    assert dbHashes[..|dbHashes|] == dbHashes;
  }

  lemma VotesStep(sample: seq<Hash>, dbHashes: seq<Hash>, i: nat)
    requires i < |dbHashes|
    ensures Votes(sample, dbHashes[..i + 1]) == Votes(sample, dbHashes[..i]) + VotesFor(dbHashes[i], OffsetsFor(sample, dbHashes[i].hashValue))
  {
    assert dbHashes[..i + 1][..i] == dbHashes[..i];
  }

  lemma VotesForStep(done: seq<Vote>, d: Hash, offsets: seq<real>, j: nat)
    requires j < |offsets|
    ensures TallyOf(done + VotesFor(d, offsets[..j + 1])) == Cast(TallyOf(done + VotesFor(d, offsets[..j])), VoteOf(d, offsets[j]))
  {
    assert VotesFor(d, offsets[..j + 1]) == VotesFor(d, offsets[..j]) + [VoteOf(d, offsets[j])];
    assert done + VotesFor(d, offsets[..j + 1]) == (done + VotesFor(d, offsets[..j])) + [VoteOf(d, offsets[j])];
    TallyOfAppend(done + VotesFor(d, offsets[..j]), VoteOf(d, offsets[j]));
  }

  /** The body of the inner loop: `scores[song][bin]++`, then the best-so-far update on a strictly larger count. */
  method CastVote(scores: map<Key, int>, bestScore: int, bestSongId: Uuid, bestTimeOffset: real, key: Key, dbOffset: real)
    returns (scores': map<Key, int>, bestScore': int, bestSongId': Uuid, bestTimeOffset': real)
    ensures Tally(scores', Best(bestScore', bestSongId', bestTimeOffset')) ==
      Cast(Tally(scores, Best(bestScore, bestSongId, bestTimeOffset)), Vote(key, dbOffset))
  {
    var count := if key in scores then scores[key] + 1 else 1;
    scores' := scores[key := count];
    bestScore', bestSongId', bestTimeOffset' := bestScore, bestSongId, bestTimeOffset;
    if count > bestScore {
      bestScore', bestSongId', bestTimeOffset' := count, key.songId, dbOffset;
    }
  }

  /** The inner loop: the votes of one stored hash against each sample offset of its value. */
  method CastVotes(scores: map<Key, int>, bestScore: int, bestSongId: Uuid, bestTimeOffset: real,
                   dbHash: Hash, sampleOffsets: seq<real>, ghost done: seq<Vote>)
    returns (scores': map<Key, int>, bestScore': int, bestSongId': Uuid, bestTimeOffset': real)
    requires Tally(scores, Best(bestScore, bestSongId, bestTimeOffset)) == TallyOf(done)
    ensures Tally(scores', Best(bestScore', bestSongId', bestTimeOffset')) == TallyOf(done + VotesFor(dbHash, sampleOffsets))
  {
    scores', bestScore', bestSongId', bestTimeOffset' := scores, bestScore, bestSongId, bestTimeOffset;
    assert done + VotesFor(dbHash, sampleOffsets[..0]) == done;
    for j := 0 to |sampleOffsets|
      invariant Tally(scores', Best(bestScore', bestSongId', bestTimeOffset')) == TallyOf(done + VotesFor(dbHash, sampleOffsets[..j]))
    {
      var diff := dbHash.timeOffset - sampleOffsets[j];
      var bin := Round(diff * TimeBinResolution as real);
      scores', bestScore', bestSongId', bestTimeOffset' :=
        CastVote(scores', bestScore', bestSongId', bestTimeOffset', Key(dbHash.songId, bin), dbHash.timeOffset);
      VotesForStep(done, dbHash, sampleOffsets, j);
    }
    assert sampleOffsets[..|sampleOffsets|] == sampleOffsets;
  }

  // ---------------------------------------------------------------------------
  // IdentifySong
  // ---------------------------------------------------------------------------

  /**
    What `IdentifySong` answers once it has the sample's hashes and the
    lookup's answer: an error for an empty sample or a failed lookup, no
    match when nothing matched or the best score is under the threshold,
    otherwise the best song (or the song lookup's error).
   */
  function Decide(sample: seq<Hash>, lookup: Result<seq<Hash>, string>, findSong: Uuid -> Result<SongEntity, string>)
    : Result<Option<MatchResult>, string>
  {
    if sample == [] then Err("no fingerprints generated from audio")
    else match lookup
      case Err(e) => Err("failed to get matching hashes: " + e)
      case Ok(dbHashes) =>
        if dbHashes == [] then Ok(None)
        else
          var best := TallyOf(Votes(sample, dbHashes)).best;
          if best.score < Threshold(|sample|) then Ok(None)
          else match findSong(best.songId)
            case Err(e) => Err("failed to find song " + best.songId + ": " + e)
            case Ok(song) => Ok(Some(MatchResult(song, best.timeOffset, best.score)))
  }

  /** The error cases: an empty sample fails before any lookup; a failed lookup fails with its error wrapped. */
  lemma DecideErrors(sample: seq<Hash>, lookup: Result<seq<Hash>, string>, findSong: Uuid -> Result<SongEntity, string>)
    ensures sample == [] ==> Decide(sample, lookup, findSong) == Err("no fingerprints generated from audio")
    ensures sample != [] && lookup.Err? ==> Decide(sample, lookup, findSong) == Err("failed to get matching hashes: " + lookup.error)
    ensures Decide(sample, lookup, findSong).Err? ==>
      sample == [] || lookup.Err? || findSong(TallyOf(Votes(sample, lookup.value)).best.songId).Err?
  {
  }

  /**
    No match (and no error) exactly when the lookup found nothing or the
    best count is below the threshold.
   */
  lemma NoMatch(sample: seq<Hash>, dbHashes: seq<Hash>, findSong: Uuid -> Result<SongEntity, string>)
    requires sample != []
    ensures Decide(sample, Ok(dbHashes), findSong) == Ok(None) <==>
      dbHashes == [] || TallyOf(Votes(sample, dbHashes)).best.score < Threshold(|sample|)
  {
  }

  /**
    A match reports the largest count of any (song, bin), which is at least
    the threshold, and the song and stored offset of the first vote that
    reached it.
   */
  lemma MatchIsBest(sample: seq<Hash>, dbHashes: seq<Hash>, findSong: Uuid -> Result<SongEntity, string>, m: MatchResult)
    requires Decide(sample, Ok(dbHashes), findSong) == Ok(Some(m))
    ensures m.score >= Threshold(|sample|) >= MinAbsoluteScore
    ensures forall key :: PairCount(sample, dbHashes, key) <= m.score
    ensures exists i :: var votes := Votes(sample, dbHashes);
      && FirstToReach(votes, i, m.score)
      && PairCount(sample, dbHashes, votes[i].key) == m.score
      && findSong(votes[i].key.songId) == Ok(m.song)
      && votes[i].dbOffset == m.timeOffset
  {
    var votes := Votes(sample, dbHashes);
    var b := TallyOf(votes).best;
    assert dbHashes != [] && b.score >= Threshold(|sample|) && findSong(b.songId) == Ok(m.song);
    assert m == MatchResult(m.song, b.timeOffset, b.score);
    ThresholdBounds(|sample|);
    TallyBest(votes);
    forall key
      ensures PairCount(sample, dbHashes, key) <= m.score
    {
      CountIsPairCount(sample, dbHashes, key);
    }
    assert votes != [] by {
      assert b.score > 0;
    }
    var i :| FirstToReach(votes, i, b.score) && votes[i].key.songId == b.songId && votes[i].dbOffset == b.timeOffset;
    CountIsPairCount(sample, dbHashes, votes[i].key);
    CountOfPrefix(votes, i + 1, votes[i].key);
  }

  /**
    `IdentifySong`: fingerprints the fragments (under the nil song ID),
    looks the hashes up, and decides. `sample` is the sample's hashes.
   */
  method IdentifySong(db: Database, fragments: seq<Audio.ProcessedFragment>, sampleRate: int,
                      findSong: Uuid -> Result<SongEntity, string>)
    returns (r: Result<Option<MatchResult>, string>, ghost sample: seq<Hash>)
    modifies db
    ensures FingerprintService.FingerprintsOf(fragments, sampleRate, NilUuid, sample)
    ensures sample == [] ==> unchanged(db)
    ensures db.rows == old(db.rows)
    ensures r == Decide(sample, FingerprintService.MatchingOutcome(old(db.rows), old(db.outcomes), sample), findSong)
  {
    var sampleHashes, peaks := FingerprintService.CreateFingerprints(fragments, NilUuid, sampleRate);
    sample := sampleHashes;
    if |sampleHashes| == 0 {
      return Err("no fingerprints generated from audio"), sample;
    }
    var dbResult := FingerprintService.GetMatchingHashes(db, sampleHashes);
    if dbResult.Err? {
      return Err("failed to get matching hashes: " + dbResult.error), sample;
    }
    var dbHashes := dbResult.value;
    if |dbHashes| == 0 {
      return Ok(None), sample;
    }
    var sampleHashMap := BuildOffsetMap(sampleHashes);
    var bestScore, bestSongId, bestTimeOffset := ScoreVotes(sampleHashMap, dbHashes, sampleHashes);
    var minThreshold := Max(MinAbsoluteScore, (|sampleHashes| as real * MinScoreRatio).Floor);
    if bestScore < minThreshold {
      return Ok(None), sample;
    }
    var song := findSong(bestSongId);
    if song.Err? {
      return Err("failed to find song " + bestSongId + ": " + song.error), sample;
    }
    r := Ok(Some(MatchResult(song.value, bestTimeOffset, bestScore)));
  }
}
