/**
  The fingerprint service (server/internal/fingerprint/service.go): it
  composes peak extraction with pair hashing, projects sample hashes to the
  list of values the repository looks up, and forwards saves.
 */
module FingerprintService {
  import opened Base
  import Audio
  import Peaks
  import opened Hashing
  import opened FingerprintRepository

  /** The width of one FFT bin in Hz, as `ExtractPeaks` computes it. */
  function BinSize(sampleRate: int): real {
    sampleRate as real / Audio.WindowSize as real
  }

  /**
    The hashes `CreateFingerprints` yields for these fragments: the pairs of
    some time-sorted arrangement of the peaks `ExtractPeaks` finds in them.
   */
  ghost predicate FingerprintsOf(fragments: seq<Audio.ProcessedFragment>, sampleRate: int, songId: Uuid, hashes: seq<Hash>) {
    exists peaks :: SortedByTime(peaks) && hashes == Pairs(GenerateHash, peaks, songId) &&
      exists extracted :: Peaks.PeaksFor(fragments, BinSize(sampleRate), extracted) && multiset(extracted) == multiset(peaks)
  }

  /**
    `CreateFingerprints`: the hashes of the extracted peaks after
    `CreateHashes` has sorted them by time; nothing is added or filtered.
    `peaks` is that sorted list.
   */
  method CreateFingerprints(fragments: seq<Audio.ProcessedFragment>, songId: Uuid, sampleRate: int)
    returns (hashes: seq<Hash>, ghost peaks: seq<Peaks.Peak>)
    ensures exists extracted :: Peaks.PeaksFor(fragments, BinSize(sampleRate), extracted) && multiset(extracted) == multiset(peaks)
    ensures SortedByTime(peaks)
    ensures hashes == Pairs(GenerateHash, peaks, songId)
    ensures |hashes| <= FanOut * |Peaks.Bands| * |fragments|
    ensures forall h :: h in hashes ==> h.songId == songId
    ensures FingerprintsOf(fragments, sampleRate, songId, hashes)
  {
    var extracted := Peaks.ExtractPeaks(fragments, sampleRate);
    var buffer := new Peaks.Peak[|extracted|](i requires 0 <= i < |extracted| => extracted[i]);
    assert buffer[..] == extracted;
    hashes := CreateHashes(buffer, songId);
    peaks := buffer[..];
    Peaks.PeaksForBounds(fragments, BinSize(sampleRate), extracted);
    assert |peaks| == |extracted| by {
      assert |multiset(peaks)| == |multiset(extracted)|;
    }
    PairsShape(GenerateHash, peaks, songId);
    assert FanOut * |peaks| <= FanOut * (|Peaks.Bands| * |fragments|);
  }

  /** The values looked up for a sample: its hash values in order. */
  function HashValues(sampleHashes: seq<Hash>): seq<int> {
    seq(|sampleHashes|, i requires 0 <= i < |sampleHashes| => sampleHashes[i].hashValue)
  }

  /** What the lookup of a non-empty sample answers, given the table and the scripted outcome of its one SELECT. */
  function MatchingOutcome(rows: seq<Hash>, outcomes: seq<Option<string>>, sampleHashes: seq<Hash>): Result<seq<Hash>, string> {
    match Outcome(outcomes, 0)
    case Some(e) => Err(e)
    case None => Ok(Matching(rows, HashValues(sampleHashes)))
  }

  /** The loop of `GetMatchingHashes`: one value per sample hash, in order, duplicates kept. */
  method HashValuesOf(sampleHashes: seq<Hash>) returns (hashValues: seq<int>)
    ensures |hashValues| == |sampleHashes|
    ensures forall i :: 0 <= i < |sampleHashes| ==> hashValues[i] == sampleHashes[i].hashValue
  {
    var values := new int[|sampleHashes|];
    for i := 0 to |sampleHashes|
      invariant forall k :: 0 <= k < i ==> values[k] == sampleHashes[k].hashValue
    {
      values[i] := sampleHashes[i].hashValue;
    }
    hashValues := values[..];
  }

  /**
    `GetMatchingHashes`: the stored rows whose value is the value of some
    sample hash. An empty sample asks the database nothing and finds nothing.
   */
  method GetMatchingHashes(db: Database, sampleHashes: seq<Hash>) returns (r: Result<seq<Hash>, string>)
    modifies db
    ensures sampleHashes == [] ==> r == Ok([]) && unchanged(db)
    ensures db.rows == old(db.rows)
    ensures sampleHashes != [] ==> r == MatchingOutcome(old(db.rows), old(db.outcomes), sampleHashes)
    ensures r.Ok? ==> forall h :: h in r.value <==> h in db.rows && exists s :: s in sampleHashes && s.hashValue == h.hashValue
  {
    var hashValues := HashValuesOf(sampleHashes);
    assert hashValues == HashValues(sampleHashes);
    r := FindHashesByValues(db, hashValues);
    if r.Ok? {
      forall h | h in r.value
        ensures exists s :: s in sampleHashes && s.hashValue == h.hashValue
      {
        var i :| 0 <= i < |hashValues| && hashValues[i] == h.hashValue;
        assert sampleHashes[i] in sampleHashes;
      }
      forall h | h in db.rows && exists s :: s in sampleHashes && s.hashValue == h.hashValue
        ensures h in r.value
      {
        var s :| s in sampleHashes && s.hashValue == h.hashValue;
        var i :| 0 <= i < |sampleHashes| && sampleHashes[i] == s;
        assert hashValues[i] == h.hashValue;
      }
    }
  }

  /** `SaveFingerprints`: the hashes go to the repository unchanged; see FingerprintRepository.SaveFingerprints. */
  method SaveFingerprints(db: Database, hashes: seq<Hash>) returns (err: Option<string>)
    modifies db
    ensures (State(db.rows, db.log, db.outcomes), err) == SaveFrom(State(old(db.rows), old(db.log), old(db.outcomes)), hashes)
  {
    err := FingerprintRepository.SaveFingerprints(db, hashes);
  }
}
