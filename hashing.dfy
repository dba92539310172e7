/**
  Pair hashing (server/internal/fingerprint/hashing.go): after sorting the
  peaks by time, every peak is an anchor paired with up to FanOut later
  peaks whose time distance lies in [0.1, 2.0] seconds; each pair becomes a
  32-bit FNV-1a hash of the key "f1:f2:dt" built from the truncated
  frequencies and the time distance in hundredths of a second.
 */
module Hashing {
  import opened Base
  import opened Text
  import Peaks
  import Sorting

  const FanOut: nat := 5
  /** Targets closer than this to the anchor are skipped. */
  const MinDelta: real := 0.1
  /** The first target farther than this from the anchor ends the anchor's scan. */
  const MaxDelta: real := 2.0

  /** A fingerprint row; the hash value is a 32-bit unsigned value widened into the field. */
  datatype Hash = Hash(hashValue: int, songId: Uuid, timeOffset: real)

  // ---------------------------------------------------------------------------
  // FNV-1a, 32 bits (section 2 of IETF draft-eastlake-fnv)
  // ---------------------------------------------------------------------------

  const FnvOffsetBasis: Word := 0x811c9dc5
  const FnvPrime: Word := 0x01000193

  /** The bit values of a byte, highest first. */
  const BitValues: seq<nat> := [0x80, 0x40, 0x20, 0x10, 0x08, 0x04, 0x02, 0x01]

  /** Exclusive or of the bits of x and y from the k-th highest bit of a byte down. */
  function XorFrom(x: nat, y: nat, k: nat): nat
    decreases 8 - k
  {
    if k >= 8 then 0
    else
      var p := BitValues[k];
      var hx, hy := x >= p, y >= p;
      (if hx == hy then 0 else p) + XorFrom(if hx then x - p else x, if hy then y - p else y, k + 1)
  }

  /** Bitwise exclusive or of two bytes. */
  function Xor(x: Byte, y: Byte): nat {
    XorFrom(x, y, 0)
  }

  /** One byte of FNV-1a: xor the byte into the low byte, then multiply by the prime modulo 2^32. */
  function FnvStep(h: Word, b: Byte): Word {
    var low := h % 0x100;
    ((h - low + Xor(low, b)) * FnvPrime) % 0x1_0000_0000
  }

  /**
    The byte a character is written as. Only ASCII text is hashed here (see
    HashKeyIsAscii), where this is the character's code, the single UTF-8
    byte Go's []byte conversion yields.
   */
  function ByteOf(c: char): Byte {
    c as int % 0x100
  }

  /** Fold the bytes of the text into the running hash, first byte first. */
  function FnvFold(h: Word, text: string): Word
    decreases |text|
  {
    if text == [] then h else FnvFold(FnvStep(h, ByteOf(text[0])), text[1..])
  }

  function Fnv1a32(text: string): Word {
    FnvFold(FnvOffsetBasis, text)
  }

  /** Writing the data in two pieces gives the same hash as writing it at once. */
  lemma {:induction false} FnvFoldAppend(h: Word, a: string, b: string)
    ensures FnvFold(h, a + b) == FnvFold(FnvFold(h, a), b)
    decreases |a|
  {
    if a != [] {
      assert (a + b)[0] == a[0] && (a + b)[1..] == a[1..] + b;
      FnvFoldAppend(FnvStep(h, ByteOf(a[0])), a[1..], b);
    } else {
      assert a + b == b;
    }
  }

  /** Published test vectors of FNV-1a 32: the empty input and "a". */
  lemma FnvKnownAnswers()
    ensures Fnv1a32("") == 0x811c9dc5
    ensures Fnv1a32("a") == 0xe40c292c
  {
    FnvStepIs(0x811c9dc5, 0x61, 0xc5, 0xa4, 0xe40c292c);
    assert FnvFold(0x811c9dc5, "a") == FnvFold(0xe40c292c, "");
  }

  /** One step of the hash on known values: the low byte xored in, then the product reduced. */
  lemma FnvStepIs(h: Word, b: Byte, low: Byte, x: Byte, r: Word)
    requires h % 0x100 == low
    requires Xor(low, b) == x
    requires (h - low + x) * FnvPrime % 0x1_0000_0000 == r
    ensures FnvStep(h, b) == r
  {
  }

  // ---------------------------------------------------------------------------
  // The key and the hash of one pair
  // ---------------------------------------------------------------------------

  /** Go's float-to-int conversion: truncation toward zero. */
  function Trunc(x: real): (i: int)
    ensures 0.0 <= x ==> 0 <= i && i as real <= x < i as real + 1.0
    ensures x < 0.0 ==> i <= 0 && i as real - 1.0 < x <= i as real
  {
    if x >= 0.0 then x.Floor else -((-x).Floor)
  }

  predicate IsAscii(s: string) {
    forall k :: 0 <= k < |s| ==> s[k] as int < 128
  }

  /** The key "%d:%d:%d" of a quantised triple. */
  function HashKey(freq1: int, freq2: int, timeDelta: int): string
  {
    IntToString(freq1) + ":" + IntToString(freq2) + ":" + IntToString(timeDelta)
  }

  /** Keys are ASCII: digits, minus signs and colons. */
  lemma HashKeyIsAscii(a: int, b: int, c: int)
    ensures IsAscii(HashKey(a, b, c))
  {
    var key := HashKey(a, b, c);
    forall k | 0 <= k < |key| ensures key[k] as int < 128 {
      var sa, sb, sc := IntToString(a), IntToString(b), IntToString(c);
      assert key == sa + ":" + sb + ":" + sc;
      if k < |sa| {
        assert key[k] == sa[k];
      } else if k == |sa| {
        assert key[k] == ':';
      } else if k < |sa| + 1 + |sb| {
        assert key[k] == sb[k - |sa| - 1];
      } else if k == |sa| + 1 + |sb| {
        assert key[k] == ':';
      } else {
        assert key[k] == sc[k - |sa| - |sb| - 2];
      }
    }
  }

  /** The key determines the quantised triple: distinct triples never share a key. */
  lemma HashKeyInjective(a: int, b: int, c: int, a2: int, b2: int, c2: int)
    requires HashKey(a, b, c) == HashKey(a2, b2, c2)
    ensures a == a2 && b == b2 && c == c2
  {
    SplitHashKey(a, b, c);
    SplitHashKey(a2, b2, c2);
    IntToStringInjective(a, a2);
    IntToStringInjective(b, b2);
    IntToStringInjective(c, c2);
  }

  /** Splitting the key on ':' gives back the three decimal numbers. */
  lemma SplitHashKey(a: int, b: int, c: int)
    ensures Split(HashKey(a, b, c), ':') == [IntToString(a), IntToString(b), IntToString(c)]
  {
    var parts := [IntToString(a), IntToString(b), IntToString(c)];
    IntToStringHasNo(a, ':');
    IntToStringHasNo(b, ':');
    IntToStringHasNo(c, ':');
    assert Join(parts, [':']) == HashKey(a, b, c) by {
      assert parts[1..][1..] == [parts[2]];
      assert Join(parts[1..], [':']) == parts[1] + [':'] + parts[2];
    }
    SplitJoin(parts, ':');
  }

  /** `generateHash`: FNV-1a 32 of the key of the truncated frequencies and the time distance in 10 ms units. */
  function GenerateHash(f1: real, f2: real, dt: real): Word {
    Fnv1a32(HashKey(Trunc(f1), Trunc(f2), Trunc(dt * 100.0)))
  }

  /** Inputs that quantise to the same triple get the same hash. */
  lemma SameQuantisationSameHash(f1: real, f2: real, dt: real, g1: real, g2: real, et: real)
    requires Trunc(f1) == Trunc(g1) && Trunc(f2) == Trunc(g2) && Trunc(dt * 100.0) == Trunc(et * 100.0)
    ensures GenerateHash(f1, f2, dt) == GenerateHash(g1, g2, et)
  {
  }

  // ---------------------------------------------------------------------------
  // Pairing
  // ---------------------------------------------------------------------------

  /**
    A hash function over (anchor frequency, target frequency, time distance).
    The pairing below is stated for any such function, so that its proofs
    never look inside the hash; `CreateHashes` uses GenerateHash.
   */
  type Hasher = (real, real, real) -> Word

  /** The row for an anchor and one of its targets. */
  function PairHash(gen: Hasher, songId: Uuid, anchor: Peaks.Peak, target: Peaks.Peak): Hash {
    Hash(gen(anchor.frequency, target.frequency, target.time - anchor.time), songId, anchor.time)
  }

  predicate InTargetZone(anchor: Peaks.Peak, target: Peaks.Peak) {
    MinDelta <= target.time - anchor.time <= MaxDelta
  }

  /**
    The targets of anchor i, scanning from j on with `count` already taken:
    peaks closer than MinDelta are skipped, the first one farther than
    MaxDelta ends the scan, and the scan also ends once FanOut are taken.
   */
  function TargetIndices(peaks: seq<Peaks.Peak>, i: nat, j: nat, count: nat): (ts: seq<nat>)
    requires i < |peaks| && count < FanOut
    ensures forall k :: 0 <= k < |ts| ==> ts[k] < |peaks|
    decreases |peaks| - j
  {
    if j >= |peaks| then []
    else
      var delta := peaks[j].time - peaks[i].time;
      if delta < MinDelta then TargetIndices(peaks, i, j + 1, count)
      else if delta > MaxDelta then []
      else [j] + (if count + 1 >= FanOut then [] else TargetIndices(peaks, i, j + 1, count + 1))
  }

  /** The hashes of anchor i with each of the given targets, in order. */
  function AnchorHashes(gen: Hasher, peaks: seq<Peaks.Peak>, songId: Uuid, i: nat, js: seq<nat>): (hs: seq<Hash>)
    requires i < |peaks| && forall k :: 0 <= k < |js| ==> js[k] < |peaks|
    ensures |hs| == |js|
  {
    seq(|js|, k requires 0 <= k < |js| => PairHash(gen, songId, peaks[i], peaks[js[k]]))
  }

  lemma AnchorHashesAppend(gen: Hasher, peaks: seq<Peaks.Peak>, songId: Uuid, i: nat, js: seq<nat>, j: nat)
    requires i < |peaks| && j < |peaks| && forall k :: 0 <= k < |js| ==> js[k] < |peaks|
    ensures AnchorHashes(gen, peaks, songId, i, js + [j]) == AnchorHashes(gen, peaks, songId, i, js) + [PairHash(gen, songId, peaks[i], peaks[j])]
  {
  }

  /** Which peaks anchor i pairs with: at most FanOut - count of them, increasing, all from j on and in i's zone. */
  lemma {:induction false} TargetIndicesShape(peaks: seq<Peaks.Peak>, i: nat, j: nat, count: nat)
    requires i < |peaks| && count < FanOut
    ensures var ts := TargetIndices(peaks, i, j, count);
      && |ts| <= FanOut - count
      && (forall k :: 0 <= k < |ts| ==> j <= ts[k] < |peaks| && InTargetZone(peaks[i], peaks[ts[k]]))
      && (forall k, l :: 0 <= k < l < |ts| ==> ts[k] < ts[l])
    decreases |peaks| - j
  {
    if j < |peaks| {
      var delta := peaks[j].time - peaks[i].time;
      if delta < MinDelta {
        TargetIndicesShape(peaks, i, j + 1, count);
      } else if delta <= MaxDelta {
        var rest := if count + 1 >= FanOut then [] else TargetIndices(peaks, i, j + 1, count + 1);
        if count + 1 < FanOut {
          TargetIndicesShape(peaks, i, j + 1, count + 1);
        }
        assert forall k :: 0 <= k < |rest| ==> j + 1 <= rest[k] < |peaks| && InTargetZone(peaks[i], peaks[rest[k]]);
        assert forall k, l :: 0 <= k < l < |rest| ==> rest[k] < rest[l];
        PrependIncreasing(peaks, i, j, rest);
      }
    }
  }

  lemma PrependIncreasing(peaks: seq<Peaks.Peak>, i: nat, j: nat, rest: seq<nat>)
    requires i < |peaks| && j < |peaks| && InTargetZone(peaks[i], peaks[j])
    requires forall k :: 0 <= k < |rest| ==> j + 1 <= rest[k] < |peaks| && InTargetZone(peaks[i], peaks[rest[k]])
    requires forall k, l :: 0 <= k < l < |rest| ==> rest[k] < rest[l]
    ensures var ts := [j] + rest;
      && (forall k :: 0 <= k < |ts| ==> j <= ts[k] < |peaks| && InTargetZone(peaks[i], peaks[ts[k]]))
      && (forall k, l :: 0 <= k < l < |ts| ==> ts[k] < ts[l])
  {
    var ts := [j] + rest;
    forall k, l | 0 <= k < l < |ts|
      ensures ts[k] < ts[l]
    {
      assert ts[l] == rest[l - 1];
      if k > 0 {
        assert ts[k] == rest[k - 1];
      }
    }
    forall k | 0 <= k < |ts|
      ensures j <= ts[k] < |peaks| && InTargetZone(peaks[i], peaks[ts[k]])
    {
      if k > 0 {
        assert ts[k] == rest[k - 1];
      }
    }
  }

  /** How many of the peaks lo, lo+1, ..., hi-1 lie in anchor i's target zone. */
  function ZoneCount(peaks: seq<Peaks.Peak>, i: nat, lo: nat, hi: nat): nat
    requires i < |peaks| && hi <= |peaks|
    decreases hi - lo
  {
    if lo >= hi then 0
    else (if InTargetZone(peaks[i], peaks[lo]) then 1 else 0) + ZoneCount(peaks, i, lo + 1, hi)
  }

  /**
    Over peaks sorted by time the scan from j on, with `count` taken, finds
    exactly the in-zone peaks x >= j that have fewer than FanOut - count
    in-zone peaks between j and x: skipping the too-close peaks loses no
    target, and the break at the first too-far peak loses none either.
   */
  lemma {:induction false} TargetIndicesComplete(peaks: seq<Peaks.Peak>, i: nat, j: nat, count: nat)
    requires i < |peaks| && count < FanOut && SortedByTime(peaks)
    ensures forall x: nat :: x in TargetIndices(peaks, i, j, count) <==> ScanTakes(peaks, i, j, count, x)
    decreases |peaks| - j
  {
    var ts := TargetIndices(peaks, i, j, count);
    if j < |peaks| {
      var delta := peaks[j].time - peaks[i].time;
      if delta < MinDelta {
        assert ts == TargetIndices(peaks, i, j + 1, count);
        TargetIndicesComplete(peaks, i, j + 1, count);
        forall x: nat ensures x in ts <==> ScanTakes(peaks, i, j, count, x) {
          if j < x < |peaks| {
            assert ZoneCount(peaks, i, j, x) == ZoneCount(peaks, i, j + 1, x);
          }
        }
      } else if delta > MaxDelta {
        forall x: nat ensures !ScanTakes(peaks, i, j, count, x) {
          if j <= x < |peaks| {
            SortedTimes(peaks, j, x);
          }
        }
      } else {
        var rest := if count + 1 >= FanOut then [] else TargetIndices(peaks, i, j + 1, count + 1);
        assert ts == [j] + rest;
        if count + 1 < FanOut {
          TargetIndicesComplete(peaks, i, j + 1, count + 1);
          TargetIndicesShape(peaks, i, j + 1, count + 1);
        }
        forall x: nat ensures x in ts <==> ScanTakes(peaks, i, j, count, x) {
          if j < x < |peaks| {
            assert ZoneCount(peaks, i, j, x) == 1 + ZoneCount(peaks, i, j + 1, x);
          }
        }
      }
    }
  }

  /**
    Peak x is taken by the scan from j on with `count` targets taken: it is
    at or after j, in anchor i's zone, and fewer than FanOut - count in-zone
    peaks lie between j and x.
   */
  predicate ScanTakes(peaks: seq<Peaks.Peak>, i: nat, j: nat, count: nat, x: nat)
    requires i < |peaks|
  {
    j <= x < |peaks| && InTargetZone(peaks[i], peaks[x]) && count + ZoneCount(peaks, i, j, x) < FanOut
  }

  lemma SortedTimes(peaks: seq<Peaks.Peak>, j: nat, x: nat)
    requires SortedByTime(peaks) && j <= x < |peaks|
    ensures peaks[j].time <= peaks[x].time
  {
    if j < x {
      var key := (p: Peaks.Peak) => p.time;
      assert key(peaks[j]) <= key(peaks[x]);
    }
  }

  /** The hashes anchor i contributes. */
  function Targets(gen: Hasher, peaks: seq<Peaks.Peak>, songId: Uuid, i: nat): seq<Hash>
    requires i < |peaks|
  {
    AnchorHashes(gen, peaks, songId, i, TargetIndices(peaks, i, i + 1, 0))
  }

  /** The hashes of anchors i, i+1, ..., one anchor after another. */
  function PairsFrom(gen: Hasher, peaks: seq<Peaks.Peak>, songId: Uuid, i: nat): seq<Hash>
    decreases |peaks| - i
  {
    if i >= |peaks| then [] else Targets(gen, peaks, songId, i) + PairsFrom(gen, peaks, songId, i + 1)
  }

  function Pairs(gen: Hasher, peaks: seq<Peaks.Peak>, songId: Uuid): seq<Hash> {
    PairsFrom(gen, peaks, songId, 0)
  }

  /** An anchor emits at most FanOut hashes, each pairing it with a later peak in its target zone. */
  lemma TargetsShape(gen: Hasher, peaks: seq<Peaks.Peak>, songId: Uuid, i: nat)
    requires i < |peaks|
    ensures |Targets(gen, peaks, songId, i)| <= FanOut
    ensures forall h :: h in Targets(gen, peaks, songId, i) ==>
      exists k :: i < k < |peaks| && InTargetZone(peaks[i], peaks[k]) && h == PairHash(gen, songId, peaks[i], peaks[k])
  {
    var ts := TargetIndices(peaks, i, i + 1, 0);
    TargetIndicesShape(peaks, i, i + 1, 0);
    var hs := Targets(gen, peaks, songId, i);
    forall h | h in hs
      ensures exists k :: i < k < |peaks| && InTargetZone(peaks[i], peaks[k]) && h == PairHash(gen, songId, peaks[i], peaks[k])
    {
      var m :| 0 <= m < |hs| && hs[m] == h;
      assert h == PairHash(gen, songId, peaks[i], peaks[ts[m]]);
    }
  }

  /**
    The hashes of anchors from i on: at most FanOut per anchor, and each one
    pairs an anchor a >= i with a later peak k in a's target zone, carrying
    the song ID and the anchor's time.
   */
  lemma {:induction false} PairsFromShape(gen: Hasher, peaks: seq<Peaks.Peak>, songId: Uuid, i: nat)
    requires i <= |peaks|
    ensures |PairsFrom(gen, peaks, songId, i)| <= FanOut * (|peaks| - i)
    ensures forall h :: h in PairsFrom(gen, peaks, songId, i) ==>
      exists a, k :: i <= a < k < |peaks| && InTargetZone(peaks[a], peaks[k]) && h == PairHash(gen, songId, peaks[a], peaks[k])
    decreases |peaks| - i
  {
    if i < |peaks| {
      TargetsShape(gen, peaks, songId, i);
      PairsFromShape(gen, peaks, songId, i + 1);
    }
  }

  /**
    `CreateHashes` emits at most FanOut hashes per peak; every hash pairs a
    peak with a later one 0.1 to 2.0 seconds after it (both ends included),
    carries the given song ID and the anchor's time.
   */
  lemma PairsShape(gen: Hasher, peaks: seq<Peaks.Peak>, songId: Uuid)
    ensures |Pairs(gen, peaks, songId)| <= FanOut * |peaks|
    ensures forall h :: h in Pairs(gen, peaks, songId) ==>
      h.songId == songId &&
      exists a, k :: 0 <= a < k < |peaks| && InTargetZone(peaks[a], peaks[k]) && h == PairHash(gen, songId, peaks[a], peaks[k])
  {
    PairsFromShape(gen, peaks, songId, 0);
  }

  /** Every hash of anchor a is among the hashes of the anchors from i on, for i <= a. */
  lemma {:induction false} PairsFromIncludes(gen: Hasher, peaks: seq<Peaks.Peak>, songId: Uuid, i: nat, a: nat)
    requires i <= a < |peaks|
    ensures forall h :: h in Targets(gen, peaks, songId, a) ==> h in PairsFrom(gen, peaks, songId, i)
    decreases a - i
  {
    if i < a {
      PairsFromIncludes(gen, peaks, songId, i + 1, a);
    }
  }

  /**
    Over peaks sorted by time, no pair is missed: a later peak k in anchor a's
    zone with fewer than FanOut in-zone peaks between them is paired with a.
   */
  lemma PairsComplete(gen: Hasher, peaks: seq<Peaks.Peak>, songId: Uuid, a: nat, k: nat)
    requires SortedByTime(peaks) && a < k < |peaks|
    requires InTargetZone(peaks[a], peaks[k]) && ZoneCount(peaks, a, a + 1, k) < FanOut
    ensures PairHash(gen, songId, peaks[a], peaks[k]) in Pairs(gen, peaks, songId)
  {
    var ts := TargetIndices(peaks, a, a + 1, 0);
    TargetIndicesComplete(peaks, a, a + 1, 0);
    assert ScanTakes(peaks, a, a + 1, 0, k);
    assert k in ts;
    var m :| 0 <= m < |ts| && ts[m] == k;
    assert Targets(gen, peaks, songId, a)[m] == PairHash(gen, songId, peaks[a], peaks[k]);
    PairsFromIncludes(gen, peaks, songId, 0, a);
  }

  /**
    The five peaks of the package's test: at 0.0 s, 0.05 s (too close to the
    first), 1.0 s, 1.5 s and 3.0 s (too far from the first two, exactly 2.0 s
    after the third). Anchors pair with {1.0, 1.5}, {1.0, 1.5}, {1.5, 3.0},
    {3.0} and nothing: seven hashes, the first one anchored at 0.0 s.
   */
  lemma TestPeaksGiveSevenHashes(gen: Hasher, songId: Uuid)
    ensures var peaks := [Peaks.Peak(1000.0, 0.0, 0.0, 0), Peaks.Peak(1000.0, 0.0, 0.05, 0), Peaks.Peak(1200.0, 0.0, 1.0, 0),
                          Peaks.Peak(1300.0, 0.0, 1.5, 0), Peaks.Peak(1400.0, 0.0, 3.0, 0)];
      var hs := Pairs(gen, peaks, songId);
      |hs| == 7 && hs[0].songId == songId && hs[0].timeOffset == 0.0
  {
  }

  /** Zero or one peak gives no hashes. */
  lemma FewPeaksNoPairs(gen: Hasher, peaks: seq<Peaks.Peak>, songId: Uuid)
    requires |peaks| <= 1
    ensures Pairs(gen, peaks, songId) == []
  {
    PairsFromShape(gen, peaks, songId, 0);
  }

  ghost predicate SortedByTime(peaks: seq<Peaks.Peak>) {
    Sorting.SortedBy(peaks, (p: Peaks.Peak) => p.time)
  }

  predicate OffsetsNondecreasing(hs: seq<Hash>) {
    forall p, q :: 0 <= p < q < |hs| ==> hs[p].timeOffset <= hs[q].timeOffset
  }

  /** Every hash of anchor i carries the song ID and anchor i's time. */
  lemma TargetsAnchorTime(gen: Hasher, peaks: seq<Peaks.Peak>, songId: Uuid, i: nat)
    requires i < |peaks|
    ensures forall h :: h in Targets(gen, peaks, songId, i) ==> h.songId == songId && h.timeOffset == peaks[i].time
  {
    var ts := TargetIndices(peaks, i, i + 1, 0);
    TargetIndicesShape(peaks, i, i + 1, 0);
    var hs := Targets(gen, peaks, songId, i);
    forall h | h in hs
      ensures h.songId == songId && h.timeOffset == peaks[i].time
    {
      var m :| 0 <= m < |hs| && hs[m] == h;
      assert h == PairHash(gen, songId, peaks[i], peaks[ts[m]]);
    }
  }

  /** Every hash of anchors from i on carries the song ID and the time of one of those anchors. */
  lemma {:induction false} PairsFromAnchorTimes(gen: Hasher, peaks: seq<Peaks.Peak>, songId: Uuid, i: nat)
    requires i <= |peaks|
    ensures forall h :: h in PairsFrom(gen, peaks, songId, i) ==>
      h.songId == songId && exists a :: i <= a < |peaks| && h.timeOffset == peaks[a].time
    decreases |peaks| - i
  {
    if i < |peaks| {
      TargetsAnchorTime(gen, peaks, songId, i);
      PairsFromAnchorTimes(gen, peaks, songId, i + 1);
    }
  }

  /** With the peaks sorted by time, the hashes' time offsets never decrease. */
  lemma {:induction false} PairsFromOrdered(gen: Hasher, peaks: seq<Peaks.Peak>, songId: Uuid, i: nat)
    requires i <= |peaks| && SortedByTime(peaks)
    ensures OffsetsNondecreasing(PairsFrom(gen, peaks, songId, i))
    decreases |peaks| - i
  {
    if i < |peaks| {
      var ts := Targets(gen, peaks, songId, i);
      var rest := PairsFrom(gen, peaks, songId, i + 1);
      TargetsAnchorTime(gen, peaks, songId, i);
      PairsFromOrdered(gen, peaks, songId, i + 1);
      PairsAfter(gen, peaks, songId, i);
      ConcatOrdered(ts, rest, peaks[i].time);
    }
  }

  /** Every hash of anchors after i carries a time no earlier than peak i's. */
  lemma PairsAfter(gen: Hasher, peaks: seq<Peaks.Peak>, songId: Uuid, i: nat)
    requires i < |peaks| && SortedByTime(peaks)
    ensures forall h :: h in PairsFrom(gen, peaks, songId, i + 1) ==> peaks[i].time <= h.timeOffset
  {
    PairsFromAnchorTimes(gen, peaks, songId, i + 1);
    forall h | h in PairsFrom(gen, peaks, songId, i + 1)
      ensures peaks[i].time <= h.timeOffset
    {
      var a :| i + 1 <= a < |peaks| && h.timeOffset == peaks[a].time;
      assert peaks[i].time <= peaks[a].time;
    }
  }

  lemma ConcatOrdered(ts: seq<Hash>, rest: seq<Hash>, t: real)
    requires forall h :: h in ts ==> h.timeOffset == t
    requires forall h :: h in rest ==> t <= h.timeOffset
    requires OffsetsNondecreasing(rest)
    ensures OffsetsNondecreasing(ts + rest)
  {
    var hs := ts + rest;
    forall p, q | 0 <= p < q < |hs|
      ensures hs[p].timeOffset <= hs[q].timeOffset
    {
      if q < |ts| {
        assert hs[p] in ts && hs[q] in ts;
      } else if p < |ts| {
        assert hs[p] in ts && hs[q] == rest[q - |ts|];
      } else {
        assert hs[p] == rest[p - |ts|] && hs[q] == rest[q - |ts|];
      }
    }
  }

  /** The pairing loops of `CreateHashes`, over peaks already sorted by time. */
  method PairPeaks(peaks: seq<Peaks.Peak>, songId: Uuid) returns (hashes: seq<Hash>)
    ensures hashes == Pairs(GenerateHash, peaks, songId)
  {
    hashes := [];
    var i := 0;
    while i < |peaks|
      invariant 0 <= i <= |peaks|
      invariant hashes + PairsFrom(GenerateHash, peaks, songId, i) == Pairs(GenerateHash, peaks, songId)
    {
      var anchorHashes := AnchorPairs(peaks, songId, i);
      assert PairsFrom(GenerateHash, peaks, songId, i) == anchorHashes + PairsFrom(GenerateHash, peaks, songId, i + 1);
      hashes := hashes + anchorHashes;
      i := i + 1;
    }
  }

  /** The inner loop of `CreateHashes`: the targets of anchor i, stopping at the fan-out or the zone's end. */
  method AnchorPairs(peaks: seq<Peaks.Peak>, songId: Uuid, i: nat) returns (hashes: seq<Hash>)
    requires i < |peaks|
    ensures hashes == Targets(GenerateHash, peaks, songId, i)
  {
    var anchor := peaks[i];
    hashes := [];
    ghost var taken: seq<nat> := [];
    var targetCount := 0;
    var j := i + 1;
    while j < |peaks|
      invariant i + 1 <= j <= |peaks|
      invariant 0 <= targetCount < FanOut
      invariant forall k :: 0 <= k < |taken| ==> taken[k] < j
      invariant TargetIndices(peaks, i, i + 1, 0) == taken + TargetIndices(peaks, i, j, targetCount)
      invariant hashes == AnchorHashes(GenerateHash, peaks, songId, i, taken)
    {
      var target := peaks[j];
      var timeDelta := target.time - anchor.time;
      if timeDelta < MinDelta {
        assert TargetIndices(peaks, i, j, targetCount) == TargetIndices(peaks, i, j + 1, targetCount);
        j := j + 1;
        continue;
      }
      if timeDelta > MaxDelta {
        assert TargetIndices(peaks, i, j, targetCount) == [];
        assert taken + [] == taken;
        break;
      }
      ghost var rest := if targetCount + 1 >= FanOut then [] else TargetIndices(peaks, i, j + 1, targetCount + 1);
      assert TargetIndices(peaks, i, j, targetCount) == [j] + rest;
      assert taken + ([j] + rest) == (taken + [j]) + rest;
      hashes := AppendPairHash(peaks, songId, i, j, taken, hashes);
      taken := taken + [j];
      targetCount := targetCount + 1;
      if targetCount >= FanOut {
        assert taken + [] == taken;
        break;
      }
      j := j + 1;
    }
    assert TargetIndices(peaks, i, i + 1, 0) == taken;
    assert Targets(GenerateHash, peaks, songId, i) == AnchorHashes(GenerateHash, peaks, songId, i, taken);
  }

  /** One pass of the inner loop that takes target j: its hash goes after those of the targets taken before. */
  method AppendPairHash(peaks: seq<Peaks.Peak>, songId: Uuid, i: nat, j: nat, ghost taken: seq<nat>, hashes: seq<Hash>)
    returns (more: seq<Hash>)
    requires i < |peaks| && j < |peaks| && forall k :: 0 <= k < |taken| ==> taken[k] < |peaks|
    requires hashes == AnchorHashes(GenerateHash, peaks, songId, i, taken)
    ensures more == AnchorHashes(GenerateHash, peaks, songId, i, taken + [j])
  {
    var h := PairHash(GenerateHash, songId, peaks[i], peaks[j]);
    AnchorHashesAppend(GenerateHash, peaks, songId, i, taken, j);
    more := hashes + [h];
  }

  /**
    `CreateHashes`: sorts the caller's peaks in place by time (a permutation)
    and returns the pairs of the sorted order.
   */
  method CreateHashes(peaks: array<Peaks.Peak>, songId: Uuid) returns (hashes: seq<Hash>)
    modifies peaks
    ensures SortedByTime(peaks[..]) && multiset(peaks[..]) == old(multiset(peaks[..]))
    ensures hashes == Pairs(GenerateHash, peaks[..], songId)
  {
    Sorting.SortBy(peaks, (p: Peaks.Peak) => p.time);
    hashes := PairPeaks(peaks[..], songId);
  }
}
