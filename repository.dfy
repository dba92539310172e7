/**
  The fingerprint table (server/internal/fingerprint/repository.go): a lookup
  of the rows whose hash is in a list, and a save that inserts the hashes in
  chunks of 1000 rows, each chunk one INSERT with numbered placeholders
  "($1, $2, $3), ($4, $5, $6), ..." and a flat list of values.

  The database is a class holding the table, the log of statements it was
  sent, and a script of outcomes: entry k says whether the k-th statement
  from now fails (Some(error)) or succeeds (None, also when the script has
  run out).
 */
module FingerprintRepository {
  import opened Base
  import opened Text
  import opened Hashing

  const ChunkSize: nat := 1000
  const InsertPrefix: string := "INSERT INTO fingerprints (hash, song_id, time_offset) VALUES "
  const SelectPrefix: string := "SELECT hash, song_id, time_offset FROM fingerprints WHERE hash IN "

  datatype SqlValue = IntValue(i: int) | UuidValue(u: Uuid) | RealValue(r: real)

  datatype Statement = Select(query: string, args: seq<int>) | Exec(query: string, values: seq<SqlValue>)

  /** The scripted outcome of the statement c positions from now. */
  function Outcome(q: seq<Option<string>>, c: nat): Option<string> {
    if c < |q| then q[c] else None
  }

  /** The script after c statements. */
  function Drop<T>(q: seq<T>, c: nat): (r: seq<T>)
    ensures c <= |q| ==> r == q[c..]
    ensures c > |q| ==> r == []
  {
    if c <= |q| then q[c..] else []
  }

  lemma DropOutcome(q: seq<Option<string>>, c: nat, j: nat)
    ensures Outcome(Drop(q, c), j) == Outcome(q, c + j)
  {
  }

  /** The rows whose hash is one of the values, in table order. */
  function Matching(rows: seq<Hash>, values: seq<int>): (r: seq<Hash>)
    ensures |r| <= |rows|
    ensures forall h :: h in r <==> h in rows && h.hashValue in values
  {
    if rows == [] then []
    else
      var last := rows[|rows| - 1];
      var r := Matching(rows[..|rows| - 1], values);
      assert rows == rows[..|rows| - 1] + [last];
      if last.hashValue in values then r + [last] else r
  }

  /** What the database stores for an INSERT's values: one row per (hash, song, offset) triple. */
  function DecodeRows(values: seq<SqlValue>): seq<Hash>
    decreases |values|
  {
    if |values| < 3 then []
    else
      match (values[0], values[1], values[2])
      case (IntValue(h), UuidValue(u), RealValue(t)) => [Hash(h, u, t)] + DecodeRows(values[3..])
      case _ => DecodeRows(values[3..])
  }

  class Database {
    /** The fingerprints table. */
    var rows: seq<Hash>
    /** Every statement sent, oldest first. */
    var log: seq<Statement>
    /** The outcomes of the statements still to come. */
    var outcomes: seq<Option<string>>

    constructor (rows: seq<Hash>, outcomes: seq<Option<string>>)
      ensures this.rows == rows && this.outcomes == outcomes && log == []
    {
      this.rows := rows;
      this.outcomes := outcomes;
      log := [];
    }

    /** A SELECT ... WHERE hash IN (...) with the given arguments. */
    method SelectContext(query: string, args: seq<int>) returns (r: Result<seq<Hash>, string>)
      modifies this
      ensures log == old(log) + [Select(query, args)]
      ensures outcomes == Drop(old(outcomes), 1) && rows == old(rows)
      ensures r == match Outcome(old(outcomes), 0)
                   case Some(e) => Err(e)
                   case None => Ok(Matching(rows, args))
    {
      log := log + [Select(query, args)];
      var outcome := Outcome(outcomes, 0);
      outcomes := Drop(outcomes, 1);
      match outcome
      case Some(e) => r := Err(e);
      case None => r := Ok(Matching(rows, args));
    }

    /** An INSERT: on success the decoded rows are appended to the table. */
    method ExecContext(query: string, values: seq<SqlValue>) returns (err: Option<string>)
      modifies this
      ensures log == old(log) + [Exec(query, values)]
      ensures outcomes == Drop(old(outcomes), 1)
      ensures err == Outcome(old(outcomes), 0)
      ensures rows == if err.None? then old(rows) + DecodeRows(values) else old(rows)
    {
      log := log + [Exec(query, values)];
      err := Outcome(outcomes, 0);
      outcomes := Drop(outcomes, 1);
      if err.None? {
        rows := rows + DecodeRows(values);
      }
    }
  }

  // ---------------------------------------------------------------------------
  // Lookup
  // ---------------------------------------------------------------------------

  /** "$1", "$2", ..., "$n" joined by ", ". */
  function Parameters(n: nat): string {
    Join(seq(n, k requires 0 <= k < n => "$" + NatToString(k + 1)), ", ")
  }

  /** The lookup query once sqlx.In has expanded the list and Rebind has numbered it. */
  function SelectQuery(n: nat): string {
    SelectPrefix + "(" + Parameters(n) + ")"
  }

  /**
    `FindHashesByValues`: an empty list answers nothing without asking the
    database; otherwise one SELECT with one numbered parameter per value.
   */
  method FindHashesByValues(db: Database, hashValues: seq<int>) returns (r: Result<seq<Hash>, string>)
    modifies db
    ensures hashValues == [] ==> r == Ok([]) && unchanged(db)
    ensures hashValues != [] ==>
      && db.log == old(db.log) + [Select(SelectQuery(|hashValues|), hashValues)]
      && db.outcomes == Drop(old(db.outcomes), 1) && db.rows == old(db.rows)
      && r == match Outcome(old(db.outcomes), 0)
              case Some(e) => Err(e)
              case None => Ok(Matching(db.rows, hashValues))
  {
    if |hashValues| == 0 {
      return Ok([]);
    }
    var query := SelectQuery(|hashValues|);
    r := db.SelectContext(query, hashValues);
  }

  // ---------------------------------------------------------------------------
  // One INSERT
  // ---------------------------------------------------------------------------

  /** Placeholder group k (0-based): "($3k+1, $3k+2, $3k+3)". */
  function Placeholder(k: nat): string {
    "($" + NatToString(3 * k + 1) + ", $" + NatToString(3 * k + 2) + ", $" + NatToString(3 * k + 3) + ")"
  }

  function Placeholders(n: nat): seq<string> {
    seq(n, k requires 0 <= k < n => Placeholder(k))
  }

  lemma PlaceholdersAppend(n: nat)
    ensures Placeholders(n + 1) == Placeholders(n) + [Placeholder(n)]
  {
  }

  function InsertQuery(chunk: seq<Hash>): string {
    InsertPrefix + Join(Placeholders(|chunk|), ", ")
  }

  /** The INSERT statement of one chunk. */
  function InsertOf(chunk: seq<Hash>): Statement {
    Exec(InsertQuery(chunk), ValuesOf(chunk))
  }

  /** The three values bound for one row. */
  function Triple(h: Hash): seq<SqlValue> {
    [IntValue(h.hashValue), UuidValue(h.songId), RealValue(h.timeOffset)]
  }

  /** The flat value list of a chunk: its rows' triples in order. */
  function ValuesOf(chunk: seq<Hash>): seq<SqlValue> {
    if chunk == [] then [] else Triple(chunk[0]) + ValuesOf(chunk[1..])
  }

  lemma {:induction false} ValuesOfAppend(chunk: seq<Hash>, h: Hash)
    ensures ValuesOf(chunk + [h]) == ValuesOf(chunk) + Triple(h)
  {
    if chunk == [] {
      assert [h][1..] == [];
    } else {
      assert (chunk + [h])[1..] == chunk[1..] + [h];
      ValuesOfAppend(chunk[1..], h);
    }
  }

  /**
    The value list has three entries per row, and placeholders $3k+1,
    $3k+2, $3k+3 bind row k's hash, song ID and time offset.
   */
  lemma {:induction false} ValuesLayout(chunk: seq<Hash>)
    ensures |ValuesOf(chunk)| == 3 * |chunk|
    ensures forall k :: 0 <= k < |chunk| ==>
      && ValuesOf(chunk)[3 * k] == IntValue(chunk[k].hashValue)
      && ValuesOf(chunk)[3 * k + 1] == UuidValue(chunk[k].songId)
      && ValuesOf(chunk)[3 * k + 2] == RealValue(chunk[k].timeOffset)
  {
    if chunk != [] {
      ValuesLayout(chunk[1..]);
      var vs := ValuesOf(chunk);
      forall k | 1 <= k < |chunk|
        ensures vs[3 * k] == IntValue(chunk[k].hashValue)
        ensures vs[3 * k + 1] == UuidValue(chunk[k].songId)
        ensures vs[3 * k + 2] == RealValue(chunk[k].timeOffset)
      {
        assert chunk[k] == chunk[1..][k - 1];
        assert vs[3 * k] == ValuesOf(chunk[1..])[3 * (k - 1)];
        assert vs[3 * k + 1] == ValuesOf(chunk[1..])[3 * (k - 1) + 1];
        assert vs[3 * k + 2] == ValuesOf(chunk[1..])[3 * (k - 1) + 2];
      }
    }
  }

  /** The database stores exactly the rows of the chunk: the value list decodes back to it. */
  lemma {:induction false} DecodeValues(chunk: seq<Hash>)
    ensures DecodeRows(ValuesOf(chunk)) == chunk
  {
    if chunk != [] {
      var vs := ValuesOf(chunk);
      assert vs[3..] == ValuesOf(chunk[1..]);
      DecodeValues(chunk[1..]);
    }
  }

  /** The statement `insertChunk` assembles: the placeholder groups and the values, row by row. */
  method BuildInsert(chunk: seq<Hash>) returns (query: string, values: seq<SqlValue>)
    ensures query == InsertQuery(chunk)
    ensures values == ValuesOf(chunk)
  {
    query := InsertPrefix;
    values := [];
    var placeholders: seq<string> := [];
    for i := 0 to |chunk|
      invariant placeholders == Placeholders(i)
      invariant values == ValuesOf(chunk[..i])
    {
      var h := chunk[i];
      var base := i * 3;
      var group := "($" + NatToString(base + 1) + ", $" + NatToString(base + 2) + ", $" + NatToString(base + 3) + ")";
      assert group == Placeholder(i);
      BuildStep(chunk, i);
      placeholders := placeholders + [group];
      values := values + [IntValue(h.hashValue), UuidValue(h.songId), RealValue(h.timeOffset)];
    }
    assert chunk[..|chunk|] == chunk;
    query := query + Join(placeholders, ", ");
  }

  /** One more row: one more placeholder group and one more triple. */
  lemma BuildStep(chunk: seq<Hash>, i: nat)
    requires i < |chunk|
    ensures Placeholders(i + 1) == Placeholders(i) + [Placeholder(i)]
    ensures ValuesOf(chunk[..i + 1]) == ValuesOf(chunk[..i]) + Triple(chunk[i])
  {
    PlaceholdersAppend(i);
    ValuesOfAppend(chunk[..i], chunk[i]);
    assert chunk[..i + 1] == chunk[..i] + [chunk[i]];
  }

  /** `insertChunk`: one INSERT; on success exactly the chunk's rows are added. */
  method InsertChunk(db: Database, chunk: seq<Hash>) returns (err: Option<string>)
    modifies db
    ensures db.log == old(db.log) + [InsertOf(chunk)]
    ensures db.outcomes == Drop(old(db.outcomes), 1)
    ensures err == Outcome(old(db.outcomes), 0)
    ensures db.rows == if err.None? then old(db.rows) + chunk else old(db.rows)
  {
    var query, values := BuildInsert(chunk);
    DecodeValues(chunk);
    err := db.ExecContext(query, values);
  }

  // ---------------------------------------------------------------------------
  // Chunking and the save loop
  // ---------------------------------------------------------------------------

  /** Consecutive slices of ChunkSize rows, the last one possibly shorter. */
  function Chunks(hashes: seq<Hash>): (cs: seq<seq<Hash>>)
    decreases |hashes|
  {
    if hashes == [] then []
    else if |hashes| <= ChunkSize then [hashes]
    else [hashes[..ChunkSize]] + Chunks(hashes[ChunkSize..])
  }

  function Flatten(cs: seq<seq<Hash>>): seq<Hash> {
    if cs == [] then [] else cs[0] + Flatten(cs[1..])
  }

  lemma {:induction false} FlattenAppend(cs: seq<seq<Hash>>, c: seq<Hash>)
    ensures Flatten(cs + [c]) == Flatten(cs) + c
  {
    if cs == [] {
      assert [c][1..] == [];
    } else {
      assert (cs + [c])[1..] == cs[1..] + [c];
      FlattenAppend(cs[1..], c);
    }
  }

  /**
    The chunks cover the hashes exactly once, in order; each holds between
    1 and ChunkSize rows, and only the last may hold fewer than ChunkSize.
   */
  lemma {:induction false} ChunksPartition(hashes: seq<Hash>)
    ensures Flatten(Chunks(hashes)) == hashes
    ensures forall k :: 0 <= k < |Chunks(hashes)| ==> 1 <= |Chunks(hashes)[k]| <= ChunkSize
    ensures forall k :: 0 <= k < |Chunks(hashes)| - 1 ==> |Chunks(hashes)[k]| == ChunkSize
    decreases |hashes|
  {
    if |hashes| > ChunkSize {
      ChunksPartition(hashes[ChunkSize..]);
      assert hashes == hashes[..ChunkSize] + hashes[ChunkSize..];
      var cs := Chunks(hashes);
      assert cs[1..] == Chunks(hashes[ChunkSize..]);
    } else if hashes != [] {
      assert Flatten([hashes]) == hashes + Flatten([]);
    }
  }

  /** The INSERT statements of a run of chunks. */
  function InsertsOf(cs: seq<seq<Hash>>): seq<Statement> {
    seq(|cs|, k requires 0 <= k < |cs| => InsertOf(cs[k]))
  }

  /** The index of the first of the next n statements that fails, or n. */
  function FirstFailure(q: seq<Option<string>>, n: nat): (k: nat)
    ensures k <= n
    ensures forall j :: 0 <= j < k ==> Outcome(q, j).None?
    ensures k < n ==> Outcome(q, k).Some?
  {
    FirstFailureFrom(q, 0, n)
  }

  function FirstFailureFrom(q: seq<Option<string>>, c: nat, n: nat): (k: nat)
    requires c <= n
    ensures c <= k <= n
    ensures forall j :: c <= j < k ==> Outcome(q, j).None?
    ensures k < n ==> Outcome(q, k).Some?
    decreases n - c
  {
    if c == n then n
    else if Outcome(q, c).Some? then c
    else FirstFailureFrom(q, c + 1, n)
  }

  /** FirstFailure is the only index with its two properties. */
  lemma FirstFailureUnique(q: seq<Option<string>>, n: nat, k: nat)
    requires k <= n
    requires forall j :: 0 <= j < k ==> Outcome(q, j).None?
    requires k < n ==> Outcome(q, k).Some?
    ensures FirstFailure(q, n) == k
  {
  }

  /** How many INSERTs a save of the chunks attempts: up to and including the first failure. */
  function Attempted(q: seq<Option<string>>, n: nat): nat {
    var k := FirstFailure(q, n);
    if k < n then k + 1 else n
  }

  /** What the database holds: the table, the statement log and the outcomes still to come. */
  datatype State = State(rows: seq<Hash>, log: seq<Statement>, outcomes: seq<Option<string>>)

  /** The hashes from position i on (none once i has passed the end). */
  function From(hashes: seq<Hash>, i: nat): seq<Hash> {
    if i < |hashes| then hashes[i..] else []
  }

  /**
    The save loop from state s over the hashes still to save: the next
    chunk (at most ChunkSize rows) goes in one INSERT; a failure ends the
    loop with its error, a success adds the chunk's rows and goes on.
   */
  function SaveFrom(s: State, rest: seq<Hash>): (State, Option<string>)
    decreases |rest|
  {
    if rest == [] then (s, None)
    else
      var n := if |rest| < ChunkSize then |rest| else ChunkSize;
      var chunk := rest[..n];
      var err := Outcome(s.outcomes, 0);
      var next := State(if err.None? then s.rows + chunk else s.rows, s.log + [InsertOf(chunk)], Drop(s.outcomes, 1));
      if err.Some? then (next, err) else SaveFrom(next, rest[n..])
  }

  /**
    The save in terms of the chunks: with k the first chunk whose INSERT
    fails (or the number of chunks), the INSERTs of chunks 0..k are sent
    (k excluded when none failed), the table gains the rows of the chunks
    before k, and the error is chunk k's.
   */
  function SaveByChunks(s: State, hashes: seq<Hash>): (State, Option<string>) {
    ByChunks(s, Chunks(hashes))
  }

  /** SaveByChunks for a given list of chunks. */
  function ByChunks(s: State, cs: seq<seq<Hash>>): (State, Option<string>) {
    var k := FirstFailure(s.outcomes, |cs|);
    var n := Attempted(s.outcomes, |cs|);
    (State(s.rows + Flatten(cs[..k]), s.log + InsertsOf(cs[..n]), Drop(s.outcomes, n)),
     if k < |cs| then Outcome(s.outcomes, k) else None)
  }

  /** The save loop does what SaveByChunks says, chunk by chunk. */
  lemma {:induction false} SaveFromChunks(s: State, hashes: seq<Hash>)
    ensures SaveFrom(s, hashes) == SaveByChunks(s, hashes)
    decreases |hashes|
  {
    if hashes == [] {
      SaveNothing(s);
    } else {
      var n := if |hashes| < ChunkSize then |hashes| else ChunkSize;
      var chunk, rest := hashes[..n], hashes[n..];
      FirstChunk(hashes);
      if Outcome(s.outcomes, 0).Some? {
        SaveFirstFails(s, hashes, chunk);
      } else {
        var next := State(s.rows + chunk, s.log + [InsertOf(chunk)], Drop(s.outcomes, 1));
        SaveFromChunks(next, rest);
        SaveFirstSucceeds(s, hashes, chunk, rest);
      }
    }
  }

  lemma SaveNothing(s: State)
    ensures SaveFrom(s, []) == SaveByChunks(s, [])
  {
    FirstFailureUnique(s.outcomes, 0, 0);
    assert Chunks([]) == [] && Chunks([])[..0] == [];
    assert Flatten([]) == [] && InsertsOf([]) == [];
    assert s.rows + [] == s.rows && s.log + [] == s.log && s.outcomes[0..] == s.outcomes;
  }

  /** The first chunk is the first ChunkSize hashes (all of them if fewer), the other chunks those of the rest. */
  lemma FirstChunk(hashes: seq<Hash>)
    requires hashes != []
    ensures var n := if |hashes| < ChunkSize then |hashes| else ChunkSize;
      Chunks(hashes) == [hashes[..n]] + Chunks(hashes[n..])
  {
    if |hashes| <= ChunkSize {
      assert hashes[..|hashes|] == hashes && hashes[|hashes|..] == [];
    }
  }

  lemma SaveFirstFails(s: State, hashes: seq<Hash>, chunk: seq<Hash>)
    requires hashes != [] && Outcome(s.outcomes, 0).Some?
    requires Chunks(hashes) != [] && Chunks(hashes)[0] == chunk
    requires chunk == hashes[..if |hashes| < ChunkSize then |hashes| else ChunkSize]
    ensures SaveFrom(s, hashes) == SaveByChunks(s, hashes)
  {
    var cs := Chunks(hashes);
    var q := s.outcomes;
    FirstFailureUnique(q, |cs|, 0);
    assert Attempted(q, |cs|) == 1;
    assert cs[..0] == [] && Flatten(cs[..0]) == [] && s.rows + Flatten(cs[..0]) == s.rows;
    assert cs[..1] == [chunk];
    assert InsertsOf(cs[..1]) == [InsertOf(chunk)];
    var next := State(s.rows, s.log + [InsertOf(chunk)], Drop(q, 1));
    assert SaveFrom(s, hashes) == (next, Outcome(q, 0));
    assert SaveByChunks(s, hashes) == (next, Outcome(q, 0));
  }

  lemma SaveFirstSucceeds(s: State, hashes: seq<Hash>, chunk: seq<Hash>, rest: seq<Hash>)
    requires hashes != [] && Outcome(s.outcomes, 0).None?
    requires var n := if |hashes| < ChunkSize then |hashes| else ChunkSize;
      chunk == hashes[..n] && rest == hashes[n..] && Chunks(hashes) == [chunk] + Chunks(rest)
    requires var next := State(s.rows + chunk, s.log + [InsertOf(chunk)], Drop(s.outcomes, 1));
      SaveFrom(next, rest) == SaveByChunks(next, rest)
    ensures SaveFrom(s, hashes) == SaveByChunks(s, hashes)
  {
    SaveFromFirst(s, hashes);
    ChunksShift(s, chunk, Chunks(hashes), Chunks(rest));
  }

  /** A first INSERT that succeeds adds its rows, and the loop goes on with the rest. */
  lemma SaveFromFirst(s: State, hashes: seq<Hash>)
    requires hashes != [] && Outcome(s.outcomes, 0).None?
    ensures var n := if |hashes| < ChunkSize then |hashes| else ChunkSize;
      SaveFrom(s, hashes) == SaveFrom(State(s.rows + hashes[..n], s.log + [InsertOf(hashes[..n])], Drop(s.outcomes, 1)), hashes[n..])
  {
  }

  /** After a first chunk that succeeds, SaveByChunks of all the chunks is SaveByChunks of the others from the next state. */
  lemma ChunksShift(s: State, chunk: seq<Hash>, cs: seq<seq<Hash>>, cr: seq<seq<Hash>>)
    requires Outcome(s.outcomes, 0).None? && cs == [chunk] + cr
    ensures var next := State(s.rows + chunk, s.log + [InsertOf(chunk)], Drop(s.outcomes, 1));
      ByChunks(s, cs) == ByChunks(next, cr)
  {
    var q := s.outcomes;
    var q1 := Drop(q, 1);
    assert cs[1..] == cr;
    ShiftedFailure(q, cs, chunk);
    var k1 := FirstFailure(q1, |cr|);
    var m1 := Attempted(q1, |cr|);
    AppendAssociates(s.rows, chunk, Flatten(cr[..k1]));
    AppendAssociates(s.log, [InsertOf(chunk)], InsertsOf(cr[..m1]));
  }

  lemma AppendAssociates<T>(a: seq<T>, b: seq<T>, c: seq<T>)
    ensures (a + b) + c == a + (b + c)
  {
  }

  /** Past a first chunk that succeeds, the save of the rest is the save of all the chunks shifted by one. */
  lemma ShiftedFailure(q: seq<Option<string>>, cs: seq<seq<Hash>>, chunk: seq<Hash>)
    requires cs != [] && cs[0] == chunk && Outcome(q, 0).None?
    ensures var k := FirstFailure(Drop(q, 1), |cs| - 1);
      && FirstFailure(q, |cs|) == k + 1
      && Attempted(q, |cs|) == Attempted(Drop(q, 1), |cs| - 1) + 1
      && Flatten(cs[..k + 1]) == chunk + Flatten(cs[1..][..k])
      && InsertsOf(cs[..Attempted(q, |cs|)]) == [InsertOf(chunk)] + InsertsOf(cs[1..][..Attempted(Drop(q, 1), |cs| - 1)])
      && Drop(Drop(q, 1), Attempted(Drop(q, 1), |cs| - 1)) == Drop(q, Attempted(q, |cs|))
      && (k < |cs| - 1 ==> Outcome(Drop(q, 1), k) == Outcome(q, k + 1))
  {
    var k := FirstFailure(Drop(q, 1), |cs| - 1);
    ShiftedFirstFailure(q, |cs|);
    var m := Attempted(Drop(q, 1), |cs| - 1);
    ConsPrefix(cs, k);
    ConsPrefix(cs, m);
    assert InsertsOf(cs[..m + 1]) == [InsertOf(chunk)] + InsertsOf(cs[1..][..m]);
  }

  /** The first failure among n statements after one success is one past the first failure among the other n - 1. */
  lemma ShiftedFirstFailure(q: seq<Option<string>>, n: nat)
    requires n > 0 && Outcome(q, 0).None?
    ensures var k := FirstFailure(Drop(q, 1), n - 1);
      && FirstFailure(q, n) == k + 1
      && (k < n - 1 ==> Outcome(Drop(q, 1), k) == Outcome(q, k + 1))
  {
    var k := FirstFailure(Drop(q, 1), n - 1);
    forall j | 0 <= j < k + 1 ensures Outcome(q, j).None? {
      if j > 0 {
        DropOutcome(q, 1, j - 1);
      }
    }
    if k < n - 1 {
      DropOutcome(q, 1, k);
    }
    FirstFailureUnique(q, n, k + 1);
  }

  /** The first k + 1 chunks are the first chunk followed by the first k of the others. */
  lemma ConsPrefix(cs: seq<seq<Hash>>, k: nat)
    requires k < |cs|
    ensures cs[..k + 1] == [cs[0]] + cs[1..][..k]
    ensures Flatten(cs[..k + 1]) == cs[0] + Flatten(cs[1..][..k])
  {
    assert cs[..k + 1] == [cs[0]] + cs[1..][..k];
    assert ([cs[0]] + cs[1..][..k])[1..] == cs[1..][..k];
  }

  /**
    `SaveFingerprints`: nothing at all for an empty list; otherwise one
    INSERT per chunk of at most ChunkSize rows, in order, stopping at the
    first that fails (see SaveFromChunks for the outcome chunk by chunk).
   */
  method SaveFingerprints(db: Database, hashes: seq<Hash>) returns (err: Option<string>)
    modifies db
    ensures hashes == [] ==> err.None? && unchanged(db)
    ensures (State(db.rows, db.log, db.outcomes), err) == SaveFrom(State(old(db.rows), old(db.log), old(db.outcomes)), hashes)
  {
    if |hashes| == 0 {
      return None;
    }
    ghost var start := State(db.rows, db.log, db.outcomes);
    var chunkSize := ChunkSize;
    var i := 0;
    while i < |hashes|
      invariant SaveFrom(start, hashes) == SaveFrom(State(db.rows, db.log, db.outcomes), From(hashes, i))
    {
      var end := i + chunkSize;
      if end > |hashes| {
        end := |hashes|;
      }
      var chunk := hashes[i..end];
      ghost var before := State(db.rows, db.log, db.outcomes);
      err := InsertChunk(db, chunk);
      SaveStep(hashes, i, before);
      if err.Some? {
        return;
      }
      i := i + chunkSize;
    }
    err := None;
  }

  /** One pass of the save loop is one step of SaveFrom. */
  lemma SaveStep(hashes: seq<Hash>, i: nat, s: State)
    requires i < |hashes|
    ensures var end := if i + ChunkSize > |hashes| then |hashes| else i + ChunkSize;
      var chunk := hashes[i..end];
      var err := Outcome(s.outcomes, 0);
      var next := State(if err.None? then s.rows + chunk else s.rows, s.log + [InsertOf(chunk)], Drop(s.outcomes, 1));
      SaveFrom(s, From(hashes, i)) == if err.Some? then (next, err) else SaveFrom(next, From(hashes, i + ChunkSize))
  {
    var rest := hashes[i..];
    var n := if |rest| < ChunkSize then |rest| else ChunkSize;
    assert rest[..n] == hashes[i..if i + ChunkSize > |hashes| then |hashes| else i + ChunkSize];
    assert rest[n..] == From(hashes, i + ChunkSize);
  }
}
