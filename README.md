# go-shazam, modelled in Dafny

go-shazam recognises songs from a few seconds of audio. The server, written
in Go, does four things:

- it cuts the samples into overlapping windows and takes their spectra;
- it picks one strong spectral peak per frequency band and window;
- it pairs each peak with the peaks that follow it and hashes every pair
  (FNV-1a over the text "f1:f2:dt");
- it stores those hashes in a `fingerprints` table.

To recognise a recording, it hashes the sample the same way and looks up the
stored hashes with the same values. Each match votes for a (song, time-offset
bin). The best bin wins if its count reaches a threshold. Samples arrive over
a WebSocket as little-endian float32 frames. The server also has account
endpoints: register, login, refresh, logout and "me", secured by JWTs
(JSON Web Tokens) and a refresh-token cookie. The web client keeps the
session in a composable. It holds the access token, the user, loading and
error flags, and one timer that refreshes the token ahead of expiry.

The model has one Dafny module per source file:

| module | file | models |
|---|---|---|
| `Session` | session.dfy | client/src/composables/useAuth.ts |
| `Audio` | audio.dfy | server/internal/audio/processor.go (framing) |
| `Peaks` | peaks.dfy | server/internal/fingerprint/peaks.go |
| `Hashing` | hashing.dfy | server/internal/fingerprint/hashing.go |
| `FingerprintRepository` | repository.dfy | server/internal/fingerprint/repository.go |
| `FingerprintService` | fingerprintservice.dfy | server/internal/fingerprint/service.go |
| `Recognition` | recognition.dfy | server/internal/recognition/service.go |
| `RecognitionHandler` | recognitionhandler.dfy | server/internal/recognition/handler.go |
| `Spotify` | spotify.dfy | server/internal/spotify/service.go (link parsing) |
| `YouTube` | youtube.dfy | server/internal/youtube/downloader.go (duration parsing) |
| `Auth` | middleware.dfy | server/internal/auth/middleware.go |
| `Users` | users.dfy | server/internal/user/service.go (over user/repository.go) |
| `UserHandler` | userhandler.dfy | server/internal/user/handler.go |
| `Base`, `Text`, `Sorting` | base.dfy, text.dfy, sorting.dfy | shared types; Go's `strings`/`strconv` helpers; `sort.Slice`/`sort.Float64s` |

The model takes each file in the form the file has.

**The session composable.** Its module-level cells become the fields of the
class `Session.SessionManager`. Each async function becomes a method. `fetch`
is played by a `Network` object that holds one scripted queue of replies per
endpoint and logs every request sent. An empty queue stands for a network
failure. The runtime's timers are a `pending` field: the timers armed and
neither fired nor cancelled. `TimerFires` plays the callback of the pending
refresh timer.

**The loops.** The server's loops that build slices are methods with loop
invariants, and each is proved equal to a specification function:
- windowing, band scanning and local maxima;
- pairing, vote counting and the chunked insert.

`CreateHashes` sorts an `array` in place, as `sort.Slice` does.

**The database and the services' dependencies.** The database is the class
`FingerprintRepository.Database`:
- its `rows` field is the table;
- its `log` field is the statements sent;
- its `outcomes` queue scripts the error or success of each statement.

The FFT, the Hamming window, `cmplx.Abs`, `Resample`, `Float32frombits`, the
JWT and crypto services, and the song lookup are function parameters
(oracles), so every property holds whatever they compute.

**The handlers.** They are pure functions from the request's inputs and the
services' outcomes to a status, a body and a cookie. The WebSocket handler is
a state machine (`Step`/`Run`) over the buffer and the sample rate. Its loop,
`HandleWebSocket`, is proved to send exactly the replies `Run` computes.

Two behaviours of the code are easy to miss:

- A resampling error in the WebSocket handler leaves the buffer EMPTY. Line
  72 of server/internal/recognition/handler.go assigns `Resample`'s result to
  `audioData` before testing the error, and `Resample` returns `nil` on every
  error path. So a later "stop" answers "no audio data received".
- `fetchUser` retries after a 401 for as long as every refresh succeeds
  (client/src/composables/useAuth.ts:149-154); there is no bound of one
  retry. `FetchUser` recurses as the code does, and it terminates because
  each attempt consumes a scripted reply.

## Model

| member | source | states |
|---|---|---|
| Session.Request | client/src/composables/useAuth.ts:62-86 | no error exactly when the reply is a 2xx with a parsable body; data only for a 2xx JSON object; a non-2xx reply with a non-null body carries its status and the body's non-empty `error` field, otherwise "Request failed with status N"; a non-2xx `null` body and an unparsable 2xx body give status 0 and the network-error message, as does an unreachable server; a 2xx `null` body gives neither data nor error with the reply's status |
| Session.RefreshDelay | client/src/composables/useAuth.ts:91-92 | the delay is 60 s before expiry but never below 10 s: it is at least 10000 ms, at least (expiresIn-60)*1000, and equal to one of the two |
| Session.RefreshDelayExamples | client/src/composables/useAuth.ts:91-92 | 120 s gives 60000 ms; 30 s and 70 s give the 10000 ms floor |
| Session.Cancel | client/src/composables/useAuth.ts:99-104 | `clearTimeout` removes exactly the timers with that handle and keeps every other pending timer |
| Session.SessionManager.constructor | client/src/composables/useAuth.ts:42-48 | the page-load state: no token, user, error, expiry or timer, and not loading |
| Session.SessionManager.IsAuthenticated | client/src/composables/useAuth.ts:54-56 | authenticated exactly when a token and a user are both present; never when anonymous |
| Session.SessionManager.GetAccessToken | client/src/composables/useAuth.ts:224-226 | an authenticated session always yields a token, an anonymous one none |
| Session.SessionManager.ClearRefreshTimer | client/src/composables/useAuth.ts:99-104 | afterwards no refresh timer is pending or remembered, and no other state changes |
| Session.SessionManager.ScheduleTokenRefresh | client/src/composables/useAuth.ts:88-97 | the old timer is cancelled and exactly one new timer is pending, with delay `RefreshDelay(expiresIn)` and a fresh handle the session remembers; at most one timer is ever pending |
| Session.SessionManager.SetAuthTokens | client/src/composables/useAuth.ts:106-110 | stores the token, sets expiry to now + expiresIn*1000 and leaves exactly one refresh timer pending for that lifetime; user, loading and error are unchanged |
| Session.SessionManager.ClearAuthState | client/src/composables/useAuth.ts:112-118 | afterwards the session is anonymous (no token, expiry, user, error or pending timer); loading is unchanged |
| Session.SessionManager.RefreshTokens | client/src/composables/useAuth.ts:124-136 | sends one POST to the refresh endpoint; succeeds exactly when the reply has data and no error; on success stores the new token, expiry and a single timer; on failure the session is anonymous |
| Session.SessionManager.FetchUser | client/src/composables/useAuth.ts:138-165 | without a token it sends nothing and changes nothing; otherwise it first sends GET /me with "Bearer <token>"; a non-401 reply stores the user on success and changes nothing else on failure; a 401 whose refresh fails leaves the session anonymous; a returned user is the stored user and a token is present |
| Session.SessionManager.SignIn | client/src/composables/useAuth.ts:167-209 | the shared body of register and login: sends the credentials first; true exactly when the reply has data; on failure the error is the request's error and token, user, expiry and timer are unchanged; on success no error, and (SignedIn) the token, its expiry and one refresh timer are installed unless /me answers 401, a good /me answer stores its user and authenticates the session, a failed one keeps the previous user, and a 401 whose refresh fails leaves the session anonymous; loading ends false |
| Session.SessionManager.Register | client/src/composables/useAuth.ts:167-187 | true exactly when the register reply has data; on failure `error` holds its message and token, user, expiry and timer are unchanged; on success no error and the SignedIn outcome (token installed, user from /me, authenticated when /me succeeds); never left loading |
| Session.SessionManager.Login | client/src/composables/useAuth.ts:189-209 | the same as Register against the login endpoint, success outcome included |
| Session.SessionManager.Logout | client/src/composables/useAuth.ts:211-214 | sends one POST to the logout endpoint and ends anonymous whatever the reply |
| Session.SessionManager.Initialize | client/src/composables/useAuth.ts:216-222 | a failed refresh leaves the session anonymous without asking for the user; a successful one ends with a token or anonymous |
| Session.SessionManager.TimerFires | client/src/composables/useAuth.ts:94-96 | with no timer pending nothing at all changes; a pending refresh timer firing sends exactly one refresh request; on success the new token, its expiry and a single new pending timer are installed with user and error kept; on failure the session is anonymous |
| Audio.FragmentCountIsExact | server/internal/audio/processor.go:131-140 | windows start every 1024 samples while a full 2048-sample window fits: every counted window fits, and one more would not |
| Audio.ProcessAudio | server/internal/audio/processor.go:130-165 | never fails; makes `FragmentCount(len)` fragments, and fragment k is the FFT of window k times the Hamming window, its magnitudes, and offset k*1024/rate |
| Audio.WindowAt | server/internal/audio/processor.go:141-147 | the windowed chunk is sample[start+j]*win[j] for each of the 2048 positions |
| Audio.MagnitudesOf | server/internal/audio/processor.go:151-154 | one magnitude per spectrum bin, the absolute value of that bin |
| Audio.CountFromLastWindow | server/internal/audio/processor.go:140 | the loop's final window count equals FragmentCount |
| Audio.TimeOffsetsIncrease | server/internal/audio/processor.go:158 | fragments' time offsets strictly increase with their index (positive rate) |
| Peaks.BandsTile | server/internal/fingerprint/peaks.go:10-18 | the four bands are non-empty, adjacent, and cover 80 Hz up to 5600 Hz |
| Peaks.BandFrom | server/internal/fingerprint/peaks.go:153-160 | the scan from band i finds a band containing f, or -1 exactly when no band from i on contains it |
| Peaks.BandIndexOfIsTheBand | server/internal/fingerprint/peaks.go:153-160 | a band is found exactly for 80 <= f < 5600, and it is the only band containing f |
| Peaks.GetBandIndex | server/internal/fingerprint/peaks.go:153-160 | the loop returns BandIndexOf(f) |
| Peaks.Min | server/internal/fingerprint/peaks.go:162-167 | the result is at most both arguments and is one of them |
| Peaks.BandCandidates | server/internal/fingerprint/peaks.go:39-56 | each candidate of band b is a scanned bin whose frequency lies in band b, carrying that bin's magnitude |
| Peaks.GatherCandidates | server/internal/fingerprint/peaks.go:37-56 | after scanning up to the Nyquist bin (1024), each band's list is exactly BandCandidates over the scanned bins, in bin order |
| Peaks.ScanBin | server/internal/fingerprint/peaks.go:45-55 | one iteration appends bin i to the list of its band and to no other |
| Peaks.MadThreshold | server/internal/fingerprint/peaks.go:94-123 | the threshold median + 3*MAD is at least 1.0, is 1.0 for no candidates, and is at least the upper median |
| Peaks.MedianOfNonNegative | server/internal/fingerprint/peaks.go:109-114 | the median of absolute deviations is non-negative |
| Peaks.CalculateMadThreshold | server/internal/fingerprint/peaks.go:94-123 | the method computes MadThreshold of the candidates' magnitudes |
| Peaks.UpperMedianOf | server/internal/fingerprint/peaks.go:104-107 | sorting and taking element len/2 gives the upper median of the original values |
| Peaks.MagnitudesOf | server/internal/fingerprint/peaks.go:99-102 | the array holds the candidates' magnitudes in order |
| Peaks.CopyOf | server/internal/fingerprint/peaks.go:104-105 | a fresh array with the same contents |
| Peaks.AbsoluteDeviations | server/internal/fingerprint/peaks.go:109-112 | a fresh array holding abs(m - median) for each magnitude |
| Peaks.LocalMaxima | server/internal/fingerprint/peaks.go:126-151 | a candidate is kept if and only if it reaches the threshold and is strictly above both neighbouring bins that exist |
| Peaks.FindLocalMaxima | server/internal/fingerprint/peaks.go:126-151 | the loop returns LocalMaxima, in candidate order |
| Peaks.ActiveBands | server/internal/fingerprint/peaks.go:59-71 | exactly the bands with local maxima, in increasing order |
| Peaks.StrongestPeak | server/internal/fingerprint/peaks.go:73-86 | one peak, tagged with the band and fragment time, equal to one of the maxima and at least as strong as every other (any of several equal maxima, as `sort.Slice` is not stable) |
| Peaks.BandMaximaOf | server/internal/fingerprint/peaks.go:60-71 | a band's local maxima against its MAD threshold; none for an empty band |
| Peaks.FragmentPeaksOf | server/internal/fingerprint/peaks.go:58-87 | one peak per band with local maxima, in band order, each that band's strongest |
| Peaks.ExtractPeaks | server/internal/fingerprint/peaks.go:32-91 | the output is the fragments' peaks one fragment after another (PeaksFor), with bin size rate/2048 |
| Peaks.PeaksForBounds | server/internal/fingerprint/peaks.go:32-91 | at most 4 peaks per fragment; each has a band index 0..3 and the time of some fragment |
| Hashing.FnvFoldAppend | server/internal/fingerprint/hashing.go:69-71 | FNV-1a over a concatenation is the fold over the second part from the hash of the first |
| Hashing.FnvKnownAnswers | server/internal/fingerprint/hashing.go:69-71 | the published FNV-1a 32-bit values: "" gives 0x811c9dc5 and "a" gives 0xe40c292c |
| Hashing.Trunc | server/internal/fingerprint/hashing.go:62-64 | Go's `int(x)` truncates toward zero, for both signs |
| Hashing.HashKeyIsAscii | server/internal/fingerprint/hashing.go:67 | the key text is ASCII, so its bytes are its characters |
| Hashing.HashKeyInjective | server/internal/fingerprint/hashing.go:67 | distinct (f1, f2, dt) triples give distinct keys |
| Hashing.SplitHashKey | server/internal/fingerprint/hashing.go:67 | splitting the key at ':' gives back the three decimal numbers |
| Hashing.SameQuantisationSameHash | server/internal/fingerprint/hashing.go:55-72 | inputs with the same truncated frequencies and the same truncated dt*100 hash alike |
| Hashing.TargetIndicesShape | server/internal/fingerprint/hashing.go:28-48 | at most FanOut targets per anchor, increasing, after the anchor, each 0.1 to 2.0 s later |
| Hashing.TargetsShape | server/internal/fingerprint/hashing.go:28-48 | each hash of an anchor is the pair hash of that anchor with a later peak in its target zone; at most 5 |
| Hashing.PairsShape | server/internal/fingerprint/hashing.go:24-50 | at most 5 hashes per peak; every hash carries the song ID and pairs an earlier peak with a later one in its target zone |
| Hashing.TargetIndicesComplete | server/internal/fingerprint/hashing.go:28-48 | over peaks sorted by time, a peak is a target of the anchor exactly when it comes later, lies 0.1 to 2.0 s after the anchor and fewer than 5 in-zone peaks lie between them: the skip of too-close peaks and the break at the first too-far one lose no target |
| Hashing.PairsComplete | server/internal/fingerprint/hashing.go:24-50 | over peaks sorted by time, every pair of an anchor with a later in-zone peak that has fewer than 5 in-zone peaks before it yields a hash |
| Hashing.TestPeaksGiveSevenHashes | server/internal/fingerprint/hashing_test.go:23-64 | the five test peaks (0.0, 0.05, 1.0, 1.5, 3.0 s) give seven hashes, a delta of exactly 2.0 s included, and the first carries the song ID and offset 0.0 |
| Hashing.FewPeaksNoPairs | server/internal/fingerprint/hashing.go:24-50 | fewer than two peaks give no hashes |
| Hashing.TargetsAnchorTime | server/internal/fingerprint/hashing.go:39-43 | every hash of an anchor carries the anchor's time and the song ID |
| Hashing.PairsFromOrdered | server/internal/fingerprint/hashing.go:20-50 | peaks sorted by time give hashes whose offsets never decrease |
| Hashing.PairPeaks | server/internal/fingerprint/hashing.go:24-50 | the anchor loop yields exactly Pairs of the peaks |
| Hashing.AnchorPairs | server/internal/fingerprint/hashing.go:27-49 | the inner loop yields exactly the anchor's Targets: skip under 0.1 s, stop past 2.0 s or after 5 |
| Hashing.CreateHashes | server/internal/fingerprint/hashing.go:17-53 | sorts the peaks by time in place (a permutation) and returns the Pairs of the sorted peaks |
| Sorting.SortBy | server/internal/fingerprint/hashing.go:20-22 | the array ends sorted by the key and is a permutation of what it held |
| Sorting.SortReals | server/internal/fingerprint/peaks.go:106 | `sort.Float64s`: sorted and a permutation |
| Sorting.SortedOf | server/internal/fingerprint/peaks.go:104-107 | the reference sort: sorted and a permutation of its input |
| Sorting.SortedUnique | server/internal/fingerprint/peaks.go:104-107 | two sorted permutations of the same values are equal, so the median does not depend on the sort |
| Sorting.SortedIsSortedOf | server/internal/fingerprint/peaks.go:104-107 | any sorted permutation is SortedOf of the values |
| FingerprintRepository.Matching | server/internal/fingerprint/repository.go:25-33 | the SELECT returns exactly the stored rows whose value is among the values asked for |
| FingerprintRepository.FindHashesByValues | server/internal/fingerprint/repository.go:20-38 | no values: no query and an empty result; otherwise one SELECT with $1..$n, whose scripted error is returned or whose matching rows are |
| FingerprintRepository.PlaceholdersAppend | server/internal/fingerprint/repository.go:67-71 | row i's placeholder group is appended after those of rows 0..i-1 |
| FingerprintRepository.ValuesLayout | server/internal/fingerprint/repository.go:67-71 | the argument list has 3n values: hash, song ID and offset of row k at positions 3k, 3k+1 and 3k+2 |
| FingerprintRepository.DecodeValues | server/internal/fingerprint/repository.go:62-77 | reading the arguments back three at a time gives exactly the chunk: the INSERT stores what was passed |
| FingerprintRepository.BuildInsert | server/internal/fingerprint/repository.go:63-73 | the loop builds the query "INSERT ... VALUES ($1, $2, $3), ..." and the value list for the chunk |
| FingerprintRepository.InsertChunk | server/internal/fingerprint/repository.go:62-77 | one INSERT is sent; the scripted error is returned; on success the chunk's rows are appended to the table |
| FingerprintRepository.ChunksPartition | server/internal/fingerprint/repository.go:46-53 | the chunks cover the hashes exactly once, in order, each holding 1 to 1000 hashes and only the last shorter |
| FingerprintRepository.FirstFailure | server/internal/fingerprint/repository.go:54-56 | the first chunk whose INSERT fails, or the chunk count when none fails |
| FingerprintRepository.FirstFailureUnique | server/internal/fingerprint/repository.go:54-56 | any position with no failure before it and a failure at it (or the end) is FirstFailure |
| FingerprintRepository.SaveFromChunks | server/internal/fingerprint/repository.go:40-60 | the save loop equals the chunk-level account: INSERTs up to and including the first failing chunk, rows of the chunks before it, and that chunk's error |
| FingerprintRepository.SaveNothing | server/internal/fingerprint/repository.go:41-43 | saving no hashes sends nothing and succeeds |
| FingerprintRepository.SaveFingerprints | server/internal/fingerprint/repository.go:40-60 | no hashes: database untouched and no error; otherwise the database and error are those of SaveFrom (and so SaveByChunks) |
| FingerprintService.CreateFingerprints | server/internal/fingerprint/service.go:20-23 | the hashes are the Pairs of a time-sorted arrangement of the extracted peaks; at most 5*4 per fragment; all carry the song ID |
| FingerprintService.HashValuesOf | server/internal/fingerprint/service.go:32-35 | one value per sample hash, in order |
| FingerprintService.GetMatchingHashes | server/internal/fingerprint/service.go:31-37 | no sample: no query and none found; otherwise the lookup's outcome, and a found row is a stored row sharing its value with some sample hash, and every such row is found |
| FingerprintService.SaveFingerprints | server/internal/fingerprint/service.go:26-28 | the save is the repository's save of the same hashes |
| Recognition.Round | server/internal/recognition/service.go:83-85 | `math.Round`: nearest integer, halves away from zero |
| Recognition.Max | server/internal/recognition/service.go:132-137 | at least both arguments and one of them |
| Recognition.ThresholdBounds | server/internal/recognition/service.go:108-112 | the threshold is at least 5; above it, it is floor(n*0.015); below 400 sample hashes it is 5 |
| Recognition.OffsetsFor | server/internal/recognition/service.go:64-67 | the offsets listed for a value are exactly those of the sample hashes with that value |
| Recognition.OffsetMapKeys | server/internal/recognition/service.go:64-67 | a value is a key of the offset map exactly when some sample hash has it |
| Recognition.BuildOffsetMap | server/internal/recognition/service.go:64-67 | the loop builds, for every value, the sample offsets in sample order |
| Recognition.VotesArePairs | server/internal/recognition/service.go:76-92 | a vote is cast exactly for each stored hash and sample hash with equal values, in the bin Round((dbOffset-sampleOffset)*20) of the stored hash's song |
| Recognition.TallyCounts | server/internal/recognition/service.go:87-92 | the scores map holds, for every (song, bin), the number of votes for it |
| Recognition.TallyBest | server/internal/recognition/service.go:87-98 | the best score is the largest count of any (song, bin), zero only without votes; its song and offset are those of the first vote to reach it |
| Recognition.CountIsPairCount | server/internal/recognition/service.go:76-92 | a (song, bin)'s count is the number of equal-valued (stored, sample) pairs that fall in it |
| Recognition.ScoreVotes | server/internal/recognition/service.go:76-100 | the nested loops end with the best of the tally of all votes |
| Recognition.CastVote | server/internal/recognition/service.go:87-98 | one vote: the count of its key goes up by one and the best is replaced only on a strictly larger count |
| Recognition.CastVotes | server/internal/recognition/service.go:77-99 | the inner loop tallies the stored hash's votes against every sample offset of its value |
| Recognition.DecideErrors | server/internal/recognition/service.go:48-57 | an empty sample and a failed lookup are errors with their messages; any error comes from those or from the song lookup |
| Recognition.NoMatch | server/internal/recognition/service.go:59-62 | no match exactly when nothing was found or the best count is below the threshold |
| Recognition.MatchIsBest | server/internal/recognition/service.go:94-129 | a match's score reaches the threshold (at least 5) and no (song, bin) has more pairs; song and offset are those of the first vote to reach it |
| Recognition.IdentifySong | server/internal/recognition/service.go:44-130 | fingerprints the fragments with the nil song ID, leaves the table unchanged, and answers Decide for the lookup's outcome |
| RecognitionHandler.Le32RoundTrip | server/internal/recognition/handler.go:110 | encoding a word little-endian and reading it back gives the word |
| RecognitionHandler.Le32Unique | server/internal/recognition/handler.go:110 | four bytes are the encoding of the word read from them |
| RecognitionHandler.BytesToFloats | server/internal/recognition/handler.go:107-114 | len/4 floats, float i being the converted little-endian word of bytes 4i..4i+3; a trailing partial word is dropped |
| RecognitionHandler.FloatsAppend | server/internal/recognition/handler.go:48-51 | frames of whole words decode independently, so appending frames appends their floats |
| RecognitionHandler.FloatsOfWords | server/internal/recognition/handler.go:107-114 | the encoded words decode to exactly their floats |
| RecognitionHandler.Fragments | server/internal/recognition/handler.go:79 | the fragments of the buffer, counted by FragmentCount |
| RecognitionHandler.AnalyzeBuffer | server/internal/recognition/handler.go:63-102 | the stop/analyze branch sends exactly one reply and leaves the state Analyze says |
| RecognitionHandler.HandleWebSocket | server/internal/recognition/handler.go:32-105 | the loop sends exactly the replies of Run from the initial state (empty buffer, 44100 Hz) |
| RecognitionHandler.RunStep | server/internal/recognition/handler.go:42-104 | each message extends the run by one Step |
| RecognitionHandler.BinaryAppends | server/internal/recognition/handler.go:48-51 | a binary frame appends len/4 samples, keeps the rate and sends nothing |
| RecognitionHandler.StartWithRate | server/internal/recognition/handler.go:54-62 | "start:<digits>" empties the buffer and sets that rate |
| RecognitionHandler.StartKeepsRate | server/internal/recognition/handler.go:54-62 | a "start" message without a parsable rate empties the buffer and keeps the rate |
| RecognitionHandler.StopOnEmptyBuffer | server/internal/recognition/handler.go:63-67 | stop or analyze on an empty buffer replies "no audio data received" and changes nothing |
| RecognitionHandler.AnalyzeOutcome | server/internal/recognition/handler.go:63-102 | one reply; the buffer ends empty and the rate unchanged; an empty buffer answers "no audio data received"; at the target rate the reply is the service's answer for the buffer as it is, at another rate for the resampled buffer; a resampling error is replied with its message |
| RecognitionHandler.OtherTextIgnored | server/internal/recognition/handler.go:52-63 | any other text message changes nothing and is not answered |
| RecognitionHandler.OneReplyPerAnalyze | server/internal/recognition/handler.go:42-104 | the handler replies once per stop/analyze message and never otherwise |
| Spotify.BeforeQuery | server/internal/spotify/service.go:88-90 | the ID is the segment up to its first '?': a prefix without '?' |
| Spotify.ExtractIdFromLink | server/internal/spotify/service.go:74-96 | errors are a parse error, the unsupported-host error or the track-not-found error |
| Spotify.TrackIdFromIsFirst | server/internal/spotify/service.go:84-95 | the ID comes from the segment after the FIRST "track" segment that has a successor; none exactly when no such segment exists |
| Spotify.HostDecides | server/internal/spotify/service.go:80-82 | the unsupported-host error occurs exactly when the host is not one of the four Spotify hosts |
| Spotify.TrackPathRoundTrip | server/internal/spotify/service.go:84-92 | "/track/<id>" on a valid host yields the id |
| Spotify.QueryIsDropped | server/internal/spotify/service.go:88-90 | "/track/<id>?<query>" yields the id without the query |
| Spotify.EmptyTrackSegment | server/internal/spotify/service.go:86-91 | "/track/" yields the empty ID without error |
| Spotify.HostExamples | server/internal/spotify/service.go:98-106 | the four listed hosts are valid; others are not |
| Spotify.AlbumLinkHasNoTrack | server/internal/spotify/service.go:95 | an album link gives "track ID not found" |
| YouTube.ParseDuration | server/internal/youtube/downloader.go:154-171 | an error exactly when the text does not have two or three ':'-separated parts, with the message naming the text |
| YouTube.ParseHoursMinutesSeconds | server/internal/youtube/downloader.go:161-164 | "h:m:s" of digits gives h*3600 + m*60 + s |
| YouTube.ParseMinutesSeconds | server/internal/youtube/downloader.go:165-168 | "m:s" of digits gives m*60 + s |
| YouTube.DigitsGiveNonNegative | server/internal/youtube/downloader.go:154-171 | all-digit parts give a non-negative duration |
| YouTube.NonNumericPartIsZero | server/internal/youtube/downloader.go:162-167 | an unparsable part counts as 0, since the Atoi error is discarded |
| YouTube.MalformedExamples | server/internal/youtube/downloader.go:156-158 | an empty text and four parts are rejected |
| Text.JoinSplit | server/internal/fingerprint/hashing.go:67 | joining the pieces of a split with the separator restores the text |
| Text.SplitJoin | server/internal/fingerprint/hashing.go:67 | splitting a join of separator-free pieces gives the pieces back |
| Text.TrimPrefix | server/internal/auth/middleware.go:34 | prefix + result is the header |
| Text.NatToString | server/internal/fingerprint/hashing.go:67 | decimal digits with no leading zero |
| Text.DigitsValueOfNatToString | server/internal/fingerprint/hashing.go:67 | the decimal text of n reads back as n |
| Text.Atoi | server/internal/recognition/handler.go:59 | only a non-empty text can parse; a text of digits parses to its value |
| Text.AtoiIntToString | server/internal/recognition/handler.go:59 | `strconv.Atoi` reads back every integer `%d` prints, negatives included |
| Text.IntToStringInjective | server/internal/fingerprint/hashing.go:67 | distinct integers print differently |
| Auth.BearerToken | server/internal/auth/middleware.go:29-34 | a token exactly when the header starts with "Bearer ", and prefix + token is the header |
| Auth.AuthMiddleware | server/internal/auth/middleware.go:21-54 | every abort is 401; an empty header gets "authorization header required"; continuing always sets a user ID |
| Auth.OptionalAuthMiddleware | server/internal/auth/middleware.go:57-83 | the optional middleware always continues |
| Auth.BearerTokenRoundTrip | server/internal/auth/middleware.go:29-34 | "Bearer " + t yields t |
| Auth.SchemeIsCaseSensitive | server/internal/auth/middleware.go:29 | "bearer " (lower case) is rejected |
| Auth.AuthContinuesIffValid | server/internal/auth/middleware.go:21-54 | the request continues exactly when a bearer token is present and validates, carrying its user ID |
| Auth.AuthAbortMessages | server/internal/auth/middleware.go:24-46 | each abort message matches its cause exactly: missing header, wrong format, expired token, other invalid token |
| Auth.OptionalAgreesWithStrict | server/internal/auth/middleware.go:57-83 | the optional middleware sets a user ID exactly when the strict one would let the request through, and the same one |
| Users.FirstWith | server/internal/user/repository.go:38-60 | the scan behind FindByID (key IdOf) and FindByEmailHash (key EmailHashOf): finds a stored user whose key is the one asked for; none exactly when no user has it |
| Users.UserRepository.Create | server/internal/user/repository.go:29-36 | the row is appended unless the scripted insert error occurs, which is returned |
| Users.Issue | server/internal/user/service.go:76-85 | a token pair is issued with the configured access-token lifetime |
| Users.Register | server/internal/user/service.go:36-86 | a taken e-mail or failing step returns its error and adds nothing; otherwise exactly the new row is stored and tokens are issued for its ID |
| Users.NewUserRowContents | server/internal/user/service.go:37-70 | a new row exists only when the e-mail is free, and holds the e-mail hash, the encrypted e-mail, the password hash, the new ID and equal creation/update times |
| Users.DuplicateEmailRefused | server/internal/user/service.go:43-45 | a registered e-mail hash is refused with "user already exists" |
| Users.Login | server/internal/user/service.go:88-113 | a successful login carries the configured lifetime |
| Users.LoginInvalidCredentials | server/internal/user/service.go:88-113 | with the table answering, "invalid credentials" exactly when no user has the e-mail hash or the password does not verify; otherwise the result is the pair issued for the stored user's ID (or the JWT error) |
| Users.LoginPassesFailureOn | server/internal/user/service.go:92-96 | a repository failure other than "not found" is passed through |
| Users.RefreshTokens | server/internal/user/service.go:115-136 | a successful refresh carries the configured lifetime |
| Users.RefreshNeedsValidTokenAndUser | server/internal/user/service.go:115-136 | success needs a valid refresh token whose user still exists, and issues tokens for that user; an invalid token returns its error; for a valid token a failed user lookup returns the lookup's error, a successful one the pair issued for that user |
| Users.GetCurrentUser | server/internal/user/service.go:138-153 | the response carries the requested ID |
| Users.CurrentUserLookup | server/internal/user/service.go:138-153 | a database failure is passed on; an unknown ID is "not found"; a known one gives its decrypted e-mail or the decryption error |
| UserHandler.RegisterStatuses | server/internal/user/handler.go:75-101 | 422 for a bad body, 409 for a taken e-mail, 500 for other failures (no cookie on any), 201 exactly on success |
| UserHandler.LoginStatuses | server/internal/user/handler.go:103-129 | 422 for a bad body, 401 for bad credentials, 500 for other failures (no cookie), 200 exactly on success |
| UserHandler.RefreshStatuses | server/internal/user/handler.go:131-163 | no cookie: 401 and nothing cleared; every failed refresh clears the cookie, 401 exactly for token errors (expired and invalid have their own messages), else 500; 200 exactly on success |
| UserHandler.SuccessSetsRefreshCookie | server/internal/user/handler.go:95-100 | each success sets the refresh cookie to the new refresh token, and the body holds only the access token and its lifetime |
| UserHandler.LogoutClears | server/internal/user/handler.go:165-168 | logout answers 200 and clears the cookie |
| UserHandler.CookieAttributes | server/internal/user/handler.go:47-73 | every cookie set is "refresh_token", HttpOnly, SameSite=Strict, path /api/auth, with the configured domain and Secure flag; Max-Age is the refresh lifetime, or -1 with an empty value when clearing |
| UserHandler.CurrentUserStatuses | server/internal/user/handler.go:170-191 | 401 without an authenticated user, 404 for an unknown one, 500 for other failures, otherwise 200 with the user; never a cookie |

## Left out

- Floating point: samples, frequencies, magnitudes and offsets are exact reals. Rounding of float64 arithmetic is not modelled. This covers `float64(i)/float64(sampleRate)`, `dt*100`, `n*0.015` and `math.Abs`.
- Recognition.ThresholdBounds: `int(float64(n)*0.015)` is taken on the exact product. Where float64 rounds n*0.015 just below an integer, the source can give one less.
- Hashing.Trunc: Go's `int(x)` on a float outside the int64 range, NaN or infinity is not modelled.
- Audio.ProcessAudio: requires a non-zero sample rate. A zero rate gives Go's infinite or NaN offsets, which have no counterpart in the reals; every caller passes the 11200 Hz target rate.
- `Resample`, `LoadWav` and `ConvertToWav` (ffmpeg through pipes, WAV decoding, files) are not part of this model. In the handler, `Resample` is an oracle returning samples or an error.
- The FFT (`fft.FFTReal`), the Hamming window, `cmplx.Abs` and `math.Float32frombits` are oracles passed as parameters. Properties hold for any of them.
- The handler's "processing error" branch (handler.go:80-83) cannot be reached, because `ProcessAudio` never fails. The model shows that through `err.None?` and leaves the branch out of `Analyze`.
- The WebSocket upgrade, `conn.Close`, read errors ending the loop, and JSON encoding of replies are left out. A reply is a datatype, and messages are a finite sequence.
- The recognition service's nested `scores[song][bin]` map is a map keyed by (song, bin), and the song repository's `FindByID` is the parameter `findSong`. Logging is left out everywhere.
- SQL is a scripted `Database` object: rows, a statement log, and one scripted error or success per statement. `sqlx.In` errors, `Rebind` and row order of the SELECT beyond "the matching rows in table order" are not modelled. Transactions (`core/db`) are not part of this model.
- JWT signing and validation, e-mail hashing and encryption, and bcrypt are oracles (`Jwt`, `Crypto`). `uuid.NewV7` and `time.Now` are inputs.
- Users.Login, Users.RefreshTokens, Users.GetCurrentUser: the ensures state only the lifetime or ID carried on success; the full outcome is stated by the lemmas beside them (LoginInvalidCredentials, LoginPassesFailureOn, RefreshNeedsValidTokenAndUser, CurrentUserLookup).
- Request binding (`ShouldBindJSON`) is an optional error input to the handlers; validation rules of the DTOs are not modelled.
- Text.Atoi: Go's `strconv.Atoi` rejects values outside the int64 range; the model parses a sign and digits of any length. Underscores and other bases are rejected by Go's Atoi too, so they need no model.
- The session composable's async interleavings are not modelled: each action runs to completion before the next, and a timer fires only between actions. Vue reactivity (`ref`, `computed`, `readonly`) is plain fields; `Date.now()` is the `now` parameter.
- Session.SessionManager.FetchUser: after a 401 followed by a successful refresh the result depends on the retried call; the contract states only the general facts (a returned user is stored, a token is present) for that path.
- Session.SessionManager.SignIn (and Register, Login): when /me answers 401 and the refresh succeeds, the outcome is that of the retried FetchUser, so SignedIn states nothing for that path.
- Session.SessionManager.Initialize: after a successful refresh it states only that the session holds a token or is anonymous, not which user is fetched.
- `ensureToken`, `GetSongMetadata` and search (Spotify and YouTube network calls) and `DownloadSong` are I/O and are not part of this model; only the link and duration parsing is.
- URL parsing (`url.Parse`) is a parameter of `ExtractSourceId`; the model starts from its host and path.
