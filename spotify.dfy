/**
  Track links (server/internal/spotify/service.go): `ExtractSourceID` takes
  the track ID out of a Spotify link. The URL is parsed by Go's net/url,
  which is a parameter here; the model starts from its host and path.
 */
module Spotify {
  import opened Base
  import opened Text

  /** The parts of a parsed URL the extraction looks at. */
  datatype Url = Url(host: string, path: string)

  const ValidHosts: set<string> := {"open.spotify.com", "www.open.spotify.com", "spotify.com", "www.spotify.com"}

  const UnsupportedHost: string := "invalid Spotify link: unsupported host"
  const TrackIdNotFound: string := "invalid Spotify link: track ID not found"

  /** `isValidHost`: a lookup in the fixed set of Spotify hosts. */
  predicate IsValidHost(u: Url) {
    u.host in ValidHosts
  }

  /** The part of s before its first '?', or all of s when it has none (strings.Index, then a slice). */
  function BeforeQuery(s: string): (r: string)
    ensures '?' !in r && r <= s
    ensures |r| < |s| ==> s[|r|] == '?'
  {
    if s == [] || s[0] == '?' then [] else [s[0]] + BeforeQuery(s[1..])
  }

  /** Part i of the path is "track" and has a successor. */
  predicate IsTrackAt(parts: seq<string>, i: nat) {
    i + 1 < |parts| && parts[i] == "track"
  }

  /** The loop over the path parts from i on: the first "track" part with a successor decides. */
  function TrackIdFrom(parts: seq<string>, i: nat): (r: Option<string>)
    decreases |parts| - i
  {
    if i >= |parts| then None
    else if IsTrackAt(parts, i) then Some(BeforeQuery(parts[i + 1]))
    else TrackIdFrom(parts, i + 1)
  }

  /** `extractIDFromLink` once url.Parse has run. */
  function ExtractIdFromLink(parsed: Result<Url, string>): (r: Result<string, string>)
    ensures r.Err? ==> parsed.Err? || r.error == UnsupportedHost || r.error == TrackIdNotFound
  {
    match parsed
    case Err(e) => Err("failed to parse URL: " + e)
    case Ok(u) =>
      if !IsValidHost(u) then Err(UnsupportedHost)
      else
        match TrackIdFrom(Split(u.path, '/'), 0)
        case Some(id) => Ok(id)
        case None => Err(TrackIdNotFound)
  }

  /** `ExtractSourceID`: the link is parsed by the URL parser, then searched. */
  function ExtractSourceId(link: string, parse: string -> Result<Url, string>): Result<string, string> {
    ExtractIdFromLink(parse(link))
  }

  /**
    The search finds the first "track" part that has a successor: the ID is
    that successor up to its first '?', and no earlier part qualifies. It
    finds nothing exactly when no part qualifies.
   */
  lemma {:induction false} TrackIdFromIsFirst(parts: seq<string>, i: nat)
    requires i <= |parts|
    ensures TrackIdFrom(parts, i).Some? ==>
      exists t :: i <= t < |parts| && IsTrackAt(parts, t) && TrackIdFrom(parts, i).value == BeforeQuery(parts[t + 1]) &&
        forall u :: i <= u < t ==> !IsTrackAt(parts, u)
    ensures TrackIdFrom(parts, i).None? <==> forall u :: i <= u < |parts| ==> !IsTrackAt(parts, u)
    decreases |parts| - i
  {
    if i < |parts| && !IsTrackAt(parts, i) {
      TrackIdFromIsFirst(parts, i + 1);
      if TrackIdFrom(parts, i + 1).Some? {
        var t :| i + 1 <= t < |parts| && IsTrackAt(parts, t) && TrackIdFrom(parts, i + 1).value == BeforeQuery(parts[t + 1]) &&
          forall u :: i + 1 <= u < t ==> !IsTrackAt(parts, u);
        assert forall u :: i <= u < t ==> !IsTrackAt(parts, u);
      }
    }
  }

  /** Only the four Spotify hosts are accepted: any other host is refused before the path is looked at. */
  lemma HostDecides(u: Url)
    ensures ExtractIdFromLink(Ok(u)) == Err(UnsupportedHost) <==> u.host !in ValidHosts
  {
  }

  /** A link to a Spotify host whose path is "/track/<id>" gives back the ID when it has no '/' or '?'. */
  lemma TrackPathRoundTrip(host: string, id: string)
    requires host in ValidHosts && '/' !in id && '?' !in id
    ensures ExtractIdFromLink(Ok(Url(host, "/track/" + id))) == Ok(id)
  {
    var parts := ["", "track", id];
    JoinThree("", "track", id, "/");
    assert "" + "/" + "track" + "/" == "/track/";
    SplitJoin(parts, '/');
    assert IsTrackAt(parts, 1) && !IsTrackAt(parts, 0);
    assert BeforeQuery(id) == id;
    assert TrackIdFrom(parts, 1) == Some(id);
    assert Split("/track/" + id, '/') == parts;
  }

  /** "/track/" with nothing after it yields the empty ID and no error. */
  lemma EmptyTrackSegment(host: string)
    requires host in ValidHosts
    ensures ExtractIdFromLink(Ok(Url(host, "/track/"))) == Ok("")
  {
    TrackPathRoundTrip(host, "");
    assert "/track/" + "" == "/track/";
  }

  /** The hosts the unit tests try: the four Spotify names pass, other sites do not. */
  lemma HostExamples(path: string)
    ensures IsValidHost(Url("open.spotify.com", path)) && IsValidHost(Url("www.spotify.com", path))
    ensures IsValidHost(Url("spotify.com", path)) && IsValidHost(Url("www.open.spotify.com", path))
    ensures !IsValidHost(Url("example.com", path)) && !IsValidHost(Url("youtube.com", path))
  {
    assert "example.com" != "spotify.com" && "example.com"[0] != "www.spotify.com"[0];
    assert "example.com"[0] != "open.spotify.com"[0];
    assert "youtube.com" != "spotify.com" && "youtube.com"[0] != "www.spotify.com"[0];
    assert "youtube.com"[0] != "open.spotify.com"[0];
  }

  /** A path without a "track" part is refused with "track ID not found". */
  lemma AlbumLinkHasNoTrack(host: string)
    requires host in ValidHosts
    ensures ExtractIdFromLink(Ok(Url(host, "/album/123"))) == Err(TrackIdNotFound)
  {
    var parts := ["", "album", "123"];
    JoinThree("", "album", "123", "/");
    assert "" + "/" + "album" + "/" + "123" == "/album/123";
    SplitJoin(parts, '/');
    assert !IsTrackAt(parts, 0) && !IsTrackAt(parts, 1) && !IsTrackAt(parts, 2);
    assert TrackIdFrom(parts, 2) == None;
    assert TrackIdFrom(parts, 0) == None;
  }

  /** A '?' that reaches the track segment cuts the ID there. */
  lemma QueryIsDropped(host: string, id: string, query: string)
    requires host in ValidHosts && '/' !in id && '?' !in id && '/' !in query
    ensures ExtractIdFromLink(Ok(Url(host, "/track/" + id + "?" + query))) == Ok(id)
  {
    var segment := id + "?" + query;
    var parts := ["", "track", segment];
    JoinThree("", "track", segment, "/");
    assert "" + "/" + "track" + "/" == "/track/";
    assert "/track/" + segment == "/track/" + id + "?" + query;
    assert '/' !in segment;
    SplitJoin(parts, '/');
    assert IsTrackAt(parts, 1) && !IsTrackAt(parts, 0);
    assert segment == id + ("?" + query);
    BeforeQueryOfPrefix(id, "?" + query);
    assert TrackIdFrom(parts, 1) == Some(id);
  }

  lemma {:induction false} BeforeQueryOfPrefix(id: string, tail: string)
    requires '?' !in id && |tail| > 0 && tail[0] == '?'
    ensures BeforeQuery(id + tail) == id
    decreases |id|
  {
    if id == [] {
      assert id + tail == tail;
    } else {
      assert (id + tail)[1..] == id[1..] + tail;
      BeforeQueryOfPrefix(id[1..], tail);
    }
  }
}
