/**
  `parseYouTubeDuration` (server/internal/youtube/downloader.go): a video
  length shown as "M:SS" or "H:MM:SS" becomes a number of seconds. Parts
  that are not numbers count as zero, because the code drops strconv.Atoi's
  error.
 */
module YouTube {
  import opened Base
  import opened Text

  /** The value strconv.Atoi reports, with its error ignored: zero when the text is not a number. */
  function AtoiOrZero(s: string): int {
    match Atoi(s)
    case Some(v) => v
    case None => 0
  }

  function ParseDuration(duration: string): (r: Result<int, string>)
    ensures r.Err? <==> |Split(duration, ':')| < 2 || |Split(duration, ':')| > 3
    ensures r.Err? ==> r.error == "invalid duration format: " + duration
  {
    var parts := Split(duration, ':');
    if |parts| < 2 || |parts| > 3 then Err("invalid duration format: " + duration)
    else
      var hours := if |parts| == 3 then AtoiOrZero(parts[0]) else 0;
      var minutes := if |parts| == 3 then AtoiOrZero(parts[1]) else AtoiOrZero(parts[0]);
      var seconds := if |parts| == 3 then AtoiOrZero(parts[2]) else AtoiOrZero(parts[1]);
      Ok(hours * 3600 + minutes * 60 + seconds)
  }

  /** "H:MM:SS" with decimal parts: an hour, a minute and a second weigh 3600, 60 and 1. */
  lemma ParseHoursMinutesSeconds(h: string, m: string, s: string)
    requires AllDigits(h) && AllDigits(m) && AllDigits(s) && h != [] && m != [] && s != []
    ensures ParseDuration(Join([h, m, s], ":")) == Ok(DigitsValue(h) * 3600 + DigitsValue(m) * 60 + DigitsValue(s))
  {
    ReadParts([h, m, s]);
  }

  /** "M:SS" with decimal parts: minutes and seconds, with no hours. */
  lemma ParseMinutesSeconds(m: string, s: string)
    requires AllDigits(m) && AllDigits(s) && m != [] && s != []
    ensures ParseDuration(Join([m, s], ":")) == Ok(DigitsValue(m) * 60 + DigitsValue(s))
  {
    ReadParts([m, s]);
  }

  /** Numbers rendered in decimal have no ':' in them, so splitting their join gives them back. */
  lemma ReadParts(parts: seq<string>)
    requires |parts| >= 1 && forall k :: 0 <= k < |parts| ==> AllDigits(parts[k])
    ensures Split(Join(parts, [':']), ':') == parts
  {
    assert forall k :: 0 <= k < |parts| ==> ':' !in parts[k];
    SplitJoin(parts, ':');
  }

  /** Every part that is a non-empty run of digits contributes its value, so the total is never negative. */
  lemma DigitsGiveNonNegative(duration: string)
    requires forall p :: p in Split(duration, ':') ==> AllDigits(p)
    ensures ParseDuration(duration).Ok? ==> ParseDuration(duration).value >= 0
  {
    var parts := Split(duration, ':');
    forall k | 0 <= k < |parts|
      ensures AtoiOrZero(parts[k]) >= 0
    {
      assert parts[k] in parts;
    }
  }

  /** A part that is not a number counts as zero instead of failing the parse. */
  lemma NonNumericPartIsZero()
    ensures ParseDuration("x:30") == Ok(30)
  {
    var parts := ["x", "30"];
    assert Join(parts, [':']) == "x:30";
    SplitJoin(parts, ':');
    assert Atoi("x") == None;
    assert DigitsValue("30") == 30 by {
      assert "30"[..1] == "3";
    }
  }

  /** Fewer than two or more than three parts are refused. */
  lemma MalformedExamples()
    ensures ParseDuration("").Err?
    ensures ParseDuration("1:2:3:4").Err?
  {
    var parts := ["1", "2", "3", "4"];
    assert Join(parts[2..], [':']) == "3:4";
    assert Join(parts[1..], [':']) == "2:3:4";
    assert Join(parts, [':']) == "1:2:3:4";
    SplitJoin(parts, ':');
  }
}
