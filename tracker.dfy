/**
 * The memoizing history engine of src/tracker.ts: a profile cache and a reshaped-history cache,
 * both keyed by the concatenation of platform id and platform, filled through a primary HTTP
 * fetch with a headless-browser fallback, and the two queries built on them (rating on a day,
 * games played in a playlist).
 */
module TrackerModel {
  import opened Wrappers
  import opened Text

  // ---------------------------------------------------------------------------------------------
  // Data returned by the stats API
  // ---------------------------------------------------------------------------------------------

  /** The two ranked playlists; `Code` is the enum's string value, the key of the history payload. */
  datatype Playlist = RankedTwos | RankedThrees {
    function Code(): string {
      match this
      case RankedTwos => "11"
      case RankedThrees => "13"
    }

    /** The number the code stands for: a numeric `playlistId` compared loosely (`==`) with the
        enum's string value is compared with this number. */
    function CodeNumber(): int {
      match this
      case RankedTwos => 11
      case RankedThrees => 13
    }
  }

  /** One segment of a profile: its `type`, `attributes.playlistId` and `stats.matchesPlayed.value`. */
  datatype Segment = Segment(segmentType: string, playlistId: int, matchesPlayed: int)

  /** A profile response: `data.metadata.playerId` and `data.segments`. */
  datatype Profile = Profile(playerId: int, segments: seq<Segment>)

  /** One history sample `{rating, collectDate}`. */
  datatype Sample = Sample(rating: int, collectDate: string)

  /** A history response: the sample lists under `data["11"]` and `data["13"]`. */
  datatype HistoryResponse = HistoryResponse(twos: seq<Sample>, threes: seq<Sample>) {
    function Samples(playlist: Playlist): seq<Sample> {
      match playlist
      case RankedTwos => twos
      case RankedThrees => threes
    }
  }

  /** A reshaped history: per playlist, day-string to rating. */
  datatype FormattedHistory = FormattedHistory(twos: map<string, int>, threes: map<string, int>) {
    function Ratings(playlist: Playlist): map<string, int> {
      match playlist
      case RankedTwos => twos
      case RankedThrees => threes
    }
  }

  // ---------------------------------------------------------------------------------------------
  // Transport: a primary strategy and a fallback strategy per endpoint
  // ---------------------------------------------------------------------------------------------

  /** The two ways of getting a URL: a direct HTTP request and loading it in a browser page. */
  datatype Strategies<T> = Strategies(http: string -> Result<T>, browser: string -> Result<T>)

  /** The transport for each endpoint; its answers are whatever the remote side returns. */
  datatype Transport = Transport(profile: Strategies<Profile>, history: Strategies<HistoryResponse>)

  datatype Strategy = Http | Browser

  /** One request sent to the remote side. */
  datatype Request = Request(strategy: Strategy, url: string)

  /** Try the primary strategy; only if it throws, try the fallback, whose outcome (value or
      error) is the outcome. */
  function FetchWithFallback<T>(s: Strategies<T>, url: string): Result<T> {
    if s.http(url).Ok? then s.http(url) else s.browser(url)
  }

  /** The requests a fetch with fallback sends: the primary one, then the fallback one if and
      only if the primary one failed. */
  function Attempts<T>(s: Strategies<T>, url: string): (rs: seq<Request>)
    ensures 1 <= |rs| <= 2 && rs[0] == Request(Http, url)
    ensures |rs| == 2 <==> s.http(url).Err?
    ensures |rs| == 2 ==> rs[1] == Request(Browser, url)
  {
    [Request(Http, url)] + if s.http(url).Err? then [Request(Browser, url)] else []
  }

  /** Whatever the fallback does, it does not affect a fetch whose primary request succeeds. */
  lemma FallbackUnusedOnSuccess<T>(http: string -> Result<T>, b1: string -> Result<T>,
                                   b2: string -> Result<T>, url: string)
    requires http(url).Ok?
    ensures FetchWithFallback(Strategies(http, b1), url) == FetchWithFallback(Strategies(http, b2), url) == http(url)
  {
  }

  /** When the primary request fails, the fallback's error, if any, is the fetch's error. */
  lemma FallbackErrorPropagates<T>(s: Strategies<T>, url: string)
    requires s.http(url).Err? && s.browser(url).Err?
    ensures FetchWithFallback(s, url) == Err(s.browser(url).error)
  {
  }

  function ProfileUrl(platformID: string, platform: string): string {
    "https://api.tracker.gg/api/v2/rocket-league/standard/profile/" + platform + "/" + platformID + "?"
  }

  function HistoryUrl(playerId: int): string {
    "https://api.tracker.gg/api/v1/rocket-league/player-history/mmr/" + IntToString(playerId)
  }

  /** The key of both caches: plain concatenation of platform id and platform. */
  function CacheKey(platformID: string, platform: string): string {
    platformID + platform
  }

  /** Two different accounts can share one cache key. */
  lemma CacheKeysCollide()
    ensures ("ab", "c") != ("a", "bc") && CacheKey("ab", "c") == CacheKey("a", "bc")
  {
  }

  // ---------------------------------------------------------------------------------------------
  // Day strings
  // ---------------------------------------------------------------------------------------------

  /** The local calendar fields of a `Date`: `getFullYear()`, `getMonth() + 1` and `getDate()`. */
  datatype CalendarDate = CalendarDate(year: int, month: int, day: int)

  predicate ValidCalendarDate(on: CalendarDate) {
    1 <= on.month <= 12 && 1 <= on.day <= 31
  }

  const DayStringSuffix: string := "T00:00:00+00:00"

  /** The history key of a day: year, month padded to two digits, day NOT padded, fixed suffix. */
  function DateString(on: CalendarDate): string {
    IntToString(on.year) + "-" + PadStart(IntToString(on.month), 2, '0') + "-" + IntToString(on.day) + DayStringSuffix
  }

  /** The two-digit month field reads back as the month. */
  lemma {:induction false} PaddedMonthValue(month: int)
    requires 1 <= month <= 12
    ensures var m := PadStart(IntToString(month), 2, '0');
            |m| == 2 && AllDigits(m) && DigitsValue(m) == month
  {
    NatToStringRoundTrip(month);
    if month < 10 {
      assert PadStart(NatToString(month), 2, '0') == "0" + NatToString(month);
      LeadingZeroValue(NatToString(month));
    } else {
      assert NatToString(month) == NatToString(month / 10) + [DigitChar(month % 10)];
    }
  }

  /** Where the pieces of `y-m-d<suffix>` sit. */
  lemma ConcatLayout(y: string, m: string, d: string, sfx: string)
    ensures var s := y + "-" + m + "-" + d + sfx;
            && |s| == |y| + |m| + 2 + |d| + |sfx|
            && s[..|y|] == y && s[|y|] == '-' && s[|y| + 1..|y| + 1 + |m|] == m && s[|y| + 1 + |m|] == '-'
            && s[|y| + 2 + |m|..|s| - |sfx|] == d && s[|s| - |sfx|..] == sfx
  {
    var s := y + "-" + m + "-" + d + sfx;
    var r4 := d + sfx;
    var r3 := "-" + r4;
    var r2 := m + r3;
    var r1 := "-" + r2;
    AppendAssoc(y + "-" + m + "-", d, sfx);
    AppendAssoc(y + "-" + m, "-", r4);
    AppendAssoc(y + "-", m, r3);
    AppendAssoc(y, "-", r2);
    PieceAt(s, 0, y, r1);
    PieceAt(s, |y|, "-", r2);
    PieceAt(s, |y| + 1, m, r3);
    PieceAt(s, |y| + 1 + |m|, "-", r4);
    PieceAt(s, |y| + 2 + |m|, d, sfx);
  }

  lemma AppendAssoc(a: string, b: string, c: string)
    ensures a + b + c == a + (b + c)
  {
  }

  /** A piece at the front of a suffix of `s` sits in `s` at that offset. */
  lemma PieceAt(s: string, i: nat, piece: string, rest: string)
    requires i <= |s| && s[i..] == piece + rest
    ensures s[i..i + |piece|] == piece && s[i + |piece|..] == rest
    ensures |piece| == 1 ==> s[i] == piece[0]
  {
    assert s[i..i + |piece|] == s[i..][..|piece|];
    assert s[i + |piece|..] == s[i..][|piece|..];
  }

  /** The day string of a date with a non-negative year is its pieces joined with '-'. */
  lemma DateStringPieces(on: CalendarDate)
    requires ValidCalendarDate(on) && on.year >= 0
    ensures DateString(on) == NatToString(on.year) + "-" + PadStart(NatToString(on.month), 2, '0') + "-" + NatToString(on.day) + DayStringSuffix
  {
    assert IntToString(on.year) == NatToString(on.year);
    assert IntToString(on.month) == NatToString(on.month);
    assert IntToString(on.day) == NatToString(on.day);
  }

  /** Digits, '-', a two-digit number, '-', anything, and the suffix lay out as those fields. */
  lemma PiecesLayOut(y: string, m: string, d: string, month: int)
    requires AllDigits(y) && |m| == 2 && AllDigits(m) && DigitsValue(m) == month
    ensures LaysOut(y + "-" + m + "-" + d + DayStringSuffix, DayStringFields(y, month, d))
  {
    ConcatLayout(y, m, d, DayStringSuffix);
  }

  /** The layout of a day string: the year's digits, '-', two month digits, '-', the day's digits
      with no padding, and the fixed suffix. */
  lemma DateStringLayout(on: CalendarDate)
    requires ValidCalendarDate(on) && on.year >= 0
    ensures LaysOut(DateString(on), DayStringFields(NatToString(on.year), on.month, NatToString(on.day)))
  {
    PaddedMonthValue(on.month);
    assert IntToString(on.month) == NatToString(on.month);
    DateStringPieces(on);
    PiecesLayOut(NatToString(on.year), PadStart(NatToString(on.month), 2, '0'), NatToString(on.day), on.month);
  }

  /** The day of the month is written without padding: 2015-07-08 gives "2015-07-8T00:00:00+00:00". */
  lemma DateStringExample()
    ensures DateString(CalendarDate(2015, 7, 8)) == "2015" + "-" + "07" + "-" + "8" + DayStringSuffix
  {
    assert IntToString(2015) == "2015" by {
      assert NatToString(2015) == "2015";
    }
    assert IntToString(7) == "7" && IntToString(8) == "8";
    assert PadStart("7", 2, '0') == "07";
  }

  /** Different valid dates have different day strings, so one history key is one day. */
  lemma DateStringInjective(a: CalendarDate, b: CalendarDate)
    requires ValidCalendarDate(a) && ValidCalendarDate(b) && a.year >= 0 && b.year >= 0
    requires DateString(a) == DateString(b)
    ensures a == b
  {
    var fa := ReadFields(a);
    var fb := ReadFields(b);
    FieldsAgree(DateString(a), fa, fb);
    NatToStringInjective(a.year, b.year);
    NatToStringInjective(a.day, b.day);
  }

  /** The fields of a day string as positions in it: year digits, month value, day digits. */
  datatype DayStringFields = DayStringFields(year: string, month: int, day: string)

  /** `s` is the year digits, '-', two digits reading as the month, '-', the day text and the
      suffix. */
  predicate LaysOut(s: string, f: DayStringFields) {
    && AllDigits(f.year)
    && |s| == |f.year| + 4 + |f.day| + |DayStringSuffix|
    && s[..|f.year|] == f.year && s[|f.year|] == '-' && s[|f.year| + 3] == '-'
    && AllDigits(s[|f.year| + 1..|f.year| + 3]) && DigitsValue(s[|f.year| + 1..|f.year| + 3]) == f.month
    && s[|f.year| + 4..|s| - |DayStringSuffix|] == f.day
    && s[|s| - |DayStringSuffix|..] == DayStringSuffix
  }

  lemma ReadFields(on: CalendarDate) returns (f: DayStringFields)
    requires ValidCalendarDate(on) && on.year >= 0
    ensures f == DayStringFields(NatToString(on.year), on.month, NatToString(on.day))
    ensures LaysOut(DateString(on), f)
  {
    f := DayStringFields(NatToString(on.year), on.month, NatToString(on.day));
    DateStringLayout(on);
  }

  /** One string laid out as a day string in two ways has the same fields both ways. */
  lemma FieldsAgree(s: string, fa: DayStringFields, fb: DayStringFields)
    requires LaysOut(s, fa) && LaysOut(s, fb)
    ensures fa == fb
  {
    YearFieldLength(s, fa.year, fb.year);
  }

  /** Two digit strings that both end right before a '-' at their own length are equally long. */
  lemma YearFieldLength(s: string, ya: string, yb: string)
    requires |ya| < |s| && |yb| < |s|
    requires AllDigits(ya) && AllDigits(yb)
    requires s[..|ya|] == ya && s[|ya|] == '-' && s[..|yb|] == yb && s[|yb|] == '-'
    ensures |ya| == |yb|
  {
  }

  // ---------------------------------------------------------------------------------------------
  // Reshaping the history response
  // ---------------------------------------------------------------------------------------------

  /** The map built by assigning `m[sample.collectDate] = sample.rating` for each sample in order. */
  function IndexByDate(samples: seq<Sample>): map<string, int> {
    if samples == [] then map[]
    else IndexByDate(samples[..|samples| - 1])[samples[|samples| - 1].collectDate := samples[|samples| - 1].rating]
  }

  /** The reshaped history: each playlist's map is built from that playlist's samples only. */
  function Reshape(resp: HistoryResponse): (h: FormattedHistory) {
    FormattedHistory(IndexByDate(resp.twos), IndexByDate(resp.threes))
  }

  /** Sample `i` is the last one collected on its day. */
  predicate IsLastOnItsDay(samples: seq<Sample>, i: int)
    requires 0 <= i < |samples|
  {
    forall j :: i < j < |samples| ==> samples[j].collectDate != samples[i].collectDate
  }

  /** The days of the map are exactly the collect dates of the samples. */
  lemma {:induction false} IndexByDateKeys(samples: seq<Sample>, day: string)
    ensures day in IndexByDate(samples) <==> exists i :: 0 <= i < |samples| && samples[i].collectDate == day
    decreases |samples|
  {
    if samples != [] {
      var init := samples[..|samples| - 1];
      IndexByDateKeys(init, day);
      if exists i :: 0 <= i < |samples| && samples[i].collectDate == day {
        var i :| 0 <= i < |samples| && samples[i].collectDate == day;
        if i < |samples| - 1 {
          assert init[i].collectDate == day;
        }
      }
      if exists i :: 0 <= i < |init| && init[i].collectDate == day {
        var i :| 0 <= i < |init| && init[i].collectDate == day;
        assert samples[i].collectDate == day;
      }
    }
  }

  /** Last entry wins: a day maps to the rating of the last sample collected on that day. */
  lemma {:induction false} IndexByDateLastWins(samples: seq<Sample>, i: int)
    requires 0 <= i < |samples| && IsLastOnItsDay(samples, i)
    ensures samples[i].collectDate in IndexByDate(samples)
    ensures IndexByDate(samples)[samples[i].collectDate] == samples[i].rating
    decreases |samples|
  {
    var init := samples[..|samples| - 1];
    if i < |samples| - 1 {
      assert IsLastOnItsDay(init, i) by {
        forall j | i < j < |init| ensures init[j].collectDate != init[i].collectDate {
          assert init[j] == samples[j];
        }
      }
      IndexByDateLastWins(init, i);
    }
  }

  /** The loop of the source: for each sample in order, `m[collectDate] := rating`. */
  method IndexSamples(samples: seq<Sample>) returns (m: map<string, int>)
    ensures m == IndexByDate(samples)
  {
    m := map[];
    var i := 0;
    while i < |samples|
      invariant 0 <= i <= |samples|
      invariant m == IndexByDate(samples[..i])
    {
      assert samples[..i + 1][..i] == samples[..i];
      m := m[samples[i].collectDate := samples[i].rating];
      i := i + 1;
    }
    assert samples[..|samples|] == samples;
  }

  /** The nested loops of the source: for each playlist in order, index its samples. */
  method ReshapeHistory(resp: HistoryResponse) returns (h: FormattedHistory)
    ensures h == Reshape(resp)
  {
    var playlists := [RankedTwos, RankedThrees];
    h := FormattedHistory(map[], map[]);
    for k := 0 to |playlists|
      invariant k >= 1 ==> h.twos == IndexByDate(resp.twos)
      invariant h.threes == if k >= 2 then IndexByDate(resp.threes) else map[]
    {
      var m := IndexSamples(resp.Samples(playlists[k]));
      if playlists[k] == RankedTwos {
        h := h.(twos := m);
      } else {
        h := h.(threes := m);
      }
    }
  }

  // ---------------------------------------------------------------------------------------------
  // The two queries on cached data
  // ---------------------------------------------------------------------------------------------

  /** The rating stored under the day string of `on`; absent, and also a stored 0, read as none
      (the source tests the stored value for truthiness). */
  function RatingOn(h: FormattedHistory, playlist: Playlist, on: CalendarDate): Option<int> {
    RatingIn(h.Ratings(playlist), DateString(on))
  }

  /** The rating a map holds for a day string; absent and 0 both read as none. */
  function RatingIn(m: map<string, int>, day: string): Option<int> {
    if day in m && m[day] != 0 then Some(m[day]) else None
  }

  /** Rating lookup on a reshaped response, against the samples themselves: a rating is found
      exactly when the last sample collected on that day string has a non-zero rating. */
  lemma RatingFromSamples(resp: HistoryResponse, playlist: Playlist, on: CalendarDate)
    ensures var samples, r := resp.Samples(playlist), RatingOn(Reshape(resp), playlist, on);
            && (r.Some? ==> exists i :: 0 <= i < |samples| && samples[i].collectDate == DateString(on)
                                       && IsLastOnItsDay(samples, i) && samples[i].rating == r.value != 0)
            && (forall i :: 0 <= i < |samples| && samples[i].collectDate == DateString(on) && IsLastOnItsDay(samples, i)
                  ==> r == if samples[i].rating == 0 then None else Some(samples[i].rating))
            && ((forall i :: 0 <= i < |samples| ==> samples[i].collectDate != DateString(on)) ==> r == None)
  {
    var samples, day := resp.Samples(playlist), DateString(on);
    assert Reshape(resp).Ratings(playlist) == IndexByDate(samples);
    var r := RatingOn(Reshape(resp), playlist, on);
    assert r == RatingIn(IndexByDate(samples), day);
    RatingFromIndex(samples, day);
    if r.Some? {
      var i :| 0 <= i < |samples| && samples[i].collectDate == day && IsLastOnItsDay(samples, i) && samples[i].rating == r.value != 0;
    }
  }

  /** The same statement on the indexed samples, for any day string. */
  lemma RatingFromIndex(samples: seq<Sample>, day: string)
    ensures var r := RatingIn(IndexByDate(samples), day);
            && (r.Some? ==> exists i :: 0 <= i < |samples| && samples[i].collectDate == day
                                       && IsLastOnItsDay(samples, i) && samples[i].rating == r.value != 0)
            && (forall i :: 0 <= i < |samples| && samples[i].collectDate == day && IsLastOnItsDay(samples, i)
                  ==> r == if samples[i].rating == 0 then None else Some(samples[i].rating))
            && ((forall i :: 0 <= i < |samples| ==> samples[i].collectDate != day) ==> r == None)
  {
    IndexByDateKeys(samples, day);
    if day in IndexByDate(samples) {
      var i := LastIndexOn(samples, day);
      IndexByDateLastWins(samples, i);
      forall i' | 0 <= i' < |samples| && samples[i'].collectDate == day && IsLastOnItsDay(samples, i')
        ensures i' == i
      {
        LastOnDayUnique(samples, i, i');
      }
    }
  }

  /** Two samples of the same day that are both last on it are the same sample. */
  lemma LastOnDayUnique(samples: seq<Sample>, i: int, j: int)
    requires 0 <= i < |samples| && 0 <= j < |samples| && samples[i].collectDate == samples[j].collectDate
    requires IsLastOnItsDay(samples, i) && IsLastOnItsDay(samples, j)
    ensures i == j
  {
  }

  /** The index of the last sample collected on `day`, given that there is one. */
  lemma LastIndexOn(samples: seq<Sample>, day: string) returns (i: int)
    requires exists k :: 0 <= k < |samples| && samples[k].collectDate == day
    ensures 0 <= i < |samples| && samples[i].collectDate == day && IsLastOnItsDay(samples, i)
  {
    var k :| 0 <= k < |samples| && samples[k].collectDate == day;
    i := k;
    var j := k + 1;
    while j < |samples|
      invariant k <= i < j <= |samples|
      invariant samples[i].collectDate == day
      invariant forall j' :: i < j' < j ==> samples[j'].collectDate != day
    {
      if samples[j].collectDate == day {
        i := j;
      }
      j := j + 1;
    }
  }

  /** A segment counts for a playlist when its type is 'playlist' and its id equals the code. */
  predicate SegmentMatches(seg: Segment, playlist: Playlist) {
    seg.segmentType == "playlist" && seg.playlistId == playlist.CodeNumber()
  }

  /** Matches played in the first segment that counts for the playlist, 0 if none does. */
  function GamesPlayed(segments: seq<Segment>, playlist: Playlist): int {
    if segments == [] then 0
    else if SegmentMatches(segments[0], playlist) then segments[0].matchesPlayed
    else GamesPlayed(segments[1..], playlist)
  }

  /** `GamesPlayed` is a first-match search: the first matching segment decides, later ones
      are ignored, and no match gives 0. */
  lemma GamesPlayedFirstMatch(segments: seq<Segment>, playlist: Playlist)
    ensures (forall i :: 0 <= i < |segments| ==> !SegmentMatches(segments[i], playlist)) ==> GamesPlayed(segments, playlist) == 0
    ensures forall i :: 0 <= i < |segments| && SegmentMatches(segments[i], playlist)
                        && (forall j :: 0 <= j < i ==> !SegmentMatches(segments[j], playlist))
                        ==> GamesPlayed(segments, playlist) == segments[i].matchesPlayed
  {
    if forall i :: 0 <= i < |segments| ==> !SegmentMatches(segments[i], playlist) {
      GamesPlayedNoMatch(segments, playlist);
    }
    forall i | 0 <= i < |segments| && SegmentMatches(segments[i], playlist)
               && (forall j :: 0 <= j < i ==> !SegmentMatches(segments[j], playlist))
      ensures GamesPlayed(segments, playlist) == segments[i].matchesPlayed
    {
      GamesPlayedAt(segments, playlist, i);
    }
  }

  lemma {:induction false} GamesPlayedNoMatch(segments: seq<Segment>, playlist: Playlist)
    requires forall i :: 0 <= i < |segments| ==> !SegmentMatches(segments[i], playlist)
    ensures GamesPlayed(segments, playlist) == 0
    decreases |segments|
  {
    if segments != [] {
      assert !SegmentMatches(segments[0], playlist);
      var rest := segments[1..];
      forall i | 0 <= i < |rest| ensures !SegmentMatches(rest[i], playlist) {
        assert rest[i] == segments[i + 1];
      }
      GamesPlayedNoMatch(rest, playlist);
    }
  }

  lemma {:induction false} GamesPlayedAt(segments: seq<Segment>, playlist: Playlist, i: int)
    requires 0 <= i < |segments| && SegmentMatches(segments[i], playlist)
    requires forall j :: 0 <= j < i ==> !SegmentMatches(segments[j], playlist)
    ensures GamesPlayed(segments, playlist) == segments[i].matchesPlayed
    decreases i
  {
    if i > 0 {
      assert !SegmentMatches(segments[0], playlist);
      var rest := segments[1..];
      assert rest[i - 1] == segments[i];
      forall j | 0 <= j < i - 1 ensures !SegmentMatches(rest[j], playlist) {
        assert rest[j] == segments[j + 1];
      }
      GamesPlayedAt(rest, playlist, i - 1);
    }
  }

  /** The loop of the source: scan the segments, return at the first match, else 0. */
  method FindGamesPlayed(segments: seq<Segment>, playlist: Playlist) returns (n: int)
    ensures n == GamesPlayed(segments, playlist)
  {
    var i := 0;
    while i < |segments|
      invariant 0 <= i <= |segments|
      invariant GamesPlayed(segments[i..], playlist) == GamesPlayed(segments, playlist)
    {
      if SegmentMatches(segments[i], playlist) {
        return segments[i].matchesPlayed;
      }
      assert segments[i..][1..] == segments[i + 1..];
      i := i + 1;
    }
    return 0;
  }

  // ---------------------------------------------------------------------------------------------
  // What the engine answers, as a function of the transport
  // ---------------------------------------------------------------------------------------------

  function ProfileOf(transport: Transport, platformID: string, platform: string): Result<Profile> {
    FetchWithFallback(transport.profile, ProfileUrl(platformID, platform))
  }

  function HistoryOf(transport: Transport, profile: Profile): Result<FormattedHistory> {
    match FetchWithFallback(transport.history, HistoryUrl(profile.playerId))
    case Ok(resp) => Ok(Reshape(resp))
    case Err(e) => Err(e)
  }

  /** The reshaped history of an account: its profile first, then the history of its player id. */
  function PureHistory(transport: Transport, platformID: string, platform: string): Result<FormattedHistory> {
    match ProfileOf(transport, platformID, platform)
    case Ok(p) => HistoryOf(transport, p)
    case Err(e) => Err(e)
  }

  /** The rating lookup on a history outcome: an error passes through unchanged. */
  function RatingOf(history: Result<FormattedHistory>, playlist: Playlist, on: CalendarDate): (r: Result<Option<int>>)
    ensures r.Ok? <==> history.Ok?
    ensures history.Ok? ==> r.value == RatingOn(history.value, playlist, on)
    ensures history.Err? ==> r.error == history.error
  {
    match history
    case Ok(h) => Ok(RatingOn(h, playlist, on))
    case Err(e) => Err(e)
  }

  function PureMMR(transport: Transport, platformID: string, platform: string, playlist: Playlist, on: CalendarDate): Result<Option<int>> {
    RatingOf(PureHistory(transport, platformID, platform), playlist, on)
  }

  function PureGamesPlayed(transport: Transport, platformID: string, platform: string, playlist: Playlist): Result<int> {
    match ProfileOf(transport, platformID, platform)
    case Ok(p) => Ok(GamesPlayed(p.segments, playlist))
    case Err(e) => Err(e)
  }

  /** The account whose fetch filled a cache entry. */
  datatype Handle = Handle(platformID: string, platform: string)

  /** The cache invariant on the caches' contents: every cached profile is what the transport
      returned for the account that filled its key, and every cached history is what the
      transport returns for that profile's player id. */
  ghost predicate CachesAgree(transport: Transport, profiles: map<string, Profile>, origin: map<string, Handle>,
                              histories: map<string, FormattedHistory>)
  {
    && origin.Keys == profiles.Keys
    && (forall k :: k in profiles ==>
          CacheKey(origin[k].platformID, origin[k].platform) == k
          && ProfileOf(transport, origin[k].platformID, origin[k].platform) == Ok(profiles[k]))
    && (forall k :: k in histories ==> k in profiles && HistoryOf(transport, profiles[k]) == Ok(histories[k]))
  }

  /** Storing a freshly fetched profile under its free key keeps the invariant. */
  lemma ProfileStoreAgrees(transport: Transport, profiles: map<string, Profile>, origin: map<string, Handle>,
                           histories: map<string, FormattedHistory>, h: Handle, p: Profile)
    requires CachesAgree(transport, profiles, origin, histories)
    requires CacheKey(h.platformID, h.platform) !in profiles && ProfileOf(transport, h.platformID, h.platform) == Ok(p)
    ensures var key := CacheKey(h.platformID, h.platform);
            CachesAgree(transport, profiles[key := p], origin[key := h], histories)
  {
    var key := CacheKey(h.platformID, h.platform);
    var profiles', origin' := profiles[key := p], origin[key := h];
    forall k | k in profiles'
      ensures CacheKey(origin'[k].platformID, origin'[k].platform) == k
      ensures ProfileOf(transport, origin'[k].platformID, origin'[k].platform) == Ok(profiles'[k])
    {
      if k != key {
        assert origin'[k] == origin[k] && profiles'[k] == profiles[k];
      }
    }
    forall k | k in histories
      ensures k in profiles' && HistoryOf(transport, profiles'[k]) == Ok(histories[k])
    {
      assert k != key && profiles'[k] == profiles[k];
    }
  }

  /** Storing the history fetched for a cached profile keeps the invariant. */
  lemma HistoryStoreAgrees(transport: Transport, profiles: map<string, Profile>, origin: map<string, Handle>,
                           histories: map<string, FormattedHistory>, key: string, history: FormattedHistory)
    requires CachesAgree(transport, profiles, origin, histories)
    requires key in profiles && HistoryOf(transport, profiles[key]) == Ok(history)
    ensures CachesAgree(transport, profiles, origin, histories[key := history])
  {
  }

  /** A cached profile of an account that filled its own key is what the transport returns. */
  lemma OwnProfileAgrees(transport: Transport, profiles: map<string, Profile>, origin: map<string, Handle>,
                         histories: map<string, FormattedHistory>, platformID: string, platform: string)
    requires CachesAgree(transport, profiles, origin, histories)
    requires var key := CacheKey(platformID, platform); key in origin && origin[key] == Handle(platformID, platform)
    ensures ProfileOf(transport, platformID, platform) == Ok(profiles[CacheKey(platformID, platform)])
  {
  }

  /** A cached history of an account that filled its own key is its pure history. */
  lemma OwnHistoryAgrees(transport: Transport, profiles: map<string, Profile>, origin: map<string, Handle>,
                         histories: map<string, FormattedHistory>, platformID: string, platform: string)
    requires CachesAgree(transport, profiles, origin, histories)
    requires var key := CacheKey(platformID, platform); key in histories && origin[key] == Handle(platformID, platform)
    ensures PureHistory(transport, platformID, platform) == Ok(histories[CacheKey(platformID, platform)])
  {
    OwnProfileAgrees(transport, profiles, origin, histories, platformID, platform);
  }

  // ---------------------------------------------------------------------------------------------
  // The engine: two caches that only grow
  // ---------------------------------------------------------------------------------------------

  class Tracker {
    const transport: Transport
    var profiles: map<string, Profile>
    var histories: map<string, FormattedHistory>
    /** The account whose fetch filled each profile entry. */
    ghost var profileOrigin: map<string, Handle>
    /** Every request sent to the remote side, in order. */
    ghost var requests: seq<Request>

    ghost predicate Valid()
      reads this
    {
      CachesAgree(transport, profiles, profileOrigin, histories)
    }

    /** The key was free, or was filled by this very account. */
    ghost predicate OwnedBy(platformID: string, platform: string)
      reads this
    {
      var key := CacheKey(platformID, platform);
      key !in profileOrigin || profileOrigin[key] == Handle(platformID, platform)
    }

    constructor (transport: Transport)
      ensures Valid() && this.transport == transport
      ensures profiles == map[] && histories == map[] && requests == []
    {
      this.transport := transport;
      profiles, histories := map[], map[];
      profileOrigin, requests := map[], [];
    }

    /** The effect of a profile lookup with result `r`: a hit returns the entry and changes
        nothing; a miss returns the fetched outcome and stores it under the key only on success. */
    twostate predicate ProfileCacheStep(platformID: string, platform: string, new r: Result<Profile>)
      reads this
    {
      var key := CacheKey(platformID, platform);
      if key in old(profiles) then
        r == Ok(old(profiles)[key]) && profiles == old(profiles) && profileOrigin == old(profileOrigin)
      else
        && r == ProfileOf(transport, platformID, platform)
        && (r.Ok? ==> profiles == old(profiles)[key := r.value]
                      && profileOrigin == old(profileOrigin)[key := Handle(platformID, platform)])
        && (r.Err? ==> profiles == old(profiles) && profileOrigin == old(profileOrigin))
    }

    /** The requests a profile lookup sends: none on a hit. */
    twostate function ProfileFetches(platformID: string, platform: string): seq<Request>
      reads this
    {
      if CacheKey(platformID, platform) in old(profiles) then []
      else Attempts(transport.profile, ProfileUrl(platformID, platform))
    }

    /** A fetch with fallback, logging each request it sends. */
    method Fetch<T>(s: Strategies<T>, url: string) returns (r: Result<T>)
      modifies this`requests
      ensures r == FetchWithFallback(s, url)
      ensures requests == old(requests) + Attempts(s, url)
    {
      requests := requests + [Request(Http, url)];
      r := s.http(url);
      if r.Err? {
        requests := requests + [Request(Browser, url)];
        r := s.browser(url);
      }
    }

    method GetPlayerProfile(platformID: string, platform: string) returns (r: Result<Profile>)
      requires Valid()
      modifies this
      ensures Valid()
      ensures ProfileCacheStep(platformID, platform, r)
      ensures requests == old(requests) + ProfileFetches(platformID, platform)
      ensures histories == old(histories)
      ensures r.Ok? ==> CacheKey(platformID, platform) in profiles && profiles[CacheKey(platformID, platform)] == r.value
    {
      var key := CacheKey(platformID, platform);
      if key in profiles {
        return Ok(profiles[key]);
      }
      var url := ProfileUrl(platformID, platform);
      r := Fetch(transport.profile, url);
      if r.Err? {
        return;
      }
      ProfileStoreAgrees(transport, profiles, profileOrigin, histories, Handle(platformID, platform), r.value);
      profiles := profiles[key := r.value];
      profileOrigin := profileOrigin[key := Handle(platformID, platform)];
    }

    method GetPlayerProfileID(platformID: string, platform: string) returns (r: Result<int>)
      requires Valid()
      modifies this
      ensures Valid()
      ensures r.Ok? ==> CacheKey(platformID, platform) in profiles
                        && r.value == profiles[CacheKey(platformID, platform)].playerId
      ensures ProfileCacheStep(platformID, platform, if r.Ok? then Ok(profiles[CacheKey(platformID, platform)]) else Err(r.error))
      ensures requests == old(requests) + ProfileFetches(platformID, platform)
      ensures histories == old(histories)
    {
      var player := GetPlayerProfile(platformID, platform);
      match player
      case Ok(p) => r := Ok(p.playerId);
      case Err(e) => r := Err(e);
    }

    method GetPlayerMMRHistory(platformID: string, platform: string) returns (r: Result<FormattedHistory>)
      requires Valid()
      modifies this
      ensures Valid()
      ensures var key := CacheKey(platformID, platform);
              key in old(histories) ==> r == Ok(old(histories)[key]) && unchanged(this)
      ensures var key := CacheKey(platformID, platform);
              key !in old(histories) ==>
                && (key !in profiles ==> r.Err?)
                && ProfileCacheStep(platformID, platform, if key in profiles then Ok(profiles[key]) else Err(r.error))
                && (key in profiles ==> r == HistoryOf(transport, profiles[key]))
                && histories == (if r.Ok? then old(histories)[key := r.value] else old(histories))
                && requests == old(requests) + ProfileFetches(platformID, platform)
                               + (if key in profiles then Attempts(transport.history, HistoryUrl(profiles[key].playerId)) else [])
      ensures r.Ok? ==> CacheKey(platformID, platform) in profiles
                        && CacheKey(platformID, platform) in histories
                        && histories[CacheKey(platformID, platform)] == r.value
      ensures OwnedBy(platformID, platform) ==> r == PureHistory(transport, platformID, platform)
    {
      var key := CacheKey(platformID, platform);
      if key in histories {
        if OwnedBy(platformID, platform) {
          OwnHistoryAgrees(transport, profiles, profileOrigin, histories, platformID, platform);
        }
        return Ok(histories[key]);
      }
      var playerID := GetPlayerProfileID(platformID, platform);
      if playerID.Err? {
        return Err(playerID.error);
      }
      var url := HistoryUrl(playerID.value);
      var fetched := Fetch(transport.history, url);
      if fetched.Err? {
        return Err(fetched.error);
      }
      var formatted := ReshapeHistory(fetched.value);
      HistoryStoreAgrees(transport, profiles, profileOrigin, histories, key, formatted);
      histories := histories[key := formatted];
      r := Ok(formatted);
    }

    method GetPlayerMMR(platformID: string, platform: string, playlist: Playlist, on: CalendarDate) returns (r: Result<Option<int>>)
      requires Valid()
      modifies this
      ensures Valid()
      ensures var key := CacheKey(platformID, platform);
              key in old(histories) ==> r == Ok(RatingOn(old(histories)[key], playlist, on)) && unchanged(this)
      ensures r.Ok? ==> CacheKey(platformID, platform) in histories
                        && r.value == RatingOn(histories[CacheKey(platformID, platform)], playlist, on)
      ensures var key := CacheKey(platformID, platform);
              key !in old(histories) ==>
                && (key !in profiles ==> r.Err?)
                && ProfileCacheStep(platformID, platform, if key in profiles then Ok(profiles[key]) else Err(r.error))
                && (key in profiles ==> r == RatingOf(HistoryOf(transport, profiles[key]), playlist, on))
                && histories == (if r.Ok? then old(histories)[key := HistoryOf(transport, profiles[key]).value] else old(histories))
                && requests == old(requests) + ProfileFetches(platformID, platform)
                               + (if key in profiles then Attempts(transport.history, HistoryUrl(profiles[key].playerId)) else [])
      ensures r.Err? ==> histories == old(histories) && CacheKey(platformID, platform) !in histories
      ensures OwnedBy(platformID, platform) ==> r == PureMMR(transport, platformID, platform, playlist, on)
    {
      var history := GetPlayerMMRHistory(platformID, platform);
      r := RatingOf(history, playlist, on);
    }

    method GetPlayerNumGamesPlayed(platformID: string, platform: string, playlist: Playlist) returns (r: Result<int>)
      requires Valid()
      modifies this
      ensures Valid()
      ensures r.Ok? ==> CacheKey(platformID, platform) in profiles
                        && r.value == GamesPlayed(profiles[CacheKey(platformID, platform)].segments, playlist)
      ensures ProfileCacheStep(platformID, platform, if r.Ok? then Ok(profiles[CacheKey(platformID, platform)]) else Err(r.error))
      ensures requests == old(requests) + ProfileFetches(platformID, platform)
      ensures histories == old(histories)
      ensures OwnedBy(platformID, platform) ==> r == PureGamesPlayed(transport, platformID, platform, playlist)
    {
      var player := GetPlayerProfile(platformID, platform);
      if player.Err? {
        return Err(player.error);
      }
      var n := FindGamesPlayed(player.value.segments, playlist);
      r := Ok(n);
    }
  }

  /** Asking twice for the same account's profile sends requests at most once: once the first
      lookup succeeds, the second sends nothing. */
  method ProfileIsMemoized(t: Tracker, platformID: string, platform: string) returns (r1: Result<Profile>, r2: Result<Profile>)
    requires t.Valid()
    modifies t
    ensures t.Valid()
    ensures r1 == if CacheKey(platformID, platform) in old(t.profiles) then Ok(old(t.profiles)[CacheKey(platformID, platform)])
                  else ProfileOf(t.transport, platformID, platform)
    ensures r1.Ok? ==> r2 == r1
    ensures r1.Ok? ==> t.requests == old(t.requests)
                                     + (if CacheKey(platformID, platform) in old(t.profiles) then []
                                        else Attempts(t.transport.profile, ProfileUrl(platformID, platform)))
  {
    r1 := t.GetPlayerProfile(platformID, platform);
    ghost var between := t.requests;
    r2 := t.GetPlayerProfile(platformID, platform);
    assert r1.Ok? ==> t.requests == between;
  }

  /** Two accounts whose keys collide share the first one's profile: the second gets it from the
      cache, without any request. */
  method CollidingAccountsShareProfile(t: Tracker, id1: string, p1: string, id2: string, p2: string)
    returns (r1: Result<Profile>, r2: Result<Profile>)
    requires t.Valid() && CacheKey(id1, p1) == CacheKey(id2, p2) && CacheKey(id1, p1) !in t.profiles
    modifies t
    ensures t.Valid()
    ensures r1.Ok? ==> r2 == r1 && r1 == ProfileOf(t.transport, id1, p1)
    ensures r1.Ok? ==> t.requests == old(t.requests) + Attempts(t.transport.profile, ProfileUrl(id1, p1))
  {
    r1 := t.GetPlayerProfile(id1, p1);
    r2 := t.GetPlayerProfile(id2, p2);
  }
}
