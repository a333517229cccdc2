/**
  The coding tracker of `coding_tracker.py`: which platforms can be synchronised, how a
  GeeksforGeeks profile name is cleaned out of a pasted URL, how scraped counters become a
  user's `PlatformStats` row, the sample problems added after a sync, and the progress
  summary across platforms. The scraped counters are inputs: the scraping itself (HTTP,
  HTML parsing, random mock data) is not part of this model.
*/
module CodingTracker {

  import opened Wrappers
  import opened Text
  import opened PlatformRecords

  datatype PlatformInfo = PlatformInfo(name: string, color: string, icon: string)

  /** The `platforms` table of the tracker. */
  const Platforms: map<string, PlatformInfo> := map[
    "leetcode" := PlatformInfo("LeetCode", "#FFA500", "code"),
    "geeksforgeeks" := PlatformInfo("GeeksforGeeks", "#2F8D46", "book"),
    "hackerrank" := PlatformInfo("HackerRank", "#2EC866", "trophy"),
    "github" := PlatformInfo("GitHub", "#333333", "github")]

  lemma SupportedPlatforms()
    ensures Platforms.Keys == {"leetcode", "geeksforgeeks", "hackerrank", "github"}
  {
  }

  // ---------------------------------------------------------------------------
  // Scraped counters

  /** What a scraper returns; the optional keys fall back to 0 when the row is updated. */
  datatype Scraped = Scraped(
    totalProblems: int,
    basicSolved: Option<int>,
    easySolved: int,
    mediumSolved: int,
    hardSolved: int,
    contestRating: Option<int>,
    streak: Option<int>)

  function OrZero(x: Option<int>): int {
    if x.Some? then x.value else 0
  }

  /** The LeetCode scraper's result: the total is the sum of the three difficulties, and a
      missing or zero ranking reads 0. */
  function LeetCodeScraped(easy: int, medium: int, hard: int, ranking: Option<int>, streak: int): (d: Scraped)
    ensures d.totalProblems == d.easySolved + d.mediumSolved + d.hardSolved
    ensures d.easySolved == easy && d.mediumSolved == medium && d.hardSolved == hard
    ensures d.basicSolved.None? && OrZero(d.contestRating) == OrZero(ranking) && d.streak == Some(streak)
  {
    Scraped(easy + medium + hard, None, easy, medium, hard, Some(OrZero(ranking)), Some(streak))
  }

  /** The GeeksforGeeks scraper's result: when no total was found on the page, the sum of
      the four difficulty counts stands in for it. */
  function GfgScraped(total: int, basic: int, easy: int, medium: int, hard: int, rank: int, streak: int): (d: Scraped)
    ensures total == 0 ==> d.totalProblems == basic + easy + medium + hard
    ensures total != 0 ==> d.totalProblems == total
    ensures d.basicSolved == Some(basic) && d.easySolved == easy && d.mediumSolved == medium && d.hardSolved == hard
    ensures d.contestRating == Some(rank) && d.streak == Some(streak)
  {
    var t := if total == 0 then basic + easy + medium + hard else total;
    Scraped(t, Some(basic), easy, medium, hard, Some(rank), Some(streak))
  }

  /** A fallback total is never below any of the counts it adds up when those are
      non-negative. */
  lemma GfgTotalCovers(basic: nat, easy: nat, medium: nat, hard: nat, rank: int, streak: int)
    ensures var d := GfgScraped(0, basic, easy, medium, hard, rank, streak);
            d.totalProblems >= d.easySolved + d.mediumSolved + d.hardSolved
  {
  }

  /** The row after a sync writes the scraped counters into it. */
  function WithScraped(row: PlatformStats, d: Scraped): PlatformStats {
    row.(totalProblems := d.totalProblems, basicSolved := OrZero(d.basicSolved),
         easySolved := d.easySolved, mediumSolved := d.mediumSolved, hardSolved := d.hardSolved,
         contestRating := OrZero(d.contestRating), streak := OrZero(d.streak))
  }

  /** The first row of `user` on `platform`. */
  function FindStats(stats: seq<PlatformStats>, userId: nat, platform: string): (r: Option<nat>)
    ensures r.Some? ==> r.value < |stats| && stats[r.value].userId == userId && stats[r.value].platform == platform
    ensures r.None? <==> forall k :: 0 <= k < |stats| ==> stats[k].userId != userId || stats[k].platform != platform
  {
    if stats == [] then None
    else if stats[0].userId == userId && stats[0].platform == platform then Some(0)
    else match FindStats(stats[1..], userId, platform)
      case Some(k) => Some(k + 1)
      case None => None
  }

  /** The stats table after the sync: the user's row for the platform is updated, or a new
      one is added. */
  function UpsertStats(stats: seq<PlatformStats>, userId: nat, platform: string, d: Scraped): seq<PlatformStats> {
    match FindStats(stats, userId, platform)
    case Some(i) => stats[i := WithScraped(stats[i], d)]
    case None => stats + [WithScraped(NewPlatformStats(userId, platform), d)]
  }

  /** After a sync the user has a row for the platform holding exactly the scraped counters,
      and every other row is unchanged. */
  lemma UpsertStatsEffect(stats: seq<PlatformStats>, userId: nat, platform: string, d: Scraped)
    ensures var r := UpsertStats(stats, userId, platform, d);
            var i := FindStats(r, userId, platform);
            && i.Some?
            && r[i.value] == WithScraped(NewPlatformStats(userId, platform), d)
            && (forall k :: 0 <= k < |stats| && (stats[k].userId != userId || stats[k].platform != platform) ==> r[k] == stats[k])
  {
    var r := UpsertStats(stats, userId, platform, d);
    match FindStats(stats, userId, platform)
    case Some(i) =>
      assert FindStats(r, userId, platform) == Some(i) by {
        FindStatsFirst(r, userId, platform, i);
        var j := FindStats(r, userId, platform).value;
        if j < i {
          assert r[j] == stats[j];
          FindStatsFirst(stats, userId, platform, j);
        }
      }
    case None =>
      FindStatsFirst(r, userId, platform, |stats|);
  }

  lemma FindStatsFirst(stats: seq<PlatformStats>, userId: nat, platform: string, k: nat)
    requires k < |stats| && stats[k].userId == userId && stats[k].platform == platform
    ensures FindStats(stats, userId, platform).Some? && FindStats(stats, userId, platform).value <= k
  {
    if k > 0 && !(stats[0].userId == userId && stats[0].platform == platform) {
      FindStatsFirst(stats[1..], userId, platform, k - 1);
    }
  }

  // ---------------------------------------------------------------------------
  // Sample problems

  datatype SampleProblem = SampleProblem(title: string, difficulty: string, category: string)

  datatype Problem = Problem(
    title: string,
    platform: string,
    difficulty: string,
    category: string,
    url: string,
    description: string)

  /** The URL slug: the lower-cased title with every space turned into a hyphen. */
  function Slug(title: string): string {
    ReplaceAll(Lower(title), " ", "-")
  }

  /** A slug has no space and is as long as the title. */
  lemma {:induction false} SlugShape(s: string)
    ensures var r := ReplaceAll(s, " ", "-");
            ' ' !in r && |r| == |s|
    decreases |s|
  {
    if |s| >= 1 {
      SlugShape(s[1..]);
    }
  }

  /** The row `_add_sample_problems` builds for one sample. */
  function SampleRow(platform: string, p: SampleProblem): (r: Problem)
    ensures r.title == p.title && r.platform == platform && r.difficulty == p.difficulty && r.category == p.category
    ensures r.url == "https://" + platform + ".com/problems/" + Slug(p.title)
  {
    Problem(p.title, platform, p.difficulty, p.category,
            "https://" + platform + ".com/problems/" + Slug(p.title),
            "Practice problem: " + p.title + " - " + p.category)
  }

  predicate HasProblem(problems: seq<Problem>, title: string, platform: string) {
    exists k :: 0 <= k < |problems| && problems[k].title == title && problems[k].platform == platform
  }

  /** One sample: added only when no problem of that title and platform exists yet. */
  function AddSample(problems: seq<Problem>, platform: string, p: SampleProblem): (r: seq<Problem>)
    ensures |problems| <= |r| && r[..|problems|] == problems
    ensures HasProblem(r, p.title, platform)
  {
    if HasProblem(problems, p.title, platform) then problems
    else
      var r := problems + [SampleRow(platform, p)];
      assert r[|problems|].title == p.title && r[|problems|].platform == platform;
      r
  }

  /** The problem table after the samples are walked in order. */
  function AddSamples(problems: seq<Problem>, platform: string, samples: seq<SampleProblem>): (r: seq<Problem>)
    ensures |problems| <= |r| && r[..|problems|] == problems
  {
    if samples == [] then problems
    else AddSample(AddSamples(problems, platform, samples[..|samples| - 1]), platform, samples[|samples| - 1])
  }

  /** One more sample is one more `AddSample` on the table so far. */
  lemma AddSamplesStep(problems: seq<Problem>, platform: string, samples: seq<SampleProblem>, i: nat)
    requires i < |samples|
    ensures AddSamples(problems, platform, samples[..i + 1])
            == AddSample(AddSamples(problems, platform, samples[..i]), platform, samples[i])
  {
    assert samples[..i + 1][..i] == samples[..i];
  }

  /** A problem present before the table grows is still present. */
  lemma HasProblemKept(before: seq<Problem>, r: seq<Problem>, title: string, platform: string)
    requires |before| <= |r| && r[..|before|] == before && HasProblem(before, title, platform)
    ensures HasProblem(r, title, platform)
  {
    var k :| 0 <= k < |before| && before[k].title == title && before[k].platform == platform;
    assert r[k] == before[k];
  }

  /** Adding one sample keeps the table free of duplicate (title, platform) pairs. */
  lemma AddSampleUnique(problems: seq<Problem>, platform: string, p: SampleProblem)
    requires UniqueProblems(problems)
    ensures UniqueProblems(AddSample(problems, platform, p))
  {
    var r := AddSample(problems, platform, p);
    if !HasProblem(problems, p.title, platform) {
      forall i, j | 0 <= i < j < |r| ensures r[i].title != r[j].title || r[i].platform != r[j].platform {
        if j == |problems| {
          assert r[i] == problems[i];
        }
      }
    }
  }

  /** No two problems share a title and platform. */
  predicate UniqueProblems(problems: seq<Problem>) {
    forall i, j :: 0 <= i < j < |problems| ==> problems[i].title != problems[j].title || problems[i].platform != problems[j].platform
  }

  /** Afterwards every sample is present. */
  lemma {:induction false} AddSamplesPresent(problems: seq<Problem>, platform: string, samples: seq<SampleProblem>)
    ensures var r := AddSamples(problems, platform, samples);
            forall p :: p in samples ==> HasProblem(r, p.title, platform)
  {
    if samples != [] {
      var n := |samples|;
      var before := AddSamples(problems, platform, samples[..n - 1]);
      var r := AddSample(before, platform, samples[n - 1]);
      AddSamplesPresent(problems, platform, samples[..n - 1]);
      forall p | p in samples ensures HasProblem(r, p.title, platform) {
        if p != samples[n - 1] {
          assert p in samples[..n - 1];
          HasProblemKept(before, r, p.title, platform);
        }
      }
    }
  }

  /** A table without duplicates still has none after the samples are added. */
  lemma {:induction false} AddSamplesKeepUnique(problems: seq<Problem>, platform: string, samples: seq<SampleProblem>)
    requires UniqueProblems(problems)
    ensures UniqueProblems(AddSamples(problems, platform, samples))
  {
    if samples != [] {
      var n := |samples|;
      AddSamplesKeepUnique(problems, platform, samples[..n - 1]);
      AddSampleUnique(AddSamples(problems, platform, samples[..n - 1]), platform, samples[n - 1]);
    }
  }

  /** Afterwards every sample is present, and a table without duplicates still has none. */
  lemma AddSamplesEffect(problems: seq<Problem>, platform: string, samples: seq<SampleProblem>)
    ensures var r := AddSamples(problems, platform, samples);
            forall p :: p in samples ==> HasProblem(r, p.title, platform)
    ensures UniqueProblems(problems) ==> UniqueProblems(AddSamples(problems, platform, samples))
  {
    AddSamplesPresent(problems, platform, samples);
    if UniqueProblems(problems) {
      AddSamplesKeepUnique(problems, platform, samples);
    }
  }

  /** Once every sample is present, adding them again changes nothing. */
  lemma {:induction false} AddSamplesNothingNew(problems: seq<Problem>, platform: string, samples: seq<SampleProblem>)
    requires forall p :: p in samples ==> HasProblem(problems, p.title, platform)
    ensures AddSamples(problems, platform, samples) == problems
  {
    if samples != [] {
      var n := |samples|;
      assert forall p :: p in samples[..n - 1] ==> p in samples;
      AddSamplesNothingNew(problems, platform, samples[..n - 1]);
    }
  }

  /** Adding the samples twice is adding them once. */
  lemma AddSamplesIdempotent(problems: seq<Problem>, platform: string, samples: seq<SampleProblem>)
    ensures var once := AddSamples(problems, platform, samples);
            AddSamples(once, platform, samples) == once
  {
    AddSamplesEffect(problems, platform, samples);
    AddSamplesNothingNew(AddSamples(problems, platform, samples), platform, samples);
  }

  // ---------------------------------------------------------------------------
  // Progress summary

  datatype PlatformSummary = PlatformSummary(
    name: string, color: string, total: int, easy: int, medium: int, hard: int, rating: int, streak: int)

  datatype Progress = Progress(
    totalProblems: int, totalEasy: int, totalMedium: int, totalHard: int,
    platforms: map<string, PlatformSummary>)

  function Summary(s: PlatformStats): PlatformSummary
    requires s.platform in Platforms
  {
    PlatformSummary(Platforms[s.platform].name, Platforms[s.platform].color, s.totalProblems,
                    s.easySolved, s.mediumSolved, s.hardSolved, s.contestRating, s.streak)
  }

  /** The summary of rows `rows`, walked in order: the four sums, and per platform the
      summary of its last row. A row of an unknown platform raises a KeyError. */
  function ProgressOf(rows: seq<PlatformStats>): (r: Result<Progress>)
    ensures r.Err? <==> exists k :: 0 <= k < |rows| && rows[k].platform !in Platforms
    ensures r.Ok? ==> r.value.platforms.Keys == set k | 0 <= k < |rows| :: rows[k].platform
  {
    if rows == [] then Ok(Progress(0, 0, 0, 0, map[]))
    else
      var n := |rows|;
      var s := rows[n - 1];
      match ProgressOf(rows[..n - 1])
      case Err(e) =>
        assert exists k :: 0 <= k < n && rows[k].platform !in Platforms by {
          var k :| 0 <= k < n - 1 && rows[..n - 1][k].platform !in Platforms;
          assert rows[k].platform !in Platforms;
        }
        Err(e)
      case Ok(p) =>
        if s.platform !in Platforms then Err("KeyError: " + s.platform)
        else
          var q := Progress(p.totalProblems + s.totalProblems, p.totalEasy + s.easySolved,
                            p.totalMedium + s.mediumSolved, p.totalHard + s.hardSolved,
                            p.platforms[s.platform := Summary(s)]);
          assert forall k :: 0 <= k < n - 1 ==> rows[..n - 1][k] == rows[k];
          assert (set k | 0 <= k < n :: rows[k].platform) == (set k | 0 <= k < n - 1 :: rows[k].platform) + {s.platform};
          Ok(q)
  }

  /** One more known row adds its counters to the totals and its summary to the map. */
  lemma ProgressStep(rows: seq<PlatformStats>, i: nat, p: Progress)
    requires i < |rows| && rows[i].platform in Platforms && ProgressOf(rows[..i]) == Ok(p)
    ensures ProgressOf(rows[..i + 1]) == Ok(Progress(
              p.totalProblems + rows[i].totalProblems, p.totalEasy + rows[i].easySolved,
              p.totalMedium + rows[i].mediumSolved, p.totalHard + rows[i].hardSolved,
              p.platforms[rows[i].platform := Summary(rows[i])]))
  {
    assert rows[..i + 1][..i] == rows[..i];
  }

  /** The first row of an unknown platform decides the error, whatever follows it. */
  lemma {:induction false} ProgressFirstError(rows: seq<PlatformStats>, i: nat, p: Progress)
    requires i < |rows| && rows[i].platform !in Platforms && ProgressOf(rows[..i]) == Ok(p)
    ensures ProgressOf(rows) == Err("KeyError: " + rows[i].platform)
    decreases |rows|
  {
    var n := |rows|;
    if n == i + 1 {
      assert rows[..n - 1] == rows[..i];
    } else {
      assert rows[..n - 1][..i] == rows[..i];
      ProgressFirstError(rows[..n - 1], i, p);
    }
  }

  function SumTotal(rows: seq<PlatformStats>): int {
    if rows == [] then 0 else SumTotal(rows[..|rows| - 1]) + rows[|rows| - 1].totalProblems
  }

  function SumEasy(rows: seq<PlatformStats>): int {
    if rows == [] then 0 else SumEasy(rows[..|rows| - 1]) + rows[|rows| - 1].easySolved
  }

  function SumMedium(rows: seq<PlatformStats>): int {
    if rows == [] then 0 else SumMedium(rows[..|rows| - 1]) + rows[|rows| - 1].mediumSolved
  }

  function SumHard(rows: seq<PlatformStats>): int {
    if rows == [] then 0 else SumHard(rows[..|rows| - 1]) + rows[|rows| - 1].hardSolved
  }

  /** The summary's totals are the sums of the rows' counters. */
  lemma {:induction false} ProgressSums(rows: seq<PlatformStats>)
    requires ProgressOf(rows).Ok?
    ensures var p := ProgressOf(rows).value;
            && p.totalProblems == SumTotal(rows) && p.totalEasy == SumEasy(rows)
            && p.totalMedium == SumMedium(rows) && p.totalHard == SumHard(rows)
  {
    if rows != [] {
      ProgressSums(rows[..|rows| - 1]);
    }
  }

  /** When every row's total covers its three difficulties, so does the summary's. */
  lemma {:induction false} TotalCoversDifficulties(rows: seq<PlatformStats>)
    requires forall k :: 0 <= k < |rows| ==> rows[k].totalProblems >= rows[k].easySolved + rows[k].mediumSolved + rows[k].hardSolved
    ensures SumTotal(rows) >= SumEasy(rows) + SumMedium(rows) + SumHard(rows)
  {
    if rows != [] {
      TotalCoversDifficulties(rows[..|rows| - 1]);
    }
  }

  // ---------------------------------------------------------------------------
  // GeeksforGeeks profile names

  /** The cleaning of `_scrape_geeksforgeeks_data`: the segment after '/user/' or
      '/profile/' of a profile URL, then the first path segment; a scheme and 'www.' are
      dropped from what still starts with 'http'; surrounding whitespace is trimmed. */
  function CleanGfgUsername(username: string): string {
    var fromUrl :=
      if Contains(username, "geeksforgeeks.org") then
        var picked :=
          if Contains(username, "/user/") then BeforeFirst(AfterLast(username, "/user/"), '/')
          else if Contains(username, "/profile/") then BeforeFirst(AfterLast(username, "/profile/"), '/')
          else username;
        BeforeFirst(TrimEndChar(picked, '/'), '/')
      else username;
    var noScheme :=
      if StartsWith(fromUrl, "http") then
        BeforeFirst(ReplaceAll(ReplaceAll(ReplaceAll(fromUrl, "https://", ""), "http://", ""), "www.", ""), '/')
      else fromUrl;
    Strip(noScheme)
  }

  /** The validation after cleaning: empty, a bare scheme, or a single character is refused. */
  function NormaliseGfgUsername(username: string): (r: Result<string>)
    ensures r.Ok? ==> r.value == CleanGfgUsername(username)
    ensures r.Ok? <==> |CleanGfgUsername(username)| >= 2 && CleanGfgUsername(username) !in {"https:", "http:"}
  {
    var cleaned := CleanGfgUsername(username);
    if cleaned == "" || cleaned in ["https:", "http:", ""] || |cleaned| < 2 then
      Err("Invalid username after cleaning: '" + username + "' -> '" + cleaned + "'. Please provide a valid GeeksforGeeks username.")
    else Ok(cleaned)
  }

  /** An accepted name carries no surrounding whitespace. */
  lemma NormalisedIsTrimmed(username: string)
    requires NormaliseGfgUsername(username).Ok?
    ensures var u := NormaliseGfgUsername(username).value;
            Strip(u) == u && |u| >= 2
  {
    StripTwice(username);
  }

  lemma StripTwice(username: string)
    ensures Strip(CleanGfgUsername(username)) == CleanGfgUsername(username)
  {
    var fromUrl :=
      if Contains(username, "geeksforgeeks.org") then
        var picked :=
          if Contains(username, "/user/") then BeforeFirst(AfterLast(username, "/user/"), '/')
          else if Contains(username, "/profile/") then BeforeFirst(AfterLast(username, "/profile/"), '/')
          else username;
        BeforeFirst(TrimEndChar(picked, '/'), '/')
      else username;
    var noScheme :=
      if StartsWith(fromUrl, "http") then
        BeforeFirst(ReplaceAll(ReplaceAll(ReplaceAll(fromUrl, "https://", ""), "http://", ""), "www.", ""), '/')
      else fromUrl;
    StripIdempotent(noScheme);
  }

  /** A plain profile name, one that is not a URL and has no surrounding whitespace, is
      accepted unchanged once it has two characters. */
  lemma PlainNameKept(username: string)
    requires !Contains(username, "geeksforgeeks.org") && !StartsWith(username, "http")
    requires Strip(username) == username && |username| >= 2
    ensures NormaliseGfgUsername(username) == Ok(username)
  {
    PlainNameClean(username);
    NotBareScheme(username);
  }

  lemma NotBareScheme(username: string)
    requires !StartsWith(username, "http")
    ensures username !in {"https:", "http:"}
  {
    BareSchemesStartWithHttp();
  }

  lemma PlainNameClean(username: string)
    requires !Contains(username, "geeksforgeeks.org") && !StartsWith(username, "http")
    requires Strip(username) == username
    ensures CleanGfgUsername(username) == username
  {
  }

  lemma BareSchemesStartWithHttp()
    ensures StartsWith("https:", "http") && StartsWith("http:", "http")
  {
    assert "https:"[..4] == "http";
    assert "http:"[..4] == "http";
  }

  /** The loop of `get_platform_progress`: the four totals are accumulated row by row;
      each platform keeps the summary of its last row. */
  method AccumulateProgress(rows: seq<PlatformStats>) returns (r: Result<Progress>)
    ensures r == ProgressOf(rows)
  {
    var totalProblems, totalEasy, totalMedium, totalHard := 0, 0, 0, 0;
    var platforms: map<string, PlatformSummary> := map[];
    var i := 0;
    while i < |rows|
      invariant 0 <= i <= |rows|
      invariant ProgressOf(rows[..i]) == Ok(Progress(totalProblems, totalEasy, totalMedium, totalHard, platforms))
    {
      var s := rows[i];
      if s.platform !in Platforms {
        ProgressFirstError(rows, i, Progress(totalProblems, totalEasy, totalMedium, totalHard, platforms));
        return Err("KeyError: " + s.platform);
      }
      ProgressStep(rows, i, Progress(totalProblems, totalEasy, totalMedium, totalHard, platforms));
      totalProblems := totalProblems + s.totalProblems;
      totalEasy := totalEasy + s.easySolved;
      totalMedium := totalMedium + s.mediumSolved;
      totalHard := totalHard + s.hardSolved;
      platforms := platforms[s.platform := Summary(s)];
      i := i + 1;
    }
    assert rows[..i] == rows;
    r := Ok(Progress(totalProblems, totalEasy, totalMedium, totalHard, platforms));
  }

  // ---------------------------------------------------------------------------
  // The tracker over its two tables

  class Tracker {
    var stats: seq<PlatformStats>
    var problems: seq<Problem>

    constructor ()
      ensures stats == [] && problems == []
    {
      stats := [];
      problems := [];
    }

    /** `_add_sample_problems(platform)` for the platform's sample list `samples`. */
    method AddSampleProblems(platform: string, samples: seq<SampleProblem>)
      modifies this
      ensures problems == AddSamples(old(problems), platform, samples) && stats == old(stats)
    {
      var i := 0;
      while i < |samples|
        invariant 0 <= i <= |samples|
        invariant problems == AddSamples(old(problems), platform, samples[..i]) && stats == old(stats)
      {
        AddSamplesStep(old(problems), platform, samples, i);
        var p := samples[i];
        var existing := HasProblem(problems, p.title, platform);
        if !existing {
          var url := "https://" + platform + ".com/problems/" + ReplaceAll(Lower(p.title), " ", "-");
          var row := Problem(p.title, platform, p.difficulty, p.category, url,
                             "Practice problem: " + p.title + " - " + p.category);
          assert row == SampleRow(platform, p);
          problems := problems + [row];
        }
        i := i + 1;
      }
      assert samples[..i] == samples;
    }

    /** `sync_platform_data` with the scraper's result `d` already in hand: an unsupported
        platform is refused; otherwise the user's row is updated or created and, except for
        GitHub, the platform's samples are added. */
    method SyncPlatformData(userId: nat, platform: string, d: Scraped, samples: seq<SampleProblem>)
      returns (r: Result<PlatformStats>)
      modifies this
      ensures platform !in Platforms ==>
                r == Err("Unsupported platform: " + platform) && stats == old(stats) && problems == old(problems)
      ensures platform in Platforms ==>
                && stats == UpsertStats(old(stats), userId, platform, d)
                && r == Ok(WithScraped(NewPlatformStats(userId, platform), d))
                && problems == if platform == "github" then old(problems) else AddSamples(old(problems), platform, samples)
    {
      if platform !in Platforms {
        return Err("Unsupported platform: " + platform);
      }
      var found := FindStats(stats, userId, platform);
      var row: PlatformStats;
      if found.None? {
        row := NewPlatformStats(userId, platform);
        stats := stats + [row];
        found := Some(|stats| - 1);
      }
      var i := found.value;
      row := stats[i].(totalProblems := d.totalProblems, basicSolved := OrZero(d.basicSolved),
                       easySolved := d.easySolved, mediumSolved := d.mediumSolved, hardSolved := d.hardSolved,
                       contestRating := OrZero(d.contestRating), streak := OrZero(d.streak));
      stats := stats[i := row];
      if platform != "github" {
        AddSampleProblems(platform, samples);
      }
      r := Ok(row);
    }

    /** `get_platform_progress(user_id)` over the user's rows. */
    method GetPlatformProgress(userId: nat) returns (r: Result<Progress>)
      ensures r == ProgressOf(StatsOf(stats, userId))
    {
      r := AccumulateProgress(StatsOf(stats, userId));
    }
  }
}
