/**
 * The mood log of the mood tracker panel: one entry per calendar date, a tag toggle for the
 * entry form, the average mood, the recent-trend classification, today's entry, and the
 * newest-first listing, which the panel produces by sorting its state array in place.
 *
 * Dates are ISO 8601 calendar dates ("YYYY-MM-DD") kept as strings; their chronological
 * order is the lexicographic order `Text.LexLeq`.
 */
module MoodTracker {
  import opened Wrappers
  import Seqs
  import Text
  import Numbers
  import Decimal

  /**
   * A self-reported mood: 1 (very sad) to 5 (very happy). The mood buttons are built from
   * `Object.keys` of the emoji table, so the value an entry holds at run time is the key
   * string `MoodKey(m)`, not the number `m`.
   */
  type Mood = m: int | 1 <= m <= 5 witness 3

  datatype MoodEntry = MoodEntry(id: string, date: string, mood: Mood, note: string, tags: seq<string>)

  /** The trend label; `Neutral` is what a log of fewer than two entries gets (shown as Stable). */
  datatype Trend = Neutral | Improving | Declining | Stable

  /** The log invariant: no two entries carry the same date. */
  predicate OnePerDate(entries: seq<MoodEntry>)
  {
    forall i, j :: 0 <= i < j < |entries| ==> entries[i].date != entries[j].date
  }

  /** The chronological order of the newest-first listing. */
  predicate SortedNewestFirst(entries: seq<MoodEntry>)
  {
    forall i, j :: 0 <= i < j < |entries| ==> Text.LexLeq(entries[j].date, entries[i].date)
  }

  // ---------------------------------------------------------------------------------------
  // Saving an entry

  /** The entries whose date differs from `date`, in their original order. */
  function WithoutDate(entries: seq<MoodEntry>, date: string): seq<MoodEntry>
  {
    Seqs.Filter((e: MoodEntry) => e.date != date, entries)
  }

  /** The log after saving `entry`: any entry of the same date is dropped and `entry` appended. */
  function Saved(entries: seq<MoodEntry>, entry: MoodEntry): seq<MoodEntry>
  {
    WithoutDate(entries, entry.date) + [entry]
  }

  /**
   * Removing a date keeps one entry per date: the entries left are distinct entries of the
   * log, and distinct entries of the log carry distinct dates.
   */
  lemma WithoutDateKeepsOnePerDate(entries: seq<MoodEntry>, date: string)
    requires OnePerDate(entries)
    ensures OnePerDate(WithoutDate(entries, date))
  {
    var w := WithoutDate(entries, date);
    Seqs.FilterKeepsNoDuplicates((e: MoodEntry) => e.date != date, entries);
    forall i, j | 0 <= i < j < |w| ensures w[i].date != w[j].date {
      assert w[i] in entries && w[j] in entries && w[i] != w[j];
      var a :| 0 <= a < |entries| && entries[a] == w[i];
      var b :| 0 <= b < |entries| && entries[b] == w[j];
      assert a != b;
    }
  }

  /**
   * Saving keeps the invariant; afterwards exactly one entry carries the saved date, the new
   * entry, placed last; the entries before it are those of the other dates, in their old
   * order, and none of them is lost.
   */
  lemma SavedReplacesSameDate(entries: seq<MoodEntry>, entry: MoodEntry)
    requires OnePerDate(entries)
    ensures var r := Saved(entries, entry);
      && OnePerDate(r)
      && r[|r| - 1] == entry
      && (forall i :: 0 <= i < |r| ==> (r[i].date == entry.date <==> i == |r| - 1))
      && Seqs.IsSubsequence(r[..|r| - 1], entries)
      && (forall e :: e in entries && e.date != entry.date ==> e in r)
  {
    var w := WithoutDate(entries, entry.date);
    var r := Saved(entries, entry);
    WithoutDateKeepsOnePerDate(entries, entry.date);
    Seqs.FilterIsSubsequence((e: MoodEntry) => e.date != entry.date, entries);
    assert r[..|r| - 1] == w;
    forall i | 0 <= i < |w| ensures w[i].date != entry.date {
      assert w[i] in w;
    }
  }

  // ---------------------------------------------------------------------------------------
  // Average and trend

  function MoodOf(e: MoodEntry): int
  {
    e.mood
  }

  function MoodSum(entries: seq<MoodEntry>): int
  {
    Numbers.SumOf(entries, MoodOf)
  }

  /** The mean mood of a non-empty window, exactly. */
  function Mean(window: seq<MoodEntry>): (r: real)
    requires window != []
    ensures 1.0 <= r <= 5.0
  {
    Numbers.MeanBetween(window, MoodOf, 1, 5);
    MoodSum(window) as real / |window| as real
  }

  /**
   * `getAverageMood`: 0 for an empty log, otherwise the mean mood, which lies in [1, 5] and
   * times the number of entries gives back the sum of the moods.
   */
  function AverageMood(entries: seq<MoodEntry>): (r: real)
    ensures entries == [] ==> r == 0.0
    ensures entries != [] ==> 1.0 <= r <= 5.0 && r * |entries| as real == MoodSum(entries) as real
  {
    if entries == [] then 0.0 else Mean(entries)
  }

  function Min(a: int, b: int): int { if a < b then a else b }
  function Max(a: int, b: int): int { if a < b then b else a }

  /** `entries.slice(-7)`: the last seven entries of the list. */
  function RecentWindow(entries: seq<MoodEntry>): seq<MoodEntry>
  {
    entries[|entries| - Min(7, |entries|)..]
  }

  /** `entries.slice(-14, -7)`: the up to seven entries before those. */
  function OlderWindow(entries: seq<MoodEntry>): seq<MoodEntry>
  {
    entries[Max(|entries| - 14, 0)..Max(|entries| - 7, 0)]
  }

  /**
   * `getMoodTrend` over the list it is given: the mean of the recent window against the mean
   * of the older window (the recent mean when that window is empty), with a 0.3 margin.
   */
  function MoodTrend(entries: seq<MoodEntry>): (r: Trend)
    ensures r == Neutral <==> |entries| < 2
    ensures r == Improving <==>
      |entries| >= 8 && Mean(RecentWindow(entries)) > Mean(OlderWindow(entries)) + 0.3
    ensures r == Declining <==>
      |entries| >= 8 && Mean(RecentWindow(entries)) < Mean(OlderWindow(entries)) - 0.3
  {
    if |entries| < 2 then Neutral
    else
      var recentAvg := Mean(RecentWindow(entries));
      var olderAvg := if |OlderWindow(entries)| > 0 then Mean(OlderWindow(entries)) else recentAvg;
      if recentAvg > olderAvg + 0.3 then Improving
      else if recentAvg < olderAvg - 0.3 then Declining
      else Stable
  }

  /** A log of fewer than two entries has no trend. */
  lemma TrendOfShortLog(entries: seq<MoodEntry>)
    requires |entries| < 2
    ensures MoodTrend(entries) == Neutral
  {
  }

  /** With two to seven entries the older window is empty, so the trend is stable. */
  lemma TrendWithoutOlderWindow(entries: seq<MoodEntry>)
    requires 2 <= |entries| <= 7
    ensures OlderWindow(entries) == [] && MoodTrend(entries) == Stable
  {
  }

  /** A log whose moods are all the same never shows a rise or a fall. */
  lemma TrendOfSteadyMood(entries: seq<MoodEntry>, m: Mood)
    requires forall i :: 0 <= i < |entries| ==> entries[i].mood == m
    ensures MoodTrend(entries) == Neutral || MoodTrend(entries) == Stable
  {
    if |entries| >= 2 {
      var recent, older := RecentWindow(entries), OlderWindow(entries);
      Numbers.SumOfConstant(recent, MoodOf, m);
      assert Mean(recent) == m as real;
      if older != [] {
        Numbers.SumOfConstant(older, MoodOf, m);
        assert Mean(older) == m as real;
      }
    }
  }

  /** Recent moods all at least one point above every older mood read as improving. */
  lemma TrendOfClearRise(entries: seq<MoodEntry>, low: int)
    requires |entries| >= 8
    requires forall i :: 0 <= i < |OlderWindow(entries)| ==> OlderWindow(entries)[i].mood <= low
    requires forall i :: 0 <= i < |RecentWindow(entries)| ==> RecentWindow(entries)[i].mood >= low + 1
    ensures MoodTrend(entries) == Improving
  {
    Numbers.MeanBetween(OlderWindow(entries), MoodOf, 1, low);
    Numbers.MeanBetween(RecentWindow(entries), MoodOf, low + 1, 5);
  }

  /** Recent moods all at least one point below every older mood read as declining. */
  lemma TrendOfClearFall(entries: seq<MoodEntry>, high: int)
    requires |entries| >= 8
    requires forall i :: 0 <= i < |OlderWindow(entries)| ==> OlderWindow(entries)[i].mood >= high
    requires forall i :: 0 <= i < |RecentWindow(entries)| ==> RecentWindow(entries)[i].mood <= high - 1
    ensures MoodTrend(entries) == Declining
  {
    Numbers.MeanBetween(OlderWindow(entries), MoodOf, high, 5);
    Numbers.MeanBetween(RecentWindow(entries), MoodOf, 1, high - 1);
  }

  // ---------------------------------------------------------------------------------------
  // Average and trend as written: string moods

  /** The key the mood button stores: the one-digit string "1" to "5". */
  function MoodKey(m: Mood): (k: string)
    ensures |k| == 1 && Decimal.AllDigits(k, 10) && Decimal.NumeralValue(k, 10) == m
  {
    [Decimal.DigitChar(m)]
  }

  /** The moods' keys joined in list order, which is what `acc + entry.mood` builds. */
  function MoodDigits(entries: seq<MoodEntry>): (s: string)
    ensures |s| == |entries| && Decimal.AllDigits(s, 10)
    ensures forall i :: 0 <= i < |s| ==> Decimal.DigitValue(s[i]) == entries[i].mood
  {
    if entries == [] then []
    else MoodDigits(entries[..|entries| - 1]) + MoodKey(entries[|entries| - 1].mood)
  }

  /** `11...1` with `n` ones. */
  function Repunit(n: nat): nat
  {
    if n == 0 then 0 else 10 * Repunit(n - 1) + 1
  }

  /**
   * The number `/` reads from `reduce((acc, entry) => acc + entry.mood, 0)`: the number 0
   * followed by string moods is the string "0" and the moods' digits. A window of `n` moods,
   * each 1 to 5, spells a number between `11...1` and `55...5`.
   */
  function JoinedMoodValue(entries: seq<MoodEntry>): (v: nat)
    ensures Repunit(|entries|) <= v <= 5 * Repunit(|entries|)
  {
    Decimal.LeadingZeroValue(MoodDigits(entries));
    JoinedValueBounds(entries);
    Decimal.NumeralValue("0" + MoodDigits(entries), 10)
  }

  /** The leading 0 of the joined sum does not change the number it spells. */
  lemma JoinedValueIsNumeral(entries: seq<MoodEntry>)
    ensures JoinedMoodValue(entries) == Decimal.NumeralValue(MoodDigits(entries), 10)
  {
    Decimal.LeadingZeroValue(MoodDigits(entries));
  }

  /** Appending an entry appends its digit: the value is ten times the old one plus the mood. */
  lemma MoodDigitsValueStep(entries: seq<MoodEntry>)
    requires entries != []
    ensures Decimal.NumeralValue(MoodDigits(entries), 10)
      == 10 * Decimal.NumeralValue(MoodDigits(entries[..|entries| - 1]), 10) + entries[|entries| - 1].mood
  {
    var s := MoodDigits(entries);
    assert s[..|s| - 1] == MoodDigits(entries[..|entries| - 1]);
  }

  lemma {:induction false} JoinedValueBounds(entries: seq<MoodEntry>)
    ensures Repunit(|entries|) <= Decimal.NumeralValue(MoodDigits(entries), 10) <= 5 * Repunit(|entries|)
  {
    if entries != [] {
      MoodDigitsValueStep(entries);
      JoinedValueBounds(entries[..|entries| - 1]);
    }
  }

  /** A window of `n` equal moods `m` spells `mm...m`. */
  lemma {:induction false} JoinedValueOfSteadyMood(entries: seq<MoodEntry>, m: Mood)
    requires forall i :: 0 <= i < |entries| ==> entries[i].mood == m
    ensures JoinedMoodValue(entries) == m * Repunit(|entries|)
  {
    JoinedValueIsNumeral(entries);
    if entries != [] {
      MoodDigitsValueStep(entries);
      JoinedValueOfSteadyMood(entries[..|entries| - 1], m);
      JoinedValueIsNumeral(entries[..|entries| - 1]);
    }
  }

  /**
   * `getAverageMood` as the panel computes it: 0 for an empty log, otherwise the number the
   * joined digits spell, divided by the number of entries. A single entry shows its mood;
   * from two entries on, the figure leaves the 1-5 scale.
   */
  function AverageMoodAsWritten(entries: seq<MoodEntry>): (r: real)
    ensures entries == [] ==> r == 0.0
    ensures |entries| == 1 ==> r == entries[0].mood as real
    ensures |entries| >= 2 ==> r > 5.0
  {
    if entries == [] then 0.0
    else
      var n := |entries|;
      var v := JoinedMoodValue(entries);
      if n >= 2 then
        RepunitOutgrowsFives(n);
        Numbers.QuotientAbove(v as real, n as real, 5.0);
        v as real / n as real
      else
        SingleEntryValue(entries);
        v as real / n as real
  }

  lemma SingleEntryValue(entries: seq<MoodEntry>)
    requires |entries| == 1
    ensures JoinedMoodValue(entries) == entries[0].mood
  {
    JoinedValueIsNumeral(entries);
    MoodDigitsValueStep(entries);
    assert entries[..0] == [];
  }

  lemma {:induction false} RepunitOutgrowsFives(n: nat)
    requires n >= 2
    ensures Repunit(n) > 5 * n
  {
    if n > 2 {
      RepunitOutgrowsFives(n - 1);
    }
  }

  /**
   * `getMoodTrend` as the panel computes it, with string moods: each window's "mean" is the
   * number its joined digits spell over its length. Two to seven entries are stable; eight to
   * thirteen are always improving (a seven-digit number over 7 against at most six digits
   * over their count); from fourteen on, the two seven-digit numbers decide, with a margin of 3.
   */
  function MoodTrendAsWritten(entries: seq<MoodEntry>): (r: Trend)
    ensures r == Neutral <==> |entries| < 2
    ensures 2 <= |entries| <= 7 ==> r == Stable
    ensures 8 <= |entries| <= 13 ==> r == Improving
    ensures |entries| >= 14 ==>
      && (r == Improving <==>
            JoinedMoodValue(RecentWindow(entries)) >= JoinedMoodValue(OlderWindow(entries)) + 3)
      && (r == Declining <==>
            JoinedMoodValue(RecentWindow(entries)) + 3 <= JoinedMoodValue(OlderWindow(entries)))
  {
    if |entries| < 2 then Neutral
    else
      var recent, older := RecentWindow(entries), OlderWindow(entries);
      WindowLengths(entries);
      JoinedTrend(JoinedMoodValue(recent), |recent|, JoinedMoodValue(older), |older|)
  }

  /**
   * The comparison at the end of `getMoodTrend`, on the numbers the two joined window sums
   * spell and the window lengths; an empty older window takes the recent mean.
   */
  function JoinedTrend(recent: nat, recentLen: nat, older: nat, olderLen: nat): (r: Trend)
    requires recentLen > 0
    ensures r != Neutral
    ensures olderLen == 0 ==> r == Stable
    ensures recentLen == 7 && 1 <= olderLen <= 6 && recent >= Repunit(7) && older <= 5 * Repunit(olderLen)
      ==> r == Improving
    ensures recentLen == 7 && olderLen == 7 ==>
      (r == Improving <==> recent >= older + 3) && (r == Declining <==> recent + 3 <= older)
  {
    var recentAvg := recent as real / recentLen as real;
    var olderAvg := if olderLen > 0 then older as real / olderLen as real else recentAvg;
    if recentLen == 7 && 1 <= olderLen <= 6 && recent >= Repunit(7) && older <= 5 * Repunit(olderLen) then
      ShortOlderWindowLoses(recent, older, olderLen);
      TrendByMeans(recentAvg, olderAvg)
    else if recentLen == 7 && olderLen == 7 then
      FullWindowsCompare(recent, older);
      TrendByMeans(recentAvg, olderAvg)
    else
      TrendByMeans(recentAvg, olderAvg)
  }

  /** `slice(-7)` holds up to seven entries; `slice(-14, -7)` the up to seven before them. */
  lemma WindowLengths(entries: seq<MoodEntry>)
    ensures |RecentWindow(entries)| == Min(7, |entries|)
    ensures |entries| <= 7 ==> OlderWindow(entries) == []
    ensures 8 <= |entries| <= 13 ==> |OlderWindow(entries)| == |entries| - 7
    ensures |entries| >= 14 ==> |OlderWindow(entries)| == 7
  {
  }

  /** Two seven-entry windows: the 0.3 margin on the means is a margin of 3 on the numbers. */
  lemma FullWindowsCompare(recent: nat, older: nat)
    ensures recent as real / 7.0 > older as real / 7.0 + 0.3 <==> recent >= older + 3
    ensures recent as real / 7.0 < older as real / 7.0 - 0.3 <==> recent + 3 <= older
  {
  }

  /** The comparison of the two window means, with the 0.3 margin. */
  function TrendByMeans(recentAvg: real, olderAvg: real): (r: Trend)
    ensures r != Neutral
    ensures r == Improving <==> recentAvg > olderAvg + 0.3
    ensures r == Declining <==> recentAvg < olderAvg - 0.3
  {
    if recentAvg > olderAvg + 0.3 then Improving
    else if recentAvg < olderAvg - 0.3 then Declining
    else Stable
  }

  /** A seven-digit window over 7 beats any window of one to six digits 1-5 over its length. */
  lemma ShortOlderWindowLoses(recent: nat, older: nat, k: nat)
    requires 1 <= k <= 6 && recent >= Repunit(7) && older <= 5 * Repunit(k)
    ensures recent as real / 7.0 > older as real / k as real + 0.3
  {
    assert Repunit(7) == 1111111;
    assert older <= 555555 by {
      assert Repunit(6) == 111111;
      if k < 6 { RepunitMonotone(k, 6); }
    }
    assert older as real / k as real <= older as real;
  }

  lemma {:induction false} RepunitMonotone(j: nat, k: nat)
    requires j <= k
    ensures Repunit(j) <= Repunit(k)
  {
    if j < k {
      RepunitMonotone(j, k - 1);
    }
  }

  /**
   * With string moods, eight to thirteen entries of one steady mood are reported as
   * improving, while the numeric reading calls them stable.
   */
  lemma SteadyMoodReadsImprovingAsWritten(entries: seq<MoodEntry>, m: Mood)
    requires 8 <= |entries| <= 13
    requires forall i :: 0 <= i < |entries| ==> entries[i].mood == m
    ensures MoodTrendAsWritten(entries) == Improving
    ensures MoodTrend(entries) == Stable
  {
    TrendOfSteadyMood(entries, m);
  }

  /** With string moods, a mood of 4 and then a mood of 2 average to 21.0, not 3.0. */
  lemma AverageOfFourThenTwo()
    ensures AverageMoodAsWritten([DayEntry("01", 4), DayEntry("02", 2)]) == 21.0
    ensures AverageMood([DayEntry("01", 4), DayEntry("02", 2)]) == 3.0
  {
    var log := [DayEntry("01", 4), DayEntry("02", 2)];
    JoinedValueIsNumeral(log);
    MoodDigitsValueStep(log);
    MoodDigitsValueStep(log[..1]);
    assert log[..1][..0] == [];
    assert JoinedMoodValue(log) == 42;
    assert log[1..][1..] == [];
    assert MoodSum(log) == 6;
  }

  /**
   * The trend of a log listed newest first, read in chronological order: the recent window
   * is then the newest seven entries. This is the trend the panel evidently means to report;
   * as written it computes `MoodTrend` of the newest-first array instead.
   */
  function ChronologicalTrend(entries: seq<MoodEntry>): (r: Trend)
    ensures r == Neutral <==> |entries| < 2
    ensures r == Improving || r == Declining ==> |entries| >= 8
    ensures |entries| <= 7 ==> r == MoodTrend(entries)
  {
    MoodTrend(Seqs.Reversed(entries))
  }

  /**
   * On a newest-first listing, the windows the panel's code takes hold the OLDEST entries as
   * "recent": every date in the recent window is no later than every date in the older one.
   */
  lemma RenderedWindowsHoldOldest(entries: seq<MoodEntry>)
    requires SortedNewestFirst(entries)
    ensures forall x, y :: x in RecentWindow(entries) && y in OlderWindow(entries) ==> Text.LexLeq(x.date, y.date)
  {
    var n := |entries|;
    forall x, y | x in RecentWindow(entries) && y in OlderWindow(entries)
      ensures Text.LexLeq(x.date, y.date)
    {
      var i :| n - Min(7, n) <= i < n && entries[i] == x;
      var j :| Max(n - 14, 0) <= j < Max(n - 7, 0) && entries[j] == y;
    }
  }

  /** Read chronologically, the recent window holds the newest entries. */
  lemma ChronologicalWindowsHoldNewest(entries: seq<MoodEntry>)
    requires SortedNewestFirst(entries)
    ensures var c := Seqs.Reversed(entries);
      forall x, y :: x in RecentWindow(c) && y in OlderWindow(c) ==> Text.LexLeq(y.date, x.date)
  {
    var n := |entries|;
    var c := Seqs.Reversed(entries);
    forall x, y | x in RecentWindow(c) && y in OlderWindow(c)
      ensures Text.LexLeq(y.date, x.date)
    {
      var recent, older := RecentWindow(c), OlderWindow(c);
      var a :| 0 <= a < |recent| && recent[a] == x;
      var b :| 0 <= b < |older| && older[b] == y;
      var i, j := n - Min(7, n) + a, Max(n - 14, 0) + b;
      assert c[i] == x && c[j] == y && j < i;
      ReversedIsOldestFirst(entries, j, i);
    }
  }

  /** Reversing a newest-first listing puts earlier positions no later than later ones. */
  lemma ReversedIsOldestFirst(entries: seq<MoodEntry>, j: int, i: int)
    requires SortedNewestFirst(entries) && 0 <= j < i < |entries|
    ensures Text.LexLeq(Seqs.Reversed(entries)[j].date, Seqs.Reversed(entries)[i].date)
  {
    var n := |entries|;
    assert Seqs.Reversed(entries)[i] == entries[n - 1 - i];
    assert Seqs.Reversed(entries)[j] == entries[n - 1 - j];
  }

  /** An entry of July 2025; `day` is the two-digit day of the month. */
  function DayEntry(day: string, mood: Mood): MoodEntry
  {
    MoodEntry(day, "2025-07-" + day, mood, "", [])
  }

  /** Two weeks listed newest first: 5 on each of the last seven days, 1 on each of the first seven. */
  function RisingFortnight(): seq<MoodEntry>
  {
    [ DayEntry("14", 5), DayEntry("13", 5), DayEntry("12", 5), DayEntry("11", 5),
      DayEntry("10", 5), DayEntry("09", 5), DayEntry("08", 5), DayEntry("07", 1),
      DayEntry("06", 1), DayEntry("05", 1), DayEntry("04", 1), DayEntry("03", 1),
      DayEntry("02", 1), DayEntry("01", 1) ]
  }

  lemma RisingFortnightIsNewestFirst()
    ensures SortedNewestFirst(RisingFortnight())
  {
    var s := RisingFortnight();
    forall k | 0 < k < |s| ensures Text.LexLeq(s[k].date, s[k - 1].date) {
      Text.LexLeqCommonPrefix("2025-07-", s[k].id, s[k - 1].id);
    }
    SortedFromAdjacent(s);
  }

  /**
   * The trend as the panel's code computes it, on the newest-first array its render leaves
   * behind, reports a fortnight of rising mood as declining, whether the moods are read as
   * numbers or, as the panel stores them, as strings.
   */
  lemma RenderedTrendReversesRisingMood()
    ensures SortedNewestFirst(RisingFortnight())
    ensures MoodTrend(RisingFortnight()) == Declining
    ensures MoodTrendAsWritten(RisingFortnight()) == Declining
  {
    RisingFortnightIsNewestFirst();
    var s := RisingFortnight();
    assert forall i :: 0 <= i < 7 ==> s[i].mood == 5;
    assert forall i :: 7 <= i < 14 ==> s[i].mood == 1;
    TrendOfClearFall(s, 5);
    RisingFortnightDeclinesAsWritten();
  }

  /** The string-mood windows of the fortnight spell 1111111 (recent) against 5555555 (older). */
  lemma RisingFortnightDeclinesAsWritten()
    ensures MoodTrendAsWritten(RisingFortnight()) == Declining
  {
    var s := RisingFortnight();
    var recent, older := RecentWindow(s), OlderWindow(s);
    assert recent == s[7..] && older == s[..7];
    assert forall i :: 0 <= i < 7 ==> recent[i].mood == 1;
    assert forall i :: 0 <= i < 7 ==> older[i].mood == 5;
    JoinedValueOfSteadyMood(recent, 1);
    JoinedValueOfSteadyMood(older, 5);
    assert Repunit(7) == 1111111;
  }

  /** The chronological reading reports the same fortnight as improving. */
  lemma ChronologicalTrendSeesRisingMood()
    ensures ChronologicalTrend(RisingFortnight()) == Improving
  {
    var c := Seqs.Reversed(RisingFortnight());
    assert forall i :: 0 <= i < 7 ==> c[i].mood == 1;
    assert forall i :: 7 <= i < 14 ==> c[i].mood == 5;
    TrendOfClearRise(c, 1);
  }

  /** Sortedness of adjacent pairs gives sortedness of all pairs. */
  lemma SortedFromAdjacent(entries: seq<MoodEntry>)
    requires forall k :: 0 < k < |entries| ==> Text.LexLeq(entries[k].date, entries[k - 1].date)
    ensures SortedNewestFirst(entries)
  {
    forall i, j | 0 <= i < j < |entries| ensures Text.LexLeq(entries[j].date, entries[i].date) {
      AdjacentChain(entries, i, j);
    }
  }

  lemma {:induction false} AdjacentChain(entries: seq<MoodEntry>, i: int, j: int)
    requires forall k :: 0 < k < |entries| ==> Text.LexLeq(entries[k].date, entries[k - 1].date)
    requires 0 <= i < j < |entries|
    ensures Text.LexLeq(entries[j].date, entries[i].date)
    decreases j - i
  {
    if j > i + 1 {
      AdjacentChain(entries, i, j - 1);
      Text.LexLeqTransitive(entries[j].date, entries[j - 1].date, entries[i].date);
    }
  }

  // ---------------------------------------------------------------------------------------
  // Today's entry and the newest-first listing

  /** `entries.find(e => e.date === today)`. */
  function TodaysEntry(entries: seq<MoodEntry>, today: string): (r: Option<MoodEntry>)
    ensures r.Some? ==> r.value in entries && r.value.date == today
    ensures r.None? <==> forall e :: e in entries ==> e.date != today
  {
    if entries == [] then None
    else if entries[0].date == today then Some(entries[0])
    else TodaysEntry(entries[1..], today)
  }

  /** Under the log invariant, the entry found for a date is the only entry of that date. */
  lemma TodaysEntryIsUnique(entries: seq<MoodEntry>, today: string, e: MoodEntry)
    requires OnePerDate(entries)
    requires e in entries && e.date == today
    ensures TodaysEntry(entries, today) == Some(e)
  {
    var found := TodaysEntry(entries, today).value;
    var i :| 0 <= i < |entries| && entries[i] == e;
    var j :| 0 <= j < |entries| && entries[j] == found;
    assert i == j;
  }

  /** The first `n` entries of `a` are listed newest first. */
  ghost predicate PrefixSorted(a: array<MoodEntry>, n: int)
    reads a
  {
    forall k, l :: 0 <= k < l < n && l < a.Length ==> Text.LexLeq(a[l].date, a[k].date)
  }

  /**
   * The comparator `(a, b) => time(b.date) - time(a.date)` under `Array.prototype.sort`, as
   * an insertion sort in place: afterwards the array is a newest-first permutation of what it
   * held, and one entry per date still holds. Equal dates are never swapped (a stable sort).
   */
  method SortNewestFirst(a: array<MoodEntry>)
    modifies a
    ensures SortedNewestFirst(a[..])
    ensures multiset(a[..]) == multiset(old(a[..]))
    ensures OnePerDate(old(a[..])) ==> OnePerDate(a[..])
  {
    var i := 0;
    while i < a.Length
      invariant 0 <= i <= a.Length
      invariant PrefixSorted(a, i)
      invariant multiset(a[..]) == multiset(old(a[..]))
      invariant OnePerDate(old(a[..])) ==> OnePerDate(a[..])
    {
      InsertNewest(a, i);
      i := i + 1;
    }
  }

  /** Moves `a[i]` down into the newest-first prefix `a[..i]`, by adjacent swaps. */
  method InsertNewest(a: array<MoodEntry>, i: int)
    requires 0 <= i < a.Length
    requires PrefixSorted(a, i)
    modifies a
    ensures PrefixSorted(a, i + 1)
    ensures multiset(a[..]) == multiset(old(a[..]))
    ensures forall k :: i < k < a.Length ==> a[k] == old(a[k])
    ensures OnePerDate(old(a[..])) ==> OnePerDate(a[..])
  {
    var j := i;
    while j > 0 && !Text.LexLeq(a[j].date, a[j - 1].date)
      invariant 0 <= j <= i
      invariant forall k, l :: 0 <= k < l <= i && k != j && l != j ==> Text.LexLeq(a[l].date, a[k].date)
      invariant forall l :: j < l <= i ==> Text.LexLeq(a[l].date, a[j].date)
      invariant multiset(a[..]) == multiset(old(a[..]))
      invariant forall k :: i < k < a.Length ==> a[k] == old(a[k])
      invariant OnePerDate(old(a[..])) ==> OnePerDate(a[..])
    {
      Text.LexLeqTotal(a[j].date, a[j - 1].date);
      SwapDown(a, j);
      j := j - 1;
    }
    forall k | 0 <= k < j ensures Text.LexLeq(a[j].date, a[k].date) {
      if k < j - 1 {
        Text.LexLeqTransitive(a[j].date, a[j - 1].date, a[k].date);
      }
    }
  }

  /** Exchanges `a[j - 1]` and `a[j]`; every other position keeps its entry. */
  method SwapDown(a: array<MoodEntry>, j: int)
    requires 0 < j < a.Length
    modifies a
    ensures a[j - 1] == old(a[j]) && a[j] == old(a[j - 1])
    ensures forall k :: 0 <= k < a.Length && k != j - 1 && k != j ==> a[k] == old(a[k])
    ensures multiset(a[..]) == multiset(old(a[..]))
    ensures OnePerDate(old(a[..])) ==> OnePerDate(a[..])
  {
    SwapKeepsOnePerDate(a[..], j - 1);
    a[j - 1], a[j] := a[j], a[j - 1];
  }

  lemma SwapKeepsOnePerDate(s: seq<MoodEntry>, k: int)
    requires 0 <= k < |s| - 1
    ensures OnePerDate(s) ==> OnePerDate(s[k := s[k + 1]][k + 1 := s[k]])
  {
  }

  // ---------------------------------------------------------------------------------------
  // The panel's state

  class MoodLog {
    var entries: seq<MoodEntry>
    var selectedMood: Option<Mood>
    var note: string
    var selectedTags: seq<string>
    var selectedDate: Option<string>

    /** One entry per date; no tag selected twice. */
    ghost predicate Valid()
      reads this
    {
      OnePerDate(entries) && Seqs.NoDuplicates(selectedTags)
    }

    /** The initial state: no entries, empty form, today's date selected. */
    constructor (today: string)
      ensures Valid()
      ensures entries == [] && selectedMood == None && note == "" && selectedTags == []
      ensures selectedDate == Some(today)
    {
      entries := [];
      selectedMood := None;
      note := "";
      selectedTags := [];
      selectedDate := Some(today);
    }

    /** The mood buttons. */
    method SelectMood(mood: Mood)
      modifies this
      ensures selectedMood == Some(mood)
      ensures entries == old(entries) && note == old(note)
      ensures selectedTags == old(selectedTags) && selectedDate == old(selectedDate)
    {
      selectedMood := Some(mood);
    }

    /** The note box. */
    method SetNote(text: string)
      modifies this
      ensures note == text
      ensures entries == old(entries) && selectedMood == old(selectedMood)
      ensures selectedTags == old(selectedTags) && selectedDate == old(selectedDate)
    {
      note := text;
    }

    /**
     * `saveMoodEntry`: without a selected mood or date nothing changes; otherwise the entry
     * replaces any entry of its date, is appended, and the form is cleared (the date stays).
     * `freshId` stands for the clock-derived id.
     */
    method SaveMoodEntry(freshId: string)
      requires Valid()
      modifies this
      ensures Valid()
      ensures selectedDate == old(selectedDate)
      ensures old(selectedMood).None? || old(selectedDate).None? ==>
        && entries == old(entries) && selectedMood == old(selectedMood)
        && note == old(note) && selectedTags == old(selectedTags)
      ensures old(selectedMood).Some? && old(selectedDate).Some? ==>
        && entries == Saved(old(entries),
             MoodEntry(freshId, old(selectedDate).value, old(selectedMood).value, old(note), old(selectedTags)))
        && selectedMood == None && note == "" && selectedTags == []
    {
      if selectedMood.Some? && selectedDate.Some? {
        var entry := MoodEntry(freshId, selectedDate.value, selectedMood.value, note, selectedTags);
        SavedReplacesSameDate(entries, entry);
        entries := Saved(entries, entry);
        selectedMood := None;
        note := "";
        selectedTags := [];
      }
    }

    /** `toggleTag`: a selected tag is deselected, an unselected one is added at the end. */
    method ToggleTag(tag: string)
      requires Valid()
      modifies this
      ensures Valid()
      ensures tag in selectedTags <==> tag !in old(selectedTags)
      ensures selectedTags == Seqs.Toggle(old(selectedTags), tag)
      ensures entries == old(entries) && selectedMood == old(selectedMood)
      ensures note == old(note) && selectedDate == old(selectedDate)
    {
      Seqs.ToggleKeepsNoDuplicates(selectedTags, tag);
      selectedTags := Seqs.Toggle(selectedTags, tag);
    }

    /**
     * One render of the panel's insights: the state array is sorted newest first in place,
     * then the first seven entries are listed, today's entry is looked up, and the average
     * and the trend are computed as the panel computes them: with string moods, over the
     * newest-first array, so the trend's "recent" window holds the oldest entries.
     * `AverageMood` and `ChronologicalTrend` are the evidently intended readings.
     */
    method Render(today: string) returns (recent: seq<MoodEntry>, todays: Option<MoodEntry>, average: real, trend: Trend)
      requires Valid()
      modifies this
      ensures Valid()
      ensures multiset(entries) == multiset(old(entries)) && SortedNewestFirst(entries)
      ensures recent == entries[..Min(7, |entries|)]
      ensures todays == TodaysEntry(entries, today)
      ensures average == AverageMoodAsWritten(entries)
      ensures trend == MoodTrendAsWritten(entries)
      ensures selectedMood == old(selectedMood) && note == old(note)
      ensures selectedTags == old(selectedTags) && selectedDate == old(selectedDate)
    {
      var log := entries;
      var a := new MoodEntry[|log|](i requires 0 <= i < |log| => log[i]);
      assert a[..] == log;
      SortNewestFirst(a);
      entries := a[..];
      recent := entries[..Min(7, |entries|)];
      todays := TodaysEntry(entries, today);
      average := AverageMoodAsWritten(entries);
      trend := MoodTrendAsWritten(entries);
    }
  }
}
