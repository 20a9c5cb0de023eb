/**
 * The analytics page (`Analytics.js`): the headline statistics, the emotion and
 * location rankings, the activity timeline of the last 30 days and the insights drawn
 * from them. A date is a whole day, numbered; "today" is a parameter.
 */
module Analytics {
  import opened Wrappers
  import opened Collections
  import opened Sorting

  /** A date field of a sound: missing or empty, present but not a date, or a day. */
  datatype DateField = NoDate | InvalidDate | Day(day: int)

  /** A sound as the page receives it. */
  datatype Sound = Sound(
    author: Option<string>,
    emotions: Option<seq<string>>,
    location: Option<string>,
    duration: Option<real>,
    createdAt: DateField,
    fecha: DateField)

  // ---------------------------------------------------------------------------
  // Headline statistics

  function Authors(sounds: seq<Sound>): seq<Option<string>> {
    seq(|sounds|, i requires 0 <= i < |sounds| => sounds[i].author)
  }

  /** `sound.emotions || []`. */
  function EmotionsOf(s: Sound): seq<string> {
    s.emotions.GetOr([])
  }

  /** `sounds.flatMap(s => s.emotions || [])`. */
  function AllEmotions(sounds: seq<Sound>): seq<string> {
    if sounds == [] then []
    else AllEmotions(sounds[..|sounds| - 1]) + EmotionsOf(sounds[|sounds| - 1])
  }

  /** `sounds.reduce((acc, s) => acc + (s.duration || 0), 0)`. */
  function TotalDuration(sounds: seq<Sound>): real {
    if sounds == [] then 0.0
    else TotalDuration(sounds[..|sounds| - 1]) + sounds[|sounds| - 1].duration.GetOr(0.0)
  }

  datatype Stats = Stats(totalSounds: nat, uniqueAuthors: nat, uniqueEmotions: nat, totalDuration: real)

  /** The statistics panel: the number of sounds, of distinct authors and of distinct emotions, and the summed duration. */
  function ComputeStats(sounds: seq<Sound>): Stats {
    Stats(|sounds|, |ToSet(Authors(sounds))|, |ToSet(AllEmotions(sounds))|, TotalDuration(sounds))
  }

  /**
   * There is an author as soon as there is a sound (a missing author is one more
   * value), never more authors than sounds, and exactly as many distinct emotions as
   * the emotion tally has entries, which is at most the number of emotions given.
   */
  lemma StatsSpec(sounds: seq<Sound>)
    ensures var st := ComputeStats(sounds);
      && st.totalSounds == |sounds|
      && st.uniqueAuthors <= st.totalSounds
      && (st.uniqueAuthors == 0 <==> sounds == [])
      && st.uniqueEmotions == |Tally(AllEmotions(sounds))| <= |AllEmotions(sounds)|
  {
    var authors := Authors(sounds);
    var emotions := AllEmotions(sounds);
    ToSetBound(authors);
    ToSetBound(emotions);
    TallyDistinctCount(emotions);
    assert sounds != [] ==> authors[0] in ToSet(authors);
  }

  // ---------------------------------------------------------------------------
  // Counting

  /** The emotion counts: every emotion of every sound, in order. */
  method CountEmotions(sounds: seq<Sound>) returns (counts: Entries<string, nat>)
    ensures counts == Tally(AllEmotions(sounds))
  {
    counts := [];
    for i := 0 to |sounds|
      invariant counts == Tally(AllEmotions(sounds[..i]))
    {
      assert sounds[..i + 1][..i] == sounds[..i];
      counts := TallyInto(counts, AllEmotions(sounds[..i]), EmotionsOf(sounds[i]));
    }
    assert sounds[..|sounds|] == sounds;
  }

  /** `if (sound.location)`: a location that is given and not empty. */
  predicate KnownLocation(s: Sound) {
    s.location.Some? && s.location.value != []
  }

  /** The truthy locations of the sounds, in order. */
  function KnownLocations(sounds: seq<Sound>): seq<string> {
    if sounds == [] then []
    else
      var init := KnownLocations(sounds[..|sounds| - 1]);
      var s := sounds[|sounds| - 1];
      if KnownLocation(s) then init + [s.location.value] else init
  }

  /** The location counts: sounds without a location are skipped. */
  method CountLocations(sounds: seq<Sound>) returns (counts: Entries<string, nat>)
    ensures counts == Tally(KnownLocations(sounds))
  {
    counts := [];
    for i := 0 to |sounds|
      invariant counts == Tally(KnownLocations(sounds[..i]))
    {
      assert sounds[..i + 1][..i] == sounds[..i];
      var sound := sounds[i];
      if sound.location.Some? && sound.location.value != [] {
        TallySnoc(KnownLocations(sounds[..i]), sound.location.value);
        counts := Bump(counts, sound.location.value);
      }
    }
    assert sounds[..|sounds|] == sounds;
  }

  /**
   * The day a sound is counted on: `createdAt` when it is given (today when it does not
   * parse, without looking at `fecha`), else `fecha` (today when it does not parse),
   * else today.
   */
  function DayKey(s: Sound, today: int): int {
    match s.createdAt
    case Day(d) => d
    case InvalidDate => today
    case NoDate =>
      match s.fecha
      case Day(d) => d
      case _ => today
  }

  /** The day of each sound, in order. */
  function DayKeys(sounds: seq<Sound>, today: int): (keys: seq<int>)
    ensures |keys| == |sounds|
    ensures forall i :: 0 <= i < |sounds| ==> keys[i] == DayKey(sounds[i], today)
  {
    if sounds == [] then []
    else DayKeys(sounds[..|sounds| - 1], today) + [DayKey(sounds[|sounds| - 1], today)]
  }

  /** A `createdAt` that does not parse sends the sound to today even when its `fecha` is a valid day. */
  lemma UnparsableCreatedAtIgnoresFecha(s: Sound, today: int)
    requires s.createdAt == InvalidDate && s.fecha.Day? && s.fecha.day != today
    ensures DayKey(s, today) == today != s.fecha.day
  {
  }

  /** The daily counts: one per sound, on its day. */
  method CountDays(sounds: seq<Sound>, today: int) returns (daily: Entries<int, nat>)
    ensures daily == Tally(DayKeys(sounds, today))
  {
    daily := [];
    for i := 0 to |sounds|
      invariant daily == Tally(DayKeys(sounds[..i], today))
    {
      assert sounds[..i + 1][..i] == sounds[..i];
      daily := Increment(daily, DayKeys(sounds[..i], today), DayKey(sounds[i], today));
    }
    assert sounds[..|sounds|] == sounds;
  }

  /**
   * Every sound adds one to the count of its own day: each day counts the sounds dated
   * on it, each sound's day has a count, and the counts add up to the number of sounds.
   */
  lemma DailyCountsSpec(sounds: seq<Sound>, today: int)
    ensures var daily := Tally(DayKeys(sounds, today));
      && SumValues(daily) == |sounds|
      && (forall d :: Count(daily, d) == multiset(DayKeys(sounds, today))[d])
      && (forall i :: 0 <= i < |sounds| ==> Count(daily, DayKey(sounds[i], today)) >= 1)
  {
    var keys := DayKeys(sounds, today);
    TallySum(keys);
    forall d ensures Count(Tally(keys), d) == multiset(keys)[d] {
      TallyCount(keys, d);
    }
    forall i | 0 <= i < |sounds| ensures Count(Tally(keys), DayKey(sounds[i], today)) >= 1 {
      TallyCount(keys, keys[i]);
      assert keys[i] in multiset(keys);
    }
  }

  /** Each emotion counts its occurrences over all the sounds, and the counts add up to the emotions given. */
  lemma EmotionCountsSpec(sounds: seq<Sound>, e: string)
    ensures Count(Tally(AllEmotions(sounds)), e) == multiset(AllEmotions(sounds))[e]
    ensures SumValues(Tally(AllEmotions(sounds))) == |AllEmotions(sounds)|
  {
    TallyCount(AllEmotions(sounds), e);
    TallySum(AllEmotions(sounds));
  }

  // ---------------------------------------------------------------------------
  // Rankings

  /** The comparator `(a, b) => b.count - a.count`. */
  function ByCountDesc<K>(): ((K, nat), (K, nat)) -> int {
    (a: (K, nat), b: (K, nat)) => b.1 - a.1
  }

  /** `s.slice(0, n)`. */
  function Take<T>(s: seq<T>, n: nat): (r: seq<T>)
    ensures |r| == if |s| <= n then |s| else n
    ensures r == s[..|r|]
  {
    if |s| <= n then s else s[..n]
  }

  /** `Object.entries(counts).sort((a, b) => b.count - a.count).slice(0, n)`. */
  function RankByCount<K>(counts: Entries<K, nat>, n: nat): Entries<K, nat> {
    Take(SortBy(counts, ByCountDesc()), n)
  }

  /** `b.count - a.count` is a consistent comparator on any counts. */
  lemma ByCountDescConsistent<K>(counts: Entries<K, nat>)
    ensures ConsistentOn(counts, ByCountDesc())
  {
  }

  /** Sorting by count rearranges the counts into non-increasing order. */
  lemma SortedByCount<K>(counts: Entries<K, nat>)
    ensures multiset(SortBy(counts, ByCountDesc())) == multiset(counts)
    ensures var sorted := SortBy(counts, ByCountDesc());
      forall i, j :: 0 <= i < j < |sorted| ==> sorted[i].1 >= sorted[j].1
  {
    var cmp := ByCountDesc<K>();
    ByCountDescConsistent(counts);
    SortBySpec(counts, cmp);
    var sorted := SortBy(counts, cmp);
    assert |sorted| == |counts| by {
      assert |multiset(sorted)| == |multiset(counts)|;
    }
    forall i, j | 0 <= i < j < |sorted| ensures sorted[i].1 >= sorted[j].1 {
      assert cmp(sorted[i], sorted[j]) <= 0;
    }
  }

  /**
   * The ranking keeps the `n` highest counts (all of them when there are fewer), in
   * non-increasing order; every ranked entry is one of the counts, and no entry left
   * out has a higher count than one kept.
   */
  lemma RankByCountSpec<K>(counts: Entries<K, nat>, n: nat)
    ensures var r := RankByCount(counts, n);
      && |r| == (if |counts| <= n then |counts| else n)
      && (forall i, j :: 0 <= i < j < |r| ==> r[i].1 >= r[j].1)
      && (forall e :: e in r ==> e in counts)
      && (forall e, i :: e in counts && e !in r && 0 <= i < |r| ==> e.1 <= r[i].1)
  {
    SortedByCount(counts);
    TakeOfSorted(counts, SortBy(counts, ByCountDesc()), n);
  }

  /** The first `n` entries of a rearrangement of `counts` in non-increasing order. */
  lemma TakeOfSorted<K>(counts: Entries<K, nat>, sorted: Entries<K, nat>, n: nat)
    requires multiset(sorted) == multiset(counts)
    requires forall i, j :: 0 <= i < j < |sorted| ==> sorted[i].1 >= sorted[j].1
    ensures var r := Take(sorted, n);
      && |r| == (if |counts| <= n then |counts| else n)
      && (forall i, j :: 0 <= i < j < |r| ==> r[i].1 >= r[j].1)
      && (forall e :: e in r ==> e in counts)
      && (forall e, i :: e in counts && e !in r && 0 <= i < |r| ==> e.1 <= r[i].1)
  {
    var r := Take(sorted, n);
    assert |sorted| == |counts| by {
      assert |multiset(sorted)| == |multiset(counts)|;
    }
    forall e | e in r ensures e in counts {
      assert e in multiset(sorted);
    }
    forall e, i | e in counts && e !in r && 0 <= i < |r| ensures e.1 <= r[i].1 {
      assert e in multiset(sorted);
      var p :| 0 <= p < |sorted| && sorted[p] == e;
      assert p >= |r|;
    }
  }

  /** `counts` has one entry per distinct element of `xs`, holding its number of occurrences. */
  ghost predicate CountsOccurrences<K>(counts: Entries<K, nat>, xs: seq<K>) {
    && |counts| == |ToSet(xs)|
    && (forall e :: e in counts ==> e.0 in xs && e.1 == multiset(xs)[e.0] >= 1)
    && (forall x :: x in xs ==> (x, multiset(xs)[x]) in counts)
  }

  lemma TallyCountsOccurrences<K>(xs: seq<K>)
    ensures CountsOccurrences(Tally(xs), xs)
  {
    var counts := Tally(xs);
    TallyDistinctCount(xs);
    TallyKeys(xs);
    forall e | e in counts ensures e.0 in xs && e.1 == multiset(xs)[e.0] >= 1 {
      var k :| 0 <= k < |counts| && counts[k] == e;
      TallyEntry(xs, k);
    }
    forall x | x in xs ensures (x, multiset(xs)[x]) in counts {
      assert x in Keys(counts);
      var k :| 0 <= k < |counts| && Keys(counts)[k] == x;
      TallyEntry(xs, k);
      assert counts[k] in counts;
    }
  }

  /** Ranking counts of occurrences: see `RankedTally`. */
  lemma RankedCounts<K>(counts: Entries<K, nat>, xs: seq<K>, n: nat)
    requires CountsOccurrences(counts, xs)
    ensures var r := RankByCount(counts, n);
      && |r| == (if |ToSet(xs)| <= n then |ToSet(xs)| else n)
      && (forall i :: 0 <= i < |r| ==> r[i].0 in xs && r[i].1 == multiset(xs)[r[i].0] >= 1)
      && (forall i, j :: 0 <= i < j < |r| ==> r[i].1 >= r[j].1)
      && (forall x, i :: x in xs && (forall j :: 0 <= j < |r| ==> r[j].0 != x) && 0 <= i < |r| ==>
            multiset(xs)[x] <= r[i].1)
      && (r != [] <==> xs != [] && n > 0)
      && (r != [] ==> forall x :: x in xs ==> multiset(xs)[x] <= r[0].1)
  {
    var r := RankByCount(counts, n);
    RankByCountSpec(counts, n);
    forall i | 0 <= i < |r| ensures r[i].0 in xs && r[i].1 == multiset(xs)[r[i].0] >= 1 {
      assert r[i] in r;
    }
    assert xs != [] ==> xs[0] in ToSet(xs);
    forall x, i | x in xs && (forall j :: 0 <= j < |r| ==> r[j].0 != x) && 0 <= i < |r|
      ensures multiset(xs)[x] <= r[i].1
    {
      assert (x, multiset(xs)[x]) !in r;
    }
    if r != [] {
      forall x | x in xs ensures multiset(xs)[x] <= r[0].1 {
        if j :| 0 <= j < |r| && r[j].0 == x {
          assert r[0].1 >= r[j].1;
        }
      }
    }
  }

  /**
   * Ranking a tally of `xs`: as many entries as there are distinct elements, at most
   * `n`; each ranked count is its element's number of occurrences; counts do not
   * increase down the ranking; an element left out occurs no more often than any
   * ranked one, and the first entry occurs at least as often as every element.
   */
  lemma RankedTally<K>(xs: seq<K>, n: nat)
    ensures var r := RankByCount(Tally(xs), n);
      && |r| == (if |ToSet(xs)| <= n then |ToSet(xs)| else n)
      && (forall i :: 0 <= i < |r| ==> r[i].0 in xs && r[i].1 == multiset(xs)[r[i].0] >= 1)
      && (forall i, j :: 0 <= i < j < |r| ==> r[i].1 >= r[j].1)
      && (forall x, i :: x in xs && (forall j :: 0 <= j < |r| ==> r[j].0 != x) && 0 <= i < |r| ==>
            multiset(xs)[x] <= r[i].1)
      && (r != [] <==> xs != [] && n > 0)
      && (r != [] ==> forall x :: x in xs ==> multiset(xs)[x] <= r[0].1)
  {
    TallyCountsOccurrences(xs);
    RankedCounts(Tally(xs), xs, n);
  }

  /** `sortedEmotions`: the eight most frequent emotions with their counts. */
  function EmotionData(sounds: seq<Sound>): seq<(string, nat)> {
    RankByCount(Tally(AllEmotions(sounds)), 8)
  }

  /** `sortedLocations`: the six most frequent locations with their counts. */
  function LocationData(sounds: seq<Sound>): seq<(string, nat)> {
    RankByCount(Tally(KnownLocations(sounds)), 6)
  }

  // ---------------------------------------------------------------------------
  // Timeline of the last 30 days

  /** `n` consecutive days from `first`, each with its count (`dailyCounts[dateKey] || 0`). */
  function Window(daily: Entries<int, nat>, first: int, n: nat): (t: seq<(int, nat)>)
    ensures |t| == n
  {
    if n == 0 then [] else Window(daily, first, n - 1) + [(first + n - 1, Count(daily, first + n - 1))]
  }

  /** A window one day longer, up to `day`, has that day's entry at its end. */
  lemma WindowStep(daily: Entries<int, nat>, first: int, n: nat, day: int)
    requires day == first + n
    ensures Window(daily, first, n + 1) == Window(daily, first, n) + [(day, Count(daily, day))]
  {
  }

  /** Entry `j` of the window is day `first + j` with its count. */
  lemma {:induction false} WindowEntries(daily: Entries<int, nat>, first: int, n: nat)
    ensures forall j :: 0 <= j < n ==> Window(daily, first, n)[j] == (first + j, Count(daily, first + j))
  {
    if n > 0 {
      WindowEntries(daily, first, n - 1);
      var w := Window(daily, first, n);
      assert w == Window(daily, first, n - 1) + [(first + n - 1, Count(daily, first + n - 1))];
    }
  }

  /** The 30 days ending today, oldest first. */
  function Timeline(daily: Entries<int, nat>, today: int): seq<(int, nat)> {
    Window(daily, today - 29, 30)
  }

  /** The loop `for (let i = 29; i >= 0; i--)` that pushes one entry per day. */
  method BuildTimeline(daily: Entries<int, nat>, today: int) returns (timeline: seq<(int, nat)>)
    ensures timeline == Timeline(daily, today)
  {
    timeline := [];
    var i := 29;
    while i >= 0
      invariant -1 <= i <= 29
      invariant timeline == Window(daily, today - 29, 29 - i)
      decreases i + 1
    {
      var day := today - i;
      var count := Count(daily, day);
      WindowStep(daily, today - 29, 29 - i, day);
      timeline := timeline + [(day, count)];
      i := i - 1;
    }
  }

  /** `timelineArray.reduce((sum, day) => sum + day.count, 0)`. */
  function TimelineTotal(t: seq<(int, nat)>): nat {
    if t == [] then 0 else TimelineTotal(t[..|t| - 1]) + t[|t| - 1].1
  }

  function IsActive(): ((int, nat)) -> bool {
    (d: (int, nat)) => d.1 > 0
  }

  /** `timelineArray.filter(day => day.count > 0).length`. */
  function ActiveDays(t: seq<(int, nat)>): nat {
    |Filter(t, IsActive())|
  }

  /** There are no more active days than days or than counted sounds, and none exactly when nothing was counted. */
  lemma {:induction false} ActiveDaysBound(t: seq<(int, nat)>)
    ensures ActiveDays(t) <= |t|
    ensures ActiveDays(t) <= TimelineTotal(t)
    ensures ActiveDays(t) == 0 <==> TimelineTotal(t) == 0
  {
    if t != [] {
      var init, last := t[..|t| - 1], t[|t| - 1];
      ActiveDaysBound(init);
      FilterSnoc(t, IsActive());
    }
  }

  function InRange(lo: int, hi: int): int -> bool {
    x => lo <= x < hi
  }

  lemma {:induction false} FilterRangeEmpty(keys: seq<int>, lo: int)
    ensures Filter(keys, InRange(lo, lo)) == []
  {
    if keys != [] {
      FilterRangeEmpty(keys[1..], lo);
    }
  }

  /** Adding the day `top` to the range of days that ends before it. */
  lemma {:induction false} FilterRangeHigh(keys: seq<int>, lo: int, top: int, hi: int)
    requires lo <= top && hi == top + 1
    ensures |Filter(keys, InRange(lo, hi))| == |Filter(keys, InRange(lo, top))| + multiset(keys)[top]
  {
    if keys != [] {
      FilterRangeHigh(keys[1..], lo, top, hi);
      assert keys == [keys[0]] + keys[1..];
    }
  }

  /**
   * When `daily` counts the occurrences of every key, the counts of the `n` consecutive
   * days from `first` up to `hi` add up to the keys on those days.
   */
  lemma {:induction false} WindowTotal(daily: Entries<int, nat>, keys: seq<int>, first: int, n: nat, hi: int)
    requires hi == first + n
    requires forall d :: Count(daily, d) == multiset(keys)[d]
    ensures TimelineTotal(Window(daily, first, n)) == |Filter(keys, InRange(first, hi))|
  {
    if n == 0 {
      FilterRangeEmpty(keys, first);
    } else {
      var top := hi - 1;
      var prev := Window(daily, first, n - 1);
      WindowStep(daily, first, n - 1, top);
      var w := prev + [(top, Count(daily, top))];
      assert w[..n - 1] == prev;
      assert TimelineTotal(w) == TimelineTotal(prev) + Count(daily, top);
      WindowTotal(daily, keys, first, n - 1, top);
      FilterRangeHigh(keys, first, top, hi);
    }
  }

  /** The timeline of a tally of days counts the days that fall within the last 30. */
  lemma TimelineTotalOfTally(keys: seq<int>, today: int)
    ensures TimelineTotal(Timeline(Tally(keys), today)) == |Filter(keys, InRange(today - 29, today + 1))|
  {
    var daily := Tally(keys);
    forall d ensures Count(daily, d) == multiset(keys)[d] {
      TallyCount(keys, d);
    }
    WindowTotal(daily, keys, today - 29, 30, today + 1);
  }

  /** The sound is counted on one of the 30 days of the timeline. */
  predicate InLast30Days(s: Sound, today: int) {
    today - 29 <= DayKey(s, today) <= today
  }

  /** Every sound is dated within the last 30 days exactly when every day key is in that range. */
  lemma AllDayKeysRecent(sounds: seq<Sound>, today: int)
    ensures (forall x :: x in DayKeys(sounds, today) ==> InRange(today - 29, today + 1)(x))
      <==> forall i :: 0 <= i < |sounds| ==> InLast30Days(sounds[i], today)
  {
    var keys := DayKeys(sounds, today);
    if forall i :: 0 <= i < |sounds| ==> InLast30Days(sounds[i], today) {
      forall x | x in keys ensures InRange(today - 29, today + 1)(x) {
        var i :| 0 <= i < |keys| && keys[i] == x;
        assert InLast30Days(sounds[i], today);
      }
    } else {
      var i :| 0 <= i < |sounds| && !InLast30Days(sounds[i], today);
      assert keys[i] in keys;
    }
  }

  /** No sound is dated within the last 30 days exactly when no day key is in that range. */
  lemma NoDayKeyRecent(sounds: seq<Sound>, today: int)
    ensures (forall x :: x in DayKeys(sounds, today) ==> !InRange(today - 29, today + 1)(x))
      <==> forall i :: 0 <= i < |sounds| ==> !InLast30Days(sounds[i], today)
  {
    var keys := DayKeys(sounds, today);
    if forall i :: 0 <= i < |sounds| ==> !InLast30Days(sounds[i], today) {
      forall x | x in keys ensures !InRange(today - 29, today + 1)(x) {
        var i :| 0 <= i < |keys| && keys[i] == x;
        assert !InLast30Days(sounds[i], today);
      }
    } else {
      var i :| 0 <= i < |sounds| && InLast30Days(sounds[i], today);
      assert keys[i] in keys;
    }
  }

  /**
   * The timeline counts exactly the sounds dated within the last 30 days, so its total
   * never exceeds the number of sounds and equals it exactly when no sound is dated
   * before that or after today: the discrepancy the page warns about is a sound outside
   * the window.
   */
  lemma TimelineCountsRecentSounds(sounds: seq<Sound>, today: int)
    ensures var total := TimelineTotal(Timeline(Tally(DayKeys(sounds, today)), today));
      && total == |Filter(DayKeys(sounds, today), InRange(today - 29, today + 1))|
      && total <= |sounds|
      && (total == |sounds| <==> forall i :: 0 <= i < |sounds| ==> InLast30Days(sounds[i], today))
  {
    var keys := DayKeys(sounds, today);
    TimelineTotalOfTally(keys, today);
    FilterKeepsAll(keys, InRange(today - 29, today + 1));
    AllDayKeysRecent(sounds, today);
  }

  /** No day of the timeline is active exactly when no sound is dated within the last 30 days. */
  lemma NoActivityIffNoRecentSound(sounds: seq<Sound>, today: int)
    ensures ActiveDays(Timeline(Tally(DayKeys(sounds, today)), today)) == 0
      <==> forall i :: 0 <= i < |sounds| ==> !InLast30Days(sounds[i], today)
  {
    var keys := DayKeys(sounds, today);
    TimelineTotalOfTally(keys, today);
    ActiveDaysBound(Timeline(Tally(keys), today));
    FilterNone(keys, InRange(today - 29, today + 1));
    NoDayKeyRecent(sounds, today);
  }

  // ---------------------------------------------------------------------------
  // Insights

  /** The insight cards; their descriptions (percentages and averages) are not modelled. */
  datatype Insight =
    | DominantEmotion(emotion: string, count: nat)
    | Collaboration(authors: nat)
    | EmotionalDiversity(kinds: nat)
    | TemporalActivity(activeDays: nat)
    | RecentActivity

  /**
   * `generateInsights(emotions, total, authors, activeDays)`: the dominant emotion when
   * there is one, collaboration with more than one author, diversity with three ranked
   * emotions or more, and always exactly one activity card, last.
   */
  function GenerateInsights(emotions: seq<(string, nat)>, total: nat, authors: nat, activeDays: nat): seq<Insight> {
    var dominant := if |emotions| > 0 then [DominantEmotion(emotions[0].0, emotions[0].1)] else [];
    var collaboration := if authors > 1 then [Collaboration(authors)] else [];
    var diversity := if |emotions| >= 3 then [EmotionalDiversity(|emotions|)] else [];
    var activity := if activeDays > 0 then TemporalActivity(activeDays) else RecentActivity;
    dominant + collaboration + diversity + [activity]
  }

  /** Between one and four cards; the activity card is the last and the only one of its kind. */
  lemma GenerateInsightsSpec(emotions: seq<(string, nat)>, total: nat, authors: nat, activeDays: nat)
    ensures var r := GenerateInsights(emotions, total, authors, activeDays);
      && 1 <= |r| <= 4
      && r[|r| - 1] == (if activeDays > 0 then TemporalActivity(activeDays) else RecentActivity)
      && (forall i :: 0 <= i < |r| - 1 ==> !r[i].TemporalActivity? && !r[i].RecentActivity?)
      && (r[0].DominantEmotion? <==> emotions != [])
      && (r[0].DominantEmotion? ==> r[0] == DominantEmotion(emotions[0].0, emotions[0].1))
      && (Collaboration(authors) in r <==> authors > 1)
      && (EmotionalDiversity(|emotions|) in r <==> |emotions| >= 3)
  {
  }

  /** The insights the page shows for `sounds` on day `today`. */
  function Insights(sounds: seq<Sound>, today: int): seq<Insight> {
    GenerateInsights(EmotionData(sounds), |sounds|, ComputeStats(sounds).uniqueAuthors,
                     ActiveDays(Timeline(Tally(DayKeys(sounds, today)), today)))
  }

  /**
   * The first card names a dominant emotion exactly when some sound has an emotion, and
   * that emotion occurs at least as often as every other, with its count; the last card
   * reports no recent activity exactly when no sound is dated within the last 30 days.
   */
  lemma InsightsSpec(sounds: seq<Sound>, today: int)
    ensures var ins := Insights(sounds, today);
      var all := AllEmotions(sounds);
      && (ins[0].DominantEmotion? <==> all != [])
      && (ins[0].DominantEmotion? ==>
            ins[0].count == multiset(all)[ins[0].emotion] &&
            forall e :: e in all ==> multiset(all)[e] <= ins[0].count)
      && (ins[|ins| - 1] == RecentActivity <==>
            forall i :: 0 <= i < |sounds| ==> !InLast30Days(sounds[i], today))
  {
    RankedTally(AllEmotions(sounds), 8);
    NoActivityIffNoRecentSound(sounds, today);
    GenerateInsightsSpec(EmotionData(sounds), |sounds|, ComputeStats(sounds).uniqueAuthors,
                         ActiveDays(Timeline(Tally(DayKeys(sounds, today)), today)));
  }

  // ---------------------------------------------------------------------------
  // The page's state

  /** Everything `calculateAnalytics()` sets. */
  datatype Report = Report(stats: Stats, emotionData: seq<(string, nat)>, locationData: seq<(string, nat)>,
                           timelineData: seq<(int, nat)>, insights: seq<Insight>)

  /** What the page shows for `sounds` on day `today`. */
  function Analysis(sounds: seq<Sound>, today: int): Report {
    Report(ComputeStats(sounds), EmotionData(sounds), LocationData(sounds),
           Timeline(Tally(DayKeys(sounds, today)), today), Insights(sounds, today))
  }

  /** The computation of `calculateAnalytics()`. */
  method Analyze(sounds: seq<Sound>, today: int) returns (r: Report)
    ensures r == Analysis(sounds, today)
  {
    var st := ComputeStats(sounds);

    var emotionCounts := CountEmotions(sounds);
    var sortedEmotions := RankByCount(emotionCounts, 8);

    var locationCounts := CountLocations(sounds);
    var sortedLocations := RankByCount(locationCounts, 6);

    var daily := CountDays(sounds, today);
    var timeline := BuildTimeline(daily, today);
    var daysWithActivity := ActiveDays(timeline);

    var insights := GenerateInsights(sortedEmotions, st.totalSounds, st.uniqueAuthors, daysWithActivity);
    r := Report(st, sortedEmotions, sortedLocations, timeline, insights);
  }

  /** The state the page renders from; `stats` starts as an empty object. */
  class AnalyticsView {
    var stats: Option<Stats>
    var emotionData: seq<(string, nat)>
    var locationData: seq<(string, nat)>
    var timelineData: seq<(int, nat)>
    var insights: seq<Insight>

    constructor()
      ensures stats == None && emotionData == [] && locationData == []
      ensures timelineData == [] && insights == []
    {
      stats := None;
      emotionData := [];
      locationData := [];
      timelineData := [];
      insights := [];
    }

    /** `calculateAnalytics()`: replaces every part of the state by what `sounds` gives. */
    method CalculateAnalytics(sounds: seq<Sound>, today: int)
      modifies this
      ensures var a := Analysis(sounds, today);
        && stats == Some(a.stats) && emotionData == a.emotionData && locationData == a.locationData
        && timelineData == a.timelineData && insights == a.insights
    {
      var r := Analyze(sounds, today);
      stats := Some(r.stats);
      emotionData := r.emotionData;
      locationData := r.locationData;
      timelineData := r.timelineData;
      insights := r.insights;
    }

    /**
     * The effect that runs when `sounds` changes: the analysis is recomputed only for a
     * non-empty list; an empty one leaves what the page showed before.
     */
    method OnSoundsChanged(sounds: seq<Sound>, today: int)
      modifies this
      ensures sounds == [] ==>
        && stats == old(stats) && emotionData == old(emotionData) && locationData == old(locationData)
        && timelineData == old(timelineData) && insights == old(insights)
      ensures sounds != [] ==> var a := Analysis(sounds, today);
        && stats == Some(a.stats) && emotionData == a.emotionData && locationData == a.locationData
        && timelineData == a.timelineData && insights == a.insights
    {
      if sounds != [] {
        CalculateAnalytics(sounds, today);
      }
    }
  }
}
