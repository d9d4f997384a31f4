/**
 * The commit-pattern generator: the persona catalog, the category table, and
 * the steps that turn a date range and a persona name into synthetic commit
 * records (frequency stepping, commit counts, commit-time slots, phase-floored
 * weights, cumulative-weight selection, per-commit fallbacks and template
 * rendering).
 *
 * Every random draw is a parameter (see module Rand), and Go's map iteration
 * order is an explicit key sequence that enumerates the map's keys once.
 */
module CommitPatterns {
  import opened Wrappers
  import opened Text
  import opened Rand
  import opened Dates
  import opened ProjectPatterns

  // ---------------------------------------------------------------------------
  // Data model
  // ---------------------------------------------------------------------------

  /** A developer archetype: work window, zone, frequency class, category weights, templates. */
  datatype Persona = Persona(
    name: string,
    workStartHour: int,
    workEndHour: int,
    timezone: string,
    commitFreq: string,
    codingStyle: map<string, real>,
    commonPatterns: seq<string>)

  /** One synthetic commit. */
  datatype CommitPattern = CommitPattern(
    timestamp: Timestamp,
    numFiles: int,
    changeType: string,
    commitType: string,
    description: string)

  /** A row of the category table: an inclusive file-count range and the change kinds. */
  datatype CommitTypeInfo = CommitTypeInfo(fileCountRange: (int, int), changes: seq<string>)

  /** The value a lookup of a missing persona name yields: every field zero or empty. */
  const ZeroPersona := Persona("", 0, 0, "", "", map[], [])

  /** The value a lookup of a missing category yields. */
  const ZeroCommitType := CommitTypeInfo((0, 0), [])

  const EarlyBird := Persona(
    "early_bird", 6, 14, "America/New_York", "frequent",
    map["refactor" := 0.3, "feature" := 0.2, "docs" := 0.2, "fix" := 0.3],
    ["Refactor {component} for better maintainability",
     "Optimize {component} performance",
     "Update documentation for {component}"])

  const NightOwl := Persona(
    "night_owl", 14, 22, "America/Los_Angeles", "moderate",
    map["feature" := 0.4, "fix" := 0.3, "test" := 0.2, "refactor" := 0.1],
    ["Add {feature} to {component}",
     "Fix edge case in {component}",
     "Implement {feature}"])

  /** The persona catalog, keyed by name. */
  const Personas: map<string, Persona> := map["early_bird" := EarlyBird, "night_owl" := NightOwl]

  /** The category table. Only "feature" and "fix" have rows. */
  const CommitTypes: map<string, CommitTypeInfo> := map[
    "feature" := CommitTypeInfo((2, 5), ["add_feature", "enhance_feature", "implement_feature"]),
    "fix" := CommitTypeInfo((1, 3), ["fix_bug", "handle_edge_case", "improve_error_handling"])]

  /** A category's row, or the zero row when the table has none. */
  function CommitTypeOf(commitType: string): CommitTypeInfo {
    if commitType in CommitTypes then CommitTypes[commitType] else ZeroCommitType
  }

  /** Every weight of a style is non-negative. */
  predicate NonNegativeWeights(style: map<string, real>) {
    forall k :: k in style ==> style[k] >= 0.0
  }

  /** The catalog's personas have proper work windows and non-negative weights. */
  lemma CatalogWellFormed()
    ensures Personas.Values == {EarlyBird, NightOwl}
    ensures forall p :: p in Personas.Values ==>
      0 <= p.workStartHour < p.workEndHour <= 24 && NonNegativeWeights(p.codingStyle)
  {
    assert Personas["early_bird"] == EarlyBird;
    assert Personas["night_owl"] == NightOwl;
  }

  /** max: the larger of two weights. */
  function Max(a: real, b: real): (r: real)
    ensures r >= a && r >= b
    ensures r == a || r == b
  {
    if a > b then a else b
  }

  // ---------------------------------------------------------------------------
  // Frequency classes and commit counts
  // ---------------------------------------------------------------------------

  const Frequencies: seq<string> := ["sparse", "moderate", "frequent"]

  /**
   * The position of a class on the scale. The source's search leaves its index
   * at 0 when the class is not on the scale, so such a string counts as "sparse".
   */
  function FrequencyIndex(freq: string): (i: nat)
    ensures i < |Frequencies|
    ensures freq in Frequencies ==> Frequencies[i] == freq
    ensures freq !in Frequencies ==> i == 0
  {
    if freq == Frequencies[1] then 1 else if freq == Frequencies[2] then 2 else 0
  }

  /**
   * adjustFrequency: above intensity 0.8 one step up the scale (capped at
   * frequent), below 0.4 one step down (floored at sparse), otherwise the base.
   * A base off the scale is stepped up from position 0, so it becomes
   * "moderate" above 0.8 and stays as it is otherwise.
   */
  function AdjustFrequency(baseFreq: string, intensity: real): (r: string)
    ensures intensity > 0.8 ==>
      r == (if baseFreq == "moderate" || baseFreq == "frequent" then "frequent" else "moderate")
    ensures intensity < 0.4 ==>
      r == (if baseFreq == "frequent" then "moderate"
            else if baseFreq == "moderate" || baseFreq == "sparse" then "sparse"
            else baseFreq)
    ensures 0.4 <= intensity <= 0.8 ==> r == baseFreq
  {
    var baseIndex := FrequencyIndex(baseFreq);
    if intensity > 0.8 then
      if baseIndex < |Frequencies| - 1 then Frequencies[baseIndex + 1] else baseFreq
    else if intensity < 0.4 then
      if baseIndex > 0 then Frequencies[baseIndex - 1] else baseFreq
    else
      baseFreq
  }

  /** The inclusive commit-count range of a class; (0, 0) for any other string. */
  function CommitRange(freq: string): (int, int) {
    var ranges := map["frequent" := (8, 15), "moderate" := (4, 8), "sparse" := (1, 4)];
    if freq in ranges then ranges[freq] else (0, 0)
  }

  /**
   * getCommitCount: a draw from the class's range: [8,15] for frequent, [4,8]
   * for moderate, [1,4] for sparse, and exactly 0 for any other string.
   */
  function CommitCount(freq: string, draw: nat): (n: int)
    ensures freq == "frequent" ==> 8 <= n <= 15
    ensures freq == "moderate" ==> 4 <= n <= 8
    ensures freq == "sparse" ==> 1 <= n <= 4
    ensures freq !in Frequencies ==> n == 0
    ensures n >= 0
  {
    var r := CommitRange(freq);
    Intn(draw, r.1 - r.0 + 1) + r.0
  }

  /** Every count in the range, both endpoints included, is drawn by some draw. */
  lemma CommitCountCovers(freq: string, n: int)
    requires CommitRange(freq).0 <= n <= CommitRange(freq).1
    ensures CommitCount(freq, n - CommitRange(freq).0) == n
  {
  }

  // ---------------------------------------------------------------------------
  // Commit times
  // ---------------------------------------------------------------------------

  /** The day and work window commit times are drawn for. */
  datatype Workday = Workday(day: Date, startHour: int, endHour: int, zone: string)

  /** The draws of one turn of the retry loop: a minute of the workday and a second. */
  datatype TimeDraw = TimeDraw(minute: nat, second: nat)

  /** The loop's state: the times so far and the minute slots already used. */
  datatype TimesState = TimesState(times: seq<Timestamp>, used: set<int>)

  function WorkMinutes(w: Workday): int {
    (w.endHour - w.startHour) * 60
  }

  /** The lunch hour starts four hours after the start of work. */
  predicate IsLunchHour(w: Workday, hour: int) {
    hour == w.startHour + 4
  }

  /** The minute slot of a time within the workday. */
  function SlotOf(w: Workday, t: Timestamp): int {
    (t.hour - w.startHour) * 60 + t.minute
  }

  /** A commit time on the workday, inside the work window, outside lunch. */
  predicate InWindow(w: Workday, t: Timestamp) {
    && t.day == w.day && t.zone == w.zone
    && w.startHour <= t.hour < w.endHour
    && !IsLunchHour(w, t.hour)
    && 0 <= t.minute < 60
    && 0 <= t.second < 60
  }

  /** No two times share a clock minute. */
  predicate DistinctMinutes(times: seq<Timestamp>) {
    forall i, j :: 0 <= i < j < |times| ==>
      times[i].hour != times[j].hour || times[i].minute != times[j].minute
  }

  /** One turn of the retry loop of generateCommitTimes. */
  function TimesStep(w: Workday, numCommits: int, st: TimesState, d: TimeDraw): TimesState
    requires numCommits > 0 ==> w.startHour < w.endHour
  {
    if |st.times| >= numCommits then st
    else
      var minute := Intn(d.minute, WorkMinutes(w));
      var hour := w.startHour + minute / 60;
      if IsLunchHour(w, hour) || minute in st.used then st
      else
        var t := Timestamp(w.day, hour, minute % 60, Intn(d.second, 60), w.zone);
        TimesState(st.times + [t], st.used + {minute})
  }

  /** The loop's state after a finite prefix of the random stream. */
  function TimesAfter(w: Workday, numCommits: int, draws: seq<TimeDraw>): TimesState
    requires numCommits > 0 ==> w.startHour < w.endHour
    decreases |draws|
  {
    if draws == [] then TimesState([], {})
    else TimesStep(w, numCommits, TimesAfter(w, numCommits, draws[..|draws| - 1]), draws[|draws| - 1])
  }

  /** The commit times produced from a prefix of the random stream. */
  function CommitTimes(w: Workday, numCommits: int, draws: seq<TimeDraw>): seq<Timestamp>
    requires numCommits > 0 ==> w.startHour < w.endHour
  {
    TimesAfter(w, numCommits, draws).times
  }

  /** The distinct non-lunch minute slots that a prefix of the stream draws. */
  function DrawnSlots(w: Workday, draws: seq<TimeDraw>): set<int>
    requires w.startHour < w.endHour
    decreases |draws|
  {
    if draws == [] then {}
    else
      var minute := Intn(draws[|draws| - 1].minute, WorkMinutes(w));
      if IsLunchHour(w, w.startHour + minute / 60) then DrawnSlots(w, draws[..|draws| - 1])
      else DrawnSlots(w, draws[..|draws| - 1]) + {minute}
  }

  /** What the loop keeps true: count bound, window, distinct minutes, slot bookkeeping. */
  predicate TimesStateValid(w: Workday, numCommits: int, st: TimesState) {
    && |st.times| <= numCommits
    && |st.used| == |st.times|
    && (forall i :: 0 <= i < |st.times| ==> InWindow(w, st.times[i]) && SlotOf(w, st.times[i]) in st.used)
    && DistinctMinutes(st.times)
  }

  lemma {:induction false} TimesInvariant(w: Workday, numCommits: int, draws: seq<TimeDraw>)
    requires numCommits >= 0 && (numCommits > 0 ==> w.startHour < w.endHour)
    ensures TimesStateValid(w, numCommits, TimesAfter(w, numCommits, draws))
    ensures w.startHour < w.endHour ==> TimesAfter(w, numCommits, draws).used <= DrawnSlots(w, draws)
    ensures w.startHour < w.endHour && |TimesAfter(w, numCommits, draws).times| < numCommits ==>
      TimesAfter(w, numCommits, draws).used == DrawnSlots(w, draws)
    decreases |draws|
  {
    if draws != [] {
      var prefix := draws[..|draws| - 1];
      TimesInvariant(w, numCommits, prefix);
      TimesStepValid(w, numCommits, TimesAfter(w, numCommits, prefix), draws[|draws| - 1]);
    }
  }

  /** One turn of the retry loop keeps its invariant. */
  lemma TimesStepValid(w: Workday, numCommits: int, st: TimesState, d: TimeDraw)
    requires numCommits > 0 ==> w.startHour < w.endHour
    requires TimesStateValid(w, numCommits, st)
    ensures TimesStateValid(w, numCommits, TimesStep(w, numCommits, st, d))
  {
    if |st.times| < numCommits {
      var minute := Intn(d.minute, WorkMinutes(w));
      var hour := w.startHour + minute / 60;
      if !IsLunchHour(w, hour) && minute !in st.used {
        var t := Timestamp(w.day, hour, minute % 60, Intn(d.second, 60), w.zone);
        assert SlotOf(w, t) == minute;
        assert minute / 60 < w.endHour - w.startHour;
        assert InWindow(w, t);
        var times' := st.times + [t];
        var used' := st.used + {minute};
        assert |used'| == |st.used| + 1;
        forall i | 0 <= i < |st.times|
          ensures times'[i].hour != t.hour || times'[i].minute != t.minute
        {
          assert SlotOf(w, st.times[i]) in st.used;
        }
        assert TimesStep(w, numCommits, st, d) == TimesState(times', used');
      }
    }
  }

  /** Once the loop has its count, further draws change nothing. */
  lemma {:induction false} TimesFullStaysFull(w: Workday, numCommits: int, draws: seq<TimeDraw>, k: nat)
    requires numCommits > 0 ==> w.startHour < w.endHour
    requires k <= |draws| && |TimesAfter(w, numCommits, draws[..k]).times| >= numCommits
    ensures TimesAfter(w, numCommits, draws) == TimesAfter(w, numCommits, draws[..k])
    decreases |draws|
  {
    if k < |draws| {
      var prefix := draws[..|draws| - 1];
      assert prefix[..k] == draws[..k];
      TimesFullStaysFull(w, numCommits, prefix, k);
    } else {
      assert draws[..k] == draws;
    }
  }

  lemma {:induction false} SubsetCard<T>(a: set<T>, b: set<T>)
    requires a <= b
    ensures |a| <= |b|
    decreases a
  {
    if a != {} {
      var x :| x in a;
      SubsetCard(a - {x}, b - {x});
    }
  }

  /**
   * The loop produces min(numCommits, number of distinct non-lunch slots drawn)
   * times: exactly numCommits as soon as the stream has supplied that many
   * distinct usable minutes.
   */
  lemma CommitTimesCount(w: Workday, numCommits: int, draws: seq<TimeDraw>)
    requires numCommits >= 0 && w.startHour < w.endHour
    ensures var n := |DrawnSlots(w, draws)|;
      |CommitTimes(w, numCommits, draws)| == if numCommits <= n then numCommits else n
  {
    TimesInvariant(w, numCommits, draws);
    var st := TimesAfter(w, numCommits, draws);
    if |st.times| >= numCommits {
      SubsetCard(st.used, DrawnSlots(w, draws));
    }
  }

  /**
   * The non-lunch slots below minute m of a workday: the lunch hour, four hours
   * after the start, is the slots 240 to 299.
   */
  function LunchFreeBelow(m: int): set<int>
    decreases m
  {
    if m <= 0 then {}
    else if 240 <= m - 1 < 300 then LunchFreeBelow(m - 1)
    else LunchFreeBelow(m - 1) + {m - 1}
  }

  /** The number of non-lunch minute slots of a workday. */
  function AvailableSlots(w: Workday): int {
    var m := WorkMinutes(w);
    if m <= 0 then 0 else if m <= 240 then m else if m <= 300 then 240 else m - 60
  }

  lemma LunchFreeBelowFacts(m: int)
    ensures forall s :: s in LunchFreeBelow(m) <==> 0 <= s < m && !(240 <= s < 300)
    ensures |LunchFreeBelow(m)| == if m <= 0 then 0 else if m <= 240 then m else if m <= 300 then 240 else m - 60
  {
    LunchFreeBelowMembers(m);
    LunchFreeBelowSize(m);
  }

  lemma {:induction false} LunchFreeBelowMembers(m: int)
    ensures forall s :: s in LunchFreeBelow(m) <==> 0 <= s < m && !(240 <= s < 300)
    decreases m
  {
    if m > 0 {
      LunchFreeBelowMembers(m - 1);
    }
  }

  lemma LunchFreeBelowSize(m: int)
    ensures |LunchFreeBelow(m)| == if m <= 0 then 0 else if m <= 240 then m else if m <= 300 then 240 else m - 60
  {
    LunchFreeBelowCounted(m);
    LunchFreeCountValue(m);
  }

  /** The number of non-lunch slots below m, counted one slot at a time. */
  function LunchFreeCount(m: int): nat
    decreases m
  {
    if m <= 0 then 0 else LunchFreeCount(m - 1) + (if 240 <= m - 1 < 300 then 0 else 1)
  }

  lemma {:induction false} LunchFreeBelowCounted(m: int)
    ensures |LunchFreeBelow(m)| == LunchFreeCount(m)
    decreases m
  {
    if m > 0 {
      LunchFreeBelowCounted(m - 1);
      LunchFreeBelowMembers(m - 1);
      var below := LunchFreeBelow(m - 1);
      assert m - 1 !in below;
    }
  }

  lemma {:induction false} LunchFreeCountValue(m: int)
    ensures LunchFreeCount(m) == if m <= 0 then 0 else if m <= 240 then m else if m <= 300 then 240 else m - 60
    decreases m
  {
    if m > 0 {
      LunchFreeCountValue(m - 1);
    }
  }

  /** Minute s of the workday falls in the lunch hour exactly when 240 <= s < 300. */
  lemma LunchMinute(w: Workday, s: int)
    requires s >= 0
    ensures IsLunchHour(w, w.startHour + s / 60) <==> 240 <= s < 300
  {
  }

  lemma {:induction false} DrawnSlotsWithinDay(w: Workday, draws: seq<TimeDraw>)
    requires w.startHour < w.endHour
    ensures DrawnSlots(w, draws) <= LunchFreeBelow(WorkMinutes(w))
    decreases |draws|
  {
    LunchFreeBelowFacts(WorkMinutes(w));
    if draws != [] {
      DrawnSlotsWithinDay(w, draws[..|draws| - 1]);
      LunchMinute(w, Intn(draws[|draws| - 1].minute, WorkMinutes(w)));
    }
  }

  /**
   * When more commits are asked for than the workday has non-lunch minutes, no
   * stream of draws ever completes the count: the source's retry loop never
   * exits.
   */
  lemma CommitTimesOverbooked(w: Workday, numCommits: int, draws: seq<TimeDraw>)
    requires w.startHour < w.endHour && numCommits > AvailableSlots(w)
    ensures |CommitTimes(w, numCommits, draws)| < numCommits
  {
    CommitTimesCount(w, numCommits, draws);
    DrawnSlotsWithinDay(w, draws);
    LunchFreeBelowFacts(WorkMinutes(w));
    SubsetCard(DrawnSlots(w, draws), LunchFreeBelow(WorkMinutes(w)));
  }

  /** The k-th non-lunch minute slot of a workday. */
  function FreeSlot(k: nat): (s: nat)
    ensures !(240 <= s < 300)
  {
    if k < 240 then k else k + 60
  }

  /** A stream whose k-th turn draws the k-th non-lunch slot. */
  function FreshDraws(m: nat): (draws: seq<TimeDraw>)
    ensures |draws| == m
  {
    if m == 0 then [] else FreshDraws(m - 1) + [TimeDraw(FreeSlot(m - 1), 0)]
  }

  /** The first m turns of the fresh stream draw m distinct usable slots, all below FreeSlot(m). */
  lemma {:induction false} FreshDrawsSlots(w: Workday, m: nat)
    requires w.startHour < w.endHour && m <= AvailableSlots(w)
    ensures |DrawnSlots(w, FreshDraws(m))| == m
    ensures forall s :: s in DrawnSlots(w, FreshDraws(m)) ==> s < FreeSlot(m)
  {
    if m > 0 {
      var draws := FreshDraws(m);
      var slot := FreeSlot(m - 1);
      FreshDrawsSlots(w, m - 1);
      assert draws[..m - 1] == FreshDraws(m - 1);
      assert slot < WorkMinutes(w);
      assert Intn(draws[m - 1].minute, WorkMinutes(w)) == slot;
      LunchMinute(w, slot);
      var before := DrawnSlots(w, FreshDraws(m - 1));
      assert DrawnSlots(w, draws) == before + {slot};
      assert slot !in before;
    }
  }

  /**
   * The converse of CommitTimesOverbooked: when the workday has at least
   * numCommits non-lunch minutes, some stream of draws completes the count.
   */
  lemma CommitTimesReachable(w: Workday, numCommits: int) returns (draws: seq<TimeDraw>)
    requires w.startHour < w.endHour && 0 <= numCommits <= AvailableSlots(w)
    ensures |CommitTimes(w, numCommits, draws)| == numCommits
  {
    draws := FreshDraws(numCommits);
    FreshDrawsSlots(w, numCommits);
    CommitTimesCount(w, numCommits, draws);
  }

  /** With no commits asked for, there are no times. */
  lemma CommitTimesNone(w: Workday, draws: seq<TimeDraw>)
    ensures CommitTimes(w, 0, draws) == []
  {
    TimesInvariant(w, 0, draws);
  }

  /**
   * The times come in the order they are drawn, not in clock order: on a
   * 9-to-17 workday, drawing minute 60 and then minute 0 gives 10:00 before 9:00.
   */
  lemma CommitTimesDrawOrder(w: Workday, draws: seq<TimeDraw>)
    requires w.startHour == 9 && w.endHour == 17
    requires draws == [TimeDraw(60, 0), TimeDraw(0, 0)]
    ensures var times := CommitTimes(w, 2, draws);
      |times| == 2 && times[0].hour == 10 && times[1].hour == 9
  {
    var empty := TimesState([], {});
    assert draws[..1] == [TimeDraw(60, 0)] && draws[..1][..0] == [];
    assert TimesAfter(w, 2, draws[..1][..0]) == empty;
    assert Intn(60, WorkMinutes(w)) == 60 && Intn(0, 60) == 0;
    var first := TimesStep(w, 2, empty, TimeDraw(60, 0));
    assert first == TimesState([Timestamp(w.day, 10, 0, 0, w.zone)], {60});
    assert TimesAfter(w, 2, draws[..1]) == first;
    assert Intn(0, WorkMinutes(w)) == 0;
    assert TimesAfter(w, 2, draws) == TimesStep(w, 2, first, TimeDraw(0, 0));
  }

  /**
   * generateCommitTimes: draws minutes of the workday, skips the lunch hour and
   * minutes already used, and adds a random second. The random stream is a
   * finite prefix `draws`; the loop stops when it has numCommits times or the
   * prefix is used up.
   */
  method GenerateCommitTimes(w: Workday, numCommits: int, draws: seq<TimeDraw>) returns (times: seq<Timestamp>)
    requires numCommits >= 0
    requires numCommits > 0 ==> w.startHour < w.endHour
    ensures times == CommitTimes(w, numCommits, draws)
    ensures |times| <= numCommits
    ensures forall i :: 0 <= i < |times| ==> InWindow(w, times[i])
    ensures DistinctMinutes(times)
  {
    var workMinutes := (w.endHour - w.startHour) * 60;
    var lunchStart := w.startHour + 4;
    times := [];
    var usedMinutes: set<int> := {};
    var k := 0;
    while |times| < numCommits && k < |draws|
      invariant 0 <= k <= |draws|
      invariant TimesAfter(w, numCommits, draws[..k]) == TimesState(times, usedMinutes)
    {
      assert draws[..k + 1][..k] == draws[..k];
      var minute := Intn(draws[k].minute, workMinutes);
      var hour := w.startHour + minute / 60;
      var min := minute % 60;
      k := k + 1;
      if hour == lunchStart {
        continue;
      }
      if minute !in usedMinutes {
        var commitTime := Timestamp(w.day, hour, min, Intn(draws[k - 1].second, 60), w.zone);
        times := times + [commitTime];
        usedMinutes := usedMinutes + {minute};
      }
    }
    if k < |draws| {
      TimesFullStaysFull(w, numCommits, draws, k);
    } else {
      assert draws[..k] == draws;
    }
    TimesInvariant(w, numCommits, draws);
  }

  // ---------------------------------------------------------------------------
  // Phase-dependent weights
  // ---------------------------------------------------------------------------

  /** The category a phase floors, and the floor. */
  function PhaseFloor(phase: ProjectPhase): Option<(string, real)> {
    match phase
    case FeatureDevelopment => Some(("feature", 0.4))
    case Stabilization => Some(("fix", 0.4))
    case Release => Some(("docs", 0.3))
    case _ => None
  }

  /** A weight, or 0 when the key is missing (Go's zero value). */
  function WeightOrZero(style: map<string, real>, key: string): real {
    if key in style then style[key] else 0.0
  }

  /** The phase-adjusted weights. */
  function AdjustedStyle(style: map<string, real>, phase: ProjectPhase): map<string, real> {
    match PhaseFloor(phase)
    case None => style
    case Some((key, floor)) => style[key := Max(floor, WeightOrZero(style, key))]
  }

  /**
   * The phase's category ends up at max(floor, old weight or 0), added when it
   * was missing; every other category keeps its weight; the phases without a
   * floor leave the weights as they are; weights are never renormalised.
   */
  lemma AdjustedStyleFloors(style: map<string, real>, phase: ProjectPhase)
    ensures PhaseFloor(phase) == None ==> AdjustedStyle(style, phase) == style
    ensures PhaseFloor(phase).Some? ==>
      var (key, floor) := PhaseFloor(phase).value;
      var adjusted := AdjustedStyle(style, phase);
      && adjusted.Keys == style.Keys + {key}
      && adjusted[key] == Max(floor, WeightOrZero(style, key))
      && (forall k :: k in style && k != key ==> adjusted[k] == style[k])
    ensures phase in {Planning, Maintenance, Hotfix} ==> AdjustedStyle(style, phase) == style
  {
  }

  /** Adjusting twice is adjusting once, and non-negative weights stay non-negative. */
  lemma AdjustedStyleIdempotent(style: map<string, real>, phase: ProjectPhase)
    ensures AdjustedStyle(AdjustedStyle(style, phase), phase) == AdjustedStyle(style, phase)
    ensures NonNegativeWeights(style) ==> NonNegativeWeights(AdjustedStyle(style, phase))
  {
  }

  /**
   * adjustCodingStyle: copies the weights into a fresh map, then floors the
   * phase's category.
   */
  method AdjustCodingStyle(style: map<string, real>, phase: ProjectPhase) returns (adjusted: map<string, real>)
    ensures adjusted == AdjustedStyle(style, phase)
  {
    adjusted := map[];
    var pending := style.Keys;
    while pending != {}
      invariant pending <= style.Keys
      invariant adjusted.Keys == style.Keys - pending
      invariant forall k :: k in adjusted ==> adjusted[k] == style[k]
      decreases pending
    {
      var k :| k in pending;
      adjusted := adjusted[k := style[k]];
      pending := pending - {k};
    }
    assert adjusted == style;
    match phase {
      case FeatureDevelopment =>
        adjusted := adjusted["feature" := Max(0.4, WeightOrZero(adjusted, "feature"))];
      case Stabilization =>
        adjusted := adjusted["fix" := Max(0.4, WeightOrZero(adjusted, "fix"))];
      case Release =>
        adjusted := adjusted["docs" := Max(0.3, WeightOrZero(adjusted, "docs"))];
      case _ =>
    }
  }

  // ---------------------------------------------------------------------------
  // Cumulative-weight selection
  // ---------------------------------------------------------------------------

  /** `order` lists each key exactly once: a Go map's iteration order. */
  predicate Enumerates(order: seq<string>, keys: set<string>) {
    && (forall i, j :: 0 <= i < j < |order| ==> order[i] != order[j])
    && (forall k :: k in keys ==> k in order)
    && (forall i :: 0 <= i < |order| ==> order[i] in keys)
  }

  /** The sum of the weights of the listed keys. */
  function WeightOf(style: map<string, real>, keys: seq<string>): real
    decreases |keys|
  {
    if keys == [] then 0.0
    else WeightOf(style, keys[..|keys| - 1]) + WeightOrZero(style, keys[|keys| - 1])
  }

  /** The walk from position i with the running sum `current`: the first key whose sum reaches r. */
  function FirstReaching(style: map<string, real>, order: seq<string>, r: real, i: nat, current: real): (found: Option<string>)
    requires i <= |order|
    ensures found.Some? ==> found.value in order
    decreases |order| - i
  {
    if i == |order| then None
    else
      var c := current + WeightOrZero(style, order[i]);
      if r <= c then Some(order[i]) else FirstReaching(style, order, r, i + 1, c)
  }

  /** The draw u of rand.Float64 scaled to [0, total). */
  function Scale(u: real, total: real): real {
    u * total
  }

  /** The point the cumulative walk looks for: u times the total weight. */
  function Threshold(style: map<string, real>, order: seq<string>, u: real): real {
    Scale(u, WeightOf(style, order))
  }

  /**
   * The category selectCommitType returns for the draw u of rand.Float64: the
   * first key, in iteration order, whose cumulative weight reaches u * total;
   * the first key if none does; "feature" for an empty map. The Go fallback
   * starts a second range over the map, whose order may differ from the
   * first; the model takes the first key of the same order. That branch is
   * never taken when the weights are non-negative and u is a Float64 draw
   * (SelectedTypeIsFirstReaching), so the difference cannot show.
   */
  function SelectedType(style: map<string, real>, order: seq<string>, u: real): string
  {
    match FirstReaching(style, order, Threshold(style, order, u), 0, 0.0)
    case Some(t) => t
    case None => if |order| > 0 then order[0] else "feature"
  }

  /** The first loop of selectCommitType: the sum of all the weights. */
  method TotalWeight(style: map<string, real>, order: seq<string>) returns (total: real)
    requires Enumerates(order, style.Keys)
    ensures total == WeightOf(style, order)
  {
    total := 0.0;
    var i := 0;
    while i < |order|
      invariant 0 <= i <= |order|
      invariant total == WeightOf(style, order[..i])
    {
      assert order[..i + 1][..i] == order[..i];
      assert style[order[i]] == WeightOrZero(style, order[i]);
      total := total + style[order[i]];
      i := i + 1;
    }
    assert order[..i] == order;
  }

  /** selectCommitType: the total, then the cumulative walk. */
  method SelectCommitType(style: map<string, real>, order: seq<string>, u: real) returns (commitType: string)
    requires Enumerates(order, style.Keys)
    ensures commitType == SelectedType(style, order, u)
    ensures |style| > 0 ==> commitType in style
    ensures |style| == 0 ==> commitType == "feature"
  {
    SelectedTypeInStyle(style, order, u);
    var total := TotalWeight(style, order);
    var r := Scale(u, total);
    var current := 0.0;
    var i := 0;
    while i < |order|
      invariant 0 <= i <= |order|
      invariant FirstReaching(style, order, r, 0, 0.0) == FirstReaching(style, order, r, i, current)
    {
      ghost var before := current;
      assert style[order[i]] == WeightOrZero(style, order[i]);
      current := current + style[order[i]];
      FirstReachingStep(style, order, r, i, before, current);
      if r <= current {
        return order[i];
      }
      i := i + 1;
    }
    if |order| > 0 {
      return order[0];
    }
    return "feature";
  }

  /** One step of the walk: stop at position i, or go on with the larger sum. */
  lemma FirstReachingStep(style: map<string, real>, order: seq<string>, r: real, i: nat, current: real, next: real)
    requires i < |order| && next == current + WeightOrZero(style, order[i])
    ensures r <= next ==> FirstReaching(style, order, r, i, current) == Some(order[i])
    ensures !(r <= next) ==> FirstReaching(style, order, r, i, current) == FirstReaching(style, order, r, i + 1, next)
  {
  }

  /** The selected category is a key of a non-empty map, and "feature" for an empty one. */
  lemma SelectedTypeInStyle(style: map<string, real>, order: seq<string>, u: real)
    requires Enumerates(order, style.Keys)
    ensures |style| > 0 ==> SelectedType(style, order, u) in style
    ensures |style| == 0 ==> SelectedType(style, order, u) == "feature"
  {
    assert |order| > 0 ==> order[0] in style;
    if |style| > 0 {
      var k :| k in style;
      assert k in order;
    }
  }

  lemma {:induction false} WeightOfNonNegative(style: map<string, real>, keys: seq<string>)
    requires NonNegativeWeights(style)
    ensures WeightOf(style, keys) >= 0.0
    decreases |keys|
  {
    if keys != [] {
      WeightOfNonNegative(style, keys[..|keys| - 1]);
    }
  }

  /** The cumulative weight up to and including position j of the order. */
  function Cumulative(style: map<string, real>, order: seq<string>, j: nat): real
    requires j < |order|
  {
    WeightOf(style, order[..j + 1])
  }

  /**
   * The walk from position i, started with the sum of the keys before i and
   * with r no larger than the total, stops at the first position whose
   * cumulative weight reaches r.
   */
  lemma {:induction false} FirstReachingIndex(style: map<string, real>, order: seq<string>, r: real, i: nat)
    returns (k: nat)
    requires i < |order|
    requires r <= WeightOf(style, order)
    ensures i <= k < |order|
    ensures FirstReaching(style, order, r, i, WeightOf(style, order[..i])) == Some(order[k])
    ensures r <= Cumulative(style, order, k)
    ensures forall j: nat :: i <= j < k ==> Cumulative(style, order, j) < r
    decreases |order| - i
  {
    assert order[..i + 1][..i] == order[..i];
    var c := WeightOf(style, order[..i]) + WeightOrZero(style, order[i]);
    assert c == Cumulative(style, order, i);
    if i + 1 == |order| {
      assert order[..i + 1] == order;
    }
    if r <= c {
      k := i;
    } else {
      k := FirstReachingIndex(style, order, r, i + 1);
    }
  }

  lemma ThresholdBelowTotal(style: map<string, real>, order: seq<string>, u: real)
    requires NonNegativeWeights(style) && IsFloat64(u)
    ensures Threshold(style, order, u) <= WeightOf(style, order)
  {
    var total := WeightOf(style, order);
    WeightOfNonNegative(style, order);
    ScaledBelow(u, total);
  }

  lemma ScaledBelow(u: real, total: real)
    requires IsFloat64(u) && total >= 0.0
    ensures Scale(u, total) <= total
  {
    assert u * total <= total by {
      assert total - u * total == (1.0 - u) * total;
    }
  }

  /**
   * With non-negative weights and a draw u in [0, 1), selection never falls
   * back: the result is the key at the first position of the iteration order
   * whose cumulative weight reaches u * total.
   */
  lemma SelectedTypeIsFirstReaching(style: map<string, real>, order: seq<string>, u: real)
    returns (k: nat)
    requires Enumerates(order, style.Keys) && |style| > 0
    requires NonNegativeWeights(style) && IsFloat64(u)
    ensures k < |order| && SelectedType(style, order, u) == order[k]
    ensures Threshold(style, order, u) <= Cumulative(style, order, k)
    ensures forall j: nat :: j < k ==> Cumulative(style, order, j) < Threshold(style, order, u)
  {
    var x :| x in style;
    assert x in order;
    ThresholdBelowTotal(style, order, u);
    assert order[..0] == [];
    assert WeightOf(style, order[..0]) == 0.0;
    k := FirstReachingIndex(style, order, Threshold(style, order, u), 0);
  }

  /**
   * The deterministic content of "feature is chosen 80% of the time" for the
   * weights {feature: 0.8, fix: 0.2}: in either iteration order, the set of
   * draws that select "feature" is an interval of length 0.8.
   */
  lemma WeightedSelectionExample(u: real)
    requires IsFloat64(u)
    ensures var style := map["feature" := 0.8, "fix" := 0.2];
      && (SelectedType(style, ["feature", "fix"], u) == "feature" <==> u <= 0.8)
      && (SelectedType(style, ["fix", "feature"], u) == "feature" <==> u > 0.2)
  {
    var style := map["feature" := 0.8, "fix" := 0.2];
    var o1 := ["feature", "fix"];
    var o2 := ["fix", "feature"];
    assert o1[..1] == ["feature"] && o1[..0] == [];
    assert o2[..1] == ["fix"] && o2[..0] == [];
    assert WeightOf(style, o1) == 1.0;
    assert WeightOf(style, o2) == 1.0;
  }

  // ---------------------------------------------------------------------------
  // Descriptions
  // ---------------------------------------------------------------------------

  const Issues: seq<string> := ["memory leak", "performance", "edge case"]

  /** The component of a focus area: the text before its first '/'. */
  function Component(area: string): string {
    Split(area, '/')[0]
  }

  /** The feature of a focus area: the second '/'-piece, or "feature" when there is none. */
  function FeatureOf(area: string): string {
    var parts := Split(area, '/');
    if |parts| > 1 then parts[1] else "feature"
  }

  /** The component is the longest '/'-free prefix; the feature is the next piece. */
  lemma ComponentAndFeature(area: string)
    ensures '/' !in Component(area)
    ensures '/' !in area ==> Component(area) == area && FeatureOf(area) == "feature"
    ensures '/' in area ==>
      && HasPrefix(area, Component(area) + "/" + FeatureOf(area))
      && '/' !in FeatureOf(area)
      && (|Component(area) + "/" + FeatureOf(area)| == |area|
          || area[|Component(area) + "/" + FeatureOf(area)|] == '/')
  {
    if '/' in area {
      var i := IndexOf(area, '/');
      var rest := area[i + 1..];
      assert Component(area) == area[..i];
      var f := Split(rest, '/')[0];
      assert FeatureOf(area) == f;
      if '/' in rest {
        var j := IndexOf(rest, '/');
        assert f == rest[..j];
        assert area[..i] + "/" + rest[..j] == area[..i + 1 + j];
      } else {
        assert f == rest;
        assert area[..i] + "/" + rest == area;
      }
    }
  }

  /** generateCommitDescription. */
  function Description(
    persona: Persona, commitType: string, focusAreas: seq<string>,
    areaDraw: nat, templateDraw: nat, issueDraw: nat): string
  {
    if |focusAreas| == 0 then
      "Update codebase"
    else
      var area := focusAreas[Intn(areaDraw, |focusAreas|)];
      var component := Component(area);
      var feature := FeatureOf(area);
      if |persona.commonPatterns| == 0 then
        "Update " + component
      else
        var pattern := persona.commonPatterns[Intn(templateDraw, |persona.commonPatterns|)];
        var p1 := ReplaceAll(pattern, "{component}", component);
        var p2 := ReplaceAll(p1, "{feature}", feature);
        ReplaceAll(p2, "{issue}", Issues[Intn(issueDraw, |Issues|)])
  }

  /** The two fallbacks: no focus areas, and no templates. */
  lemma DescriptionFallbacks(persona: Persona, commitType: string, focusAreas: seq<string>, a: nat, t: nat, i: nat)
    ensures |focusAreas| == 0 ==> Description(persona, commitType, focusAreas, a, t, i) == "Update codebase"
    ensures |focusAreas| > 0 && persona.commonPatterns == [] ==>
      Description(persona, commitType, focusAreas, a, t, i) == "Update " + Component(focusAreas[Intn(a, |focusAreas|)])
  {
  }

  /** The focus area a description draws, and the template. */
  function AreaDrawn(focusAreas: seq<string>, a: nat): string
    requires |focusAreas| > 0
  {
    focusAreas[Intn(a, |focusAreas|)]
  }

  function TemplateDrawn(persona: Persona, t: nat): string
    requires |persona.commonPatterns| > 0
  {
    persona.commonPatterns[Intn(t, |persona.commonPatterns|)]
  }

  /**
   * A template with one {component} slot renders as the template with the
   * drawn area's component in the slot.
   */
  lemma DescriptionComponentSlot(
    persona: Persona, commitType: string, focusAreas: seq<string>, a: nat, t: nat, i: nat,
    head: string, tail: string)
    requires |focusAreas| > 0 && |persona.commonPatterns| > 0
    requires TemplateDrawn(persona, t) == head + "{component}" + tail
    requires '{' !in head && '{' !in tail && '{' !in Component(AreaDrawn(focusAreas, a))
    ensures Description(persona, commitType, focusAreas, a, t, i) ==
      head + Component(AreaDrawn(focusAreas, a)) + tail
  {
    var component := Component(AreaDrawn(focusAreas, a));
    var rendered := head + component + tail;
    ReplaceAllOnce(head, tail, "{component}", component);
    ReplaceAllAbsent(rendered, "{feature}", FeatureOf(AreaDrawn(focusAreas, a)));
    ReplaceAllAbsent(rendered, "{issue}", Issues[Intn(i, |Issues|)]);
  }

  /**
   * A template with a {feature} slot followed by a {component} slot (as in
   * "Add {feature} to {component}") renders with both slots filled from the
   * drawn area.
   */
  lemma DescriptionFeatureComponentSlots(
    persona: Persona, commitType: string, focusAreas: seq<string>, a: nat, t: nat, i: nat,
    head: string, mid: string, tail: string)
    requires |focusAreas| > 0 && |persona.commonPatterns| > 0
    requires TemplateDrawn(persona, t) == head + "{feature}" + mid + "{component}" + tail
    requires '{' !in head && '{' !in mid && '{' !in tail
    requires '{' !in Component(AreaDrawn(focusAreas, a)) && '{' !in FeatureOf(AreaDrawn(focusAreas, a))
    ensures Description(persona, commitType, focusAreas, a, t, i) ==
      head + FeatureOf(AreaDrawn(focusAreas, a)) + mid + Component(AreaDrawn(focusAreas, a)) + tail
  {
    var component := Component(AreaDrawn(focusAreas, a));
    var feature := FeatureOf(AreaDrawn(focusAreas, a));
    FillComponentAfterFeature(head, mid, tail, component);
    var fp := "{feature}";
    ReplaceAllOnce(head, mid + component + tail, fp, feature);
    var rendered := head + feature + (mid + component + tail);
    ReplaceAllAbsent(rendered, "{issue}", Issues[Intn(i, |Issues|)]);
  }

  /**
   * A template with one {feature} slot and no {component} slot (as in
   * "Implement {feature}") renders with the drawn area's feature in the slot.
   */
  lemma DescriptionFeatureSlot(
    persona: Persona, commitType: string, focusAreas: seq<string>, a: nat, t: nat, i: nat,
    head: string, tail: string)
    requires |focusAreas| > 0 && |persona.commonPatterns| > 0
    requires TemplateDrawn(persona, t) == head + "{feature}" + tail
    requires '{' !in head && '{' !in tail && '{' !in FeatureOf(AreaDrawn(focusAreas, a))
    ensures Description(persona, commitType, focusAreas, a, t, i) ==
      head + FeatureOf(AreaDrawn(focusAreas, a)) + tail
  {
    var component := Component(AreaDrawn(focusAreas, a));
    var feature := FeatureOf(AreaDrawn(focusAreas, a));
    KeepFeatureSlot(head, tail, component);
    ReplaceAllOnce(head, tail, "{feature}", feature);
    ReplaceAllAbsent(head + feature + tail, "{issue}", Issues[Intn(i, |Issues|)]);
  }

  /** The {component} pass leaves a lone {feature} slot in place. */
  lemma KeepFeatureSlot(head: string, tail: string, component: string)
    requires '{' !in head && '{' !in tail
    ensures ReplaceAll(head + "{feature}" + tail, "{component}", component) == head + "{feature}" + tail
  {
    var fp := "{feature}";
    var cp := "{component}";
    calc {
      ReplaceAll(head + fp + tail, cp, component);
      { assert head + fp + tail == head + (fp + tail); }
      ReplaceAll(head + (fp + tail), cp, component);
      { ReplaceAllSkip(head, fp + tail, cp, component); }
      head + ReplaceAll(fp + tail, cp, component);
      { ReplaceAllPast(fp, tail, cp, component, 1); }
      head + (fp + ReplaceAll(tail, cp, component));
      { ReplaceAllAbsent(tail, cp, component); }
      head + (fp + tail);
    }
  }

  /** The {component} pass leaves a {feature} slot before it in place. */
  lemma FillComponentAfterFeature(head: string, mid: string, tail: string, component: string)
    requires '{' !in head && '{' !in mid && '{' !in tail
    ensures ReplaceAll(head + "{feature}" + mid + "{component}" + tail, "{component}", component) ==
      head + "{feature}" + (mid + component + tail)
  {
    ReplaceAllAfter(head, "{feature}", mid, tail, "{component}", component);
  }

  /**
   * The template "Add {feature} to {component}" with the focus area
   * "backend/auth" renders as "Add auth to backend", whatever the draws.
   */
  lemma DescriptionExample(persona: Persona, commitType: string, focusAreas: seq<string>, a: nat, t: nat, i: nat)
    requires persona.commonPatterns == ["Add {feature} to {component}"]
    requires focusAreas == ["backend/auth"]
    ensures Description(persona, commitType, focusAreas, a, t, i) == "Add auth to backend"
  {
    var area := AreaDrawn(focusAreas, a);
    assert area == focusAreas[0];
    assert TemplateDrawn(persona, t) == "Add " + "{feature}" + " to " + "{component}" + "" by {
      ExampleTemplatePieces();
    }
    BackendAuthArea(area);
    assert '{' !in Component(area) && '{' !in FeatureOf(area) by {
      ExampleNoBraces();
    }
    assert '{' !in "Add " && '{' !in " to " && '{' !in "" by {
      ExampleNoBraces();
    }
    calc {
      Description(persona, commitType, focusAreas, a, t, i);
      { DescriptionFeatureComponentSlots(persona, commitType, focusAreas, a, t, i, "Add ", " to ", ""); }
      "Add " + FeatureOf(area) + " to " + Component(area) + "";
      "Add " + "auth" + " to " + "backend" + "";
      { ExampleTemplatePieces(); }
      "Add auth to backend";
    }
  }

  lemma ExampleTemplatePieces()
    ensures "Add {feature} to {component}" == "Add " + "{feature}" + " to " + "{component}" + ""
    ensures "Add " + "auth" + " to " + "backend" + "" == "Add auth to backend"
  {
  }

  lemma ExampleNoBraces()
    ensures '{' !in "Add " && '{' !in " to " && '{' !in ""
    ensures '{' !in "auth" && '{' !in "backend"
  {
  }

  lemma BackendAuthArea(area: string)
    requires area == "backend/auth"
    ensures Component(area) == "backend" && FeatureOf(area) == "auth"
  {
    SplitPair("backend", '/', "auth");
    assert "backend" + ['/'] + "auth" == area;
  }

  /**
   * night_owl's template "Implement {feature}" with the focus area
   * "frontend/ui" renders as "Implement ui", whatever the draws.
   */
  lemma FeatureDescriptionExample(persona: Persona, commitType: string, focusAreas: seq<string>, a: nat, t: nat, i: nat)
    requires persona.commonPatterns == ["Implement {feature}"]
    requires focusAreas == ["frontend/ui"]
    ensures Description(persona, commitType, focusAreas, a, t, i) == "Implement ui"
  {
    var area := AreaDrawn(focusAreas, a);
    assert area == focusAreas[0];
    assert TemplateDrawn(persona, t) == "Implement " + "{feature}" + "" by {
      FeatureTemplatePieces();
    }
    FrontendUiArea(area);
    assert '{' !in FeatureOf(area) && '{' !in "Implement " && '{' !in "" by {
      FeatureTemplatePieces();
    }
    calc {
      Description(persona, commitType, focusAreas, a, t, i);
      { DescriptionFeatureSlot(persona, commitType, focusAreas, a, t, i, "Implement ", ""); }
      "Implement " + FeatureOf(area) + "";
      "Implement " + "ui" + "";
      { FeatureTemplatePieces(); }
      "Implement ui";
    }
  }

  lemma FeatureTemplatePieces()
    ensures "Implement {feature}" == "Implement " + "{feature}" + ""
    ensures "Implement " + "ui" + "" == "Implement ui"
    ensures '{' !in "Implement " && '{' !in "" && '{' !in "ui"
  {
  }

  lemma FrontendUiArea(area: string)
    requires area == "frontend/ui"
    ensures FeatureOf(area) == "ui"
  {
    SplitPair("frontend", '/', "ui");
    assert "frontend" + ['/'] + "ui" == area;
  }

  // ---------------------------------------------------------------------------
  // One day's commits
  // ---------------------------------------------------------------------------

  /** The draws for one commit: the iteration order of the weights, the Float64 draw, and five Intn draws. */
  datatype CommitDraw = CommitDraw(
    order: seq<string>, weight: real, files: nat, change: nat,
    area: nat, template: nat, issue: nat)

  /** The draws for one day: the count, the retry loop's stream, and the k-th commit's draws. */
  datatype DayDraw = DayDraw(count: nat, times: seq<TimeDraw>, commits: nat -> CommitDraw)

  predicate ValidCommitDraw(cd: CommitDraw, style: map<string, real>) {
    Enumerates(cd.order, style.Keys) && IsFloat64(cd.weight)
  }

  ghost predicate ValidDayDraw(dd: DayDraw, style: map<string, real>) {
    forall k: nat :: ValidCommitDraw(dd.commits(k), style)
  }

  /**
   * The file count of a commit: a draw from the row's range, made at least one
   * wide when the range is inverted.
   */
  function NumFilesFor(info: CommitTypeInfo, draw: nat): (n: int)
    ensures var (lo, hi) := info.fileCountRange;
      lo <= n <= lo + (if hi - lo + 1 <= 0 then 1 else hi - lo + 1) - 1
  {
    var fileCountDiff := info.fileCountRange.1 - info.fileCountRange.0 + 1;
    var width := if fileCountDiff <= 0 then 1 else fileCountDiff;
    Intn(draw, width) + info.fileCountRange.0
  }

  /** The change kind of a commit: a draw from the row's kinds, or "unknown" when there are none. */
  function ChangeTypeFor(info: CommitTypeInfo, draw: nat): (c: string)
    ensures |info.changes| > 0 ==> c in info.changes
    ensures |info.changes| == 0 ==> c == "unknown"
  {
    if |info.changes| > 0 then info.changes[Intn(draw, |info.changes|)] else "unknown"
  }

  /** The record for one commit time. */
  function MakeCommit(
    t: Timestamp, cd: CommitDraw, style: map<string, real>,
    persona: Persona, focusAreas: seq<string>): CommitPattern
  {
    var commitType := SelectedType(style, cd.order, cd.weight);
    var info := CommitTypeOf(commitType);
    CommitPattern(t, NumFilesFor(info, cd.files), ChangeTypeFor(info, cd.change), commitType,
                  Description(persona, commitType, focusAreas, cd.area, cd.template, cd.issue))
  }

  function WorkdayOf(persona: Persona, date: Date): Workday {
    Workday(date, persona.workStartHour, persona.workEndHour, persona.timezone)
  }

  /** A persona and class for which drawing minutes never hits an empty workday. */
  predicate CanDrawTimes(persona: Persona, freq: string) {
    persona.workStartHour < persona.workEndHour || CommitRange(freq) == (0, 0)
  }

  /** f applied to each element and its position, in order. */
  function Indexed<A, B>(xs: seq<A>, f: (A, nat) -> B): seq<B>
    decreases |xs|
  {
    if xs == [] then []
    else Indexed(xs[..|xs| - 1], f) + [f(xs[|xs| - 1], |xs| - 1)]
  }

  lemma {:induction false} IndexedAt<A, B>(xs: seq<A>, f: (A, nat) -> B)
    ensures |Indexed(xs, f)| == |xs|
    ensures forall k :: 0 <= k < |xs| ==> Indexed(xs, f)[k] == f(xs[k], k)
    decreases |xs|
  {
    if xs != [] {
      var k := |xs| - 1;
      var front := xs[..k];
      IndexedAt(front, f);
      var previous := Indexed(front, f);
      var r := Indexed(xs, f);
      assert r == previous + [f(xs[k], k)];
      forall j | 0 <= j < |xs|
        ensures r[j] == f(xs[j], j)
      {
        if j < k {
          assert r[j] == previous[j] && front[j] == xs[j];
        }
      }
    }
  }

  lemma IndexedExtend<A, B>(xs: seq<A>, k: nat, f: (A, nat) -> B)
    requires k < |xs|
    ensures Indexed(xs[..k + 1], f) == Indexed(xs[..k], f) + [f(xs[k], k)]
  {
    assert xs[..k + 1][..k] == xs[..k];
  }

  /** The record builder of a day: the k-th commit time with the k-th commit draws. */
  function CommitMaker(dd: DayDraw, style: map<string, real>, persona: Persona, focusAreas: seq<string>):
    (Timestamp, nat) -> CommitPattern
  {
    (t: Timestamp, k: nat) => MakeCommit(t, dd.commits(k), style, persona, focusAreas)
  }

  /** The records for a list of commit times, the k-th built from the k-th commit draws. */
  function CommitsFor(
    times: seq<Timestamp>, dd: DayDraw, style: map<string, real>,
    persona: Persona, focusAreas: seq<string>): seq<CommitPattern>
  {
    Indexed(times, CommitMaker(dd, style, persona, focusAreas))
  }

  /** One record per commit time, the k-th built from the k-th time and the k-th draws. */
  lemma CommitsForIndex(
    times: seq<Timestamp>, dd: DayDraw, style: map<string, real>,
    persona: Persona, focusAreas: seq<string>)
    ensures |CommitsFor(times, dd, style, persona, focusAreas)| == |times|
    ensures forall k :: 0 <= k < |times| ==>
      CommitsFor(times, dd, style, persona, focusAreas)[k] ==
        MakeCommit(times[k], dd.commits(k), style, persona, focusAreas)
  {
    IndexedAt(times, CommitMaker(dd, style, persona, focusAreas));
  }

  lemma CommitsForExtend(
    times: seq<Timestamp>, k: nat, dd: DayDraw, style: map<string, real>,
    persona: Persona, focusAreas: seq<string>)
    requires k < |times|
    ensures CommitsFor(times[..k + 1], dd, style, persona, focusAreas) ==
      CommitsFor(times[..k], dd, style, persona, focusAreas) +
        [MakeCommit(times[k], dd.commits(k), style, persona, focusAreas)]
  {
    IndexedExtend(times, k, CommitMaker(dd, style, persona, focusAreas));
  }

  /** The day's records: one per commit time, in the same order. */
  function DayCommits(date: Date, persona: Persona, sprint: SprintCycle, freq: string, dd: DayDraw): seq<CommitPattern>
    requires CanDrawTimes(persona, freq)
  {
    var times := CommitTimes(WorkdayOf(persona, date), CommitCount(freq, dd.count), dd.times);
    CommitsFor(times, dd, AdjustedStyle(persona.codingStyle, sprint.phase), persona, sprint.focusAreas)
  }

  /**
   * The body of generateDayCommits' loop: selects the category, draws the file
   * count and the change kind, and renders the description.
   */
  method NewCommit(
    commitTime: Timestamp, cd: CommitDraw, codingStyle: map<string, real>,
    persona: Persona, focusAreas: seq<string>) returns (commit: CommitPattern)
    requires ValidCommitDraw(cd, codingStyle)
    ensures commit == MakeCommit(commitTime, cd, codingStyle, persona, focusAreas)
  {
    var commitType := SelectCommitType(codingStyle, cd.order, cd.weight);
    var commitInfo := CommitTypeOf(commitType);
    var fileCountDiff := commitInfo.fileCountRange.1 - commitInfo.fileCountRange.0 + 1;
    if fileCountDiff <= 0 {
      fileCountDiff := 1;
    }
    var numFiles := Intn(cd.files, fileCountDiff) + commitInfo.fileCountRange.0;
    var changeType := "unknown";
    if |commitInfo.changes| > 0 {
      changeType := commitInfo.changes[Intn(cd.change, |commitInfo.changes|)];
    }
    var description := Description(persona, commitType, focusAreas, cd.area, cd.template, cd.issue);
    commit := CommitPattern(commitTime, numFiles, changeType, commitType, description);
  }

  /** generateDayCommits: the day's commit count, its commit times, the adjusted weights, one record per time. */
  method GenerateDayCommits(date: Date, persona: Persona, sprint: SprintCycle, adjustedFreq: string, dd: DayDraw)
    returns (patterns: seq<CommitPattern>)
    requires CanDrawTimes(persona, adjustedFreq)
    requires ValidDayDraw(dd, AdjustedStyle(persona.codingStyle, sprint.phase))
    ensures patterns == DayCommits(date, persona, sprint, adjustedFreq, dd)
  {
    var numCommits := CommitCount(adjustedFreq, dd.count);
    var commitTimes := GenerateCommitTimes(WorkdayOf(persona, date), numCommits, dd.times);
    var codingStyle := AdjustCodingStyle(persona.codingStyle, sprint.phase);
    patterns := [];
    var i := 0;
    while i < |commitTimes|
      invariant 0 <= i <= |commitTimes|
      invariant patterns == CommitsFor(commitTimes[..i], dd, codingStyle, persona, sprint.focusAreas)
    {
      CommitsForExtend(commitTimes, i, dd, codingStyle, persona, sprint.focusAreas);
      assert ValidCommitDraw(dd.commits(i), codingStyle);
      var commit := NewCommit(commitTimes[i], dd.commits(i), codingStyle, persona, sprint.focusAreas);
      patterns := patterns + [commit];
      i := i + 1;
    }
    assert commitTimes[..i] == commitTimes;
  }

  /**
   * A day has one record per commit time, in the order the times were drawn:
   * inside the work window, off the lunch hour, no two in the same minute, and
   * no more than the day's commit count. It has exactly that count when the
   * stream draws enough distinct free minutes, otherwise one record per free
   * minute the stream reaches; a day with an empty work window has none.
   */
  lemma DayCommitsTimes(date: Date, persona: Persona, sprint: SprintCycle, freq: string, dd: DayDraw)
    requires CanDrawTimes(persona, freq)
    ensures var w := WorkdayOf(persona, date);
      var times := CommitTimes(w, CommitCount(freq, dd.count), dd.times);
      var r := DayCommits(date, persona, sprint, freq, dd);
      && |r| == |times|
      && |r| <= CommitCount(freq, dd.count)
      && DistinctMinutes(times)
      && forall k :: 0 <= k < |r| ==> r[k].timestamp == times[k] && InWindow(w, r[k].timestamp)
    ensures var w := WorkdayOf(persona, date);
      var n := CommitCount(freq, dd.count);
      var r := DayCommits(date, persona, sprint, freq, dd);
      if w.startHour < w.endHour then
        |r| == (if n <= |DrawnSlots(w, dd.times)| then n else |DrawnSlots(w, dd.times)|)
      else
        r == []
  {
    var w := WorkdayOf(persona, date);
    var n := CommitCount(freq, dd.count);
    TimesInvariant(w, n, dd.times);
    if w.startHour < w.endHour {
      CommitTimesCount(w, n, dd.times);
    } else {
      CommitTimesNone(w, dd.times);
    }
    CommitsForIndex(CommitTimes(w, n, dd.times), dd, AdjustedStyle(persona.codingStyle, sprint.phase), persona, sprint.focusAreas);
  }

  /**
   * Each record of a day carries a category selected from the adjusted
   * weights (a key of them when there are any), a file count in that
   * category's range and a change kind of that category, or 0 files and
   * "unknown" for a category the table lacks.
   */
  lemma DayCommitsRecords(date: Date, persona: Persona, sprint: SprintCycle, freq: string, dd: DayDraw, k: nat)
    requires CanDrawTimes(persona, freq)
    requires ValidDayDraw(dd, AdjustedStyle(persona.codingStyle, sprint.phase))
    requires k < |DayCommits(date, persona, sprint, freq, dd)|
    ensures var style := AdjustedStyle(persona.codingStyle, sprint.phase);
      var c := DayCommits(date, persona, sprint, freq, dd)[k];
      var (lo, hi) := CommitTypeOf(c.commitType).fileCountRange;
      && c.commitType == SelectedType(style, dd.commits(k).order, dd.commits(k).weight)
      && (|style| > 0 ==> c.commitType in style)
      && lo <= c.numFiles <= lo + (if hi - lo + 1 <= 0 then 1 else hi - lo + 1) - 1
      && (c.commitType in CommitTypes ==> c.changeType in CommitTypes[c.commitType].changes)
      && (c.commitType !in CommitTypes ==> c.numFiles == 0 && c.changeType == "unknown")
  {
    var style := AdjustedStyle(persona.codingStyle, sprint.phase);
    var times := CommitTimes(WorkdayOf(persona, date), CommitCount(freq, dd.count), dd.times);
    CommitsForIndex(times, dd, style, persona, sprint.focusAreas);
    assert DayCommits(date, persona, sprint, freq, dd)[k] ==
      MakeCommit(times[k], dd.commits(k), style, persona, sprint.focusAreas);
    assert ValidCommitDraw(dd.commits(k), style);
    MakeCommitFacts(times[k], dd.commits(k), style, persona, sprint.focusAreas);
  }

  /** One record: its category, file count and change kind, as DayCommitsRecords states them. */
  lemma MakeCommitFacts(t: Timestamp, cd: CommitDraw, style: map<string, real>, persona: Persona, focusAreas: seq<string>)
    requires ValidCommitDraw(cd, style)
    ensures var c := MakeCommit(t, cd, style, persona, focusAreas);
      var (lo, hi) := CommitTypeOf(c.commitType).fileCountRange;
      && c.timestamp == t
      && c.commitType == SelectedType(style, cd.order, cd.weight)
      && (|style| > 0 ==> c.commitType in style)
      && lo <= c.numFiles <= lo + (if hi - lo + 1 <= 0 then 1 else hi - lo + 1) - 1
      && (c.commitType in CommitTypes ==> c.changeType in CommitTypes[c.commitType].changes)
      && (c.commitType !in CommitTypes ==> c.numFiles == 0 && c.changeType == "unknown")
  {
    SelectedTypeInStyle(style, cd.order, cd.weight);
    TabledChanges();
  }

  /** Every row of the table lists at least one change kind. */
  lemma TabledChanges()
    ensures forall t :: t in CommitTypes ==> |CommitTypes[t].changes| > 0
  {
  }

  /**
   * The categories the catalog weights but the table lacks ("refactor",
   * "docs", "test") get the zero row: 0 files and change kind "unknown".
   */
  lemma UntabledCategories(filesDraw: nat, changeDraw: nat)
    ensures forall t :: t in {"refactor", "docs", "test"} ==>
      NumFilesFor(CommitTypeOf(t), filesDraw) == 0 && ChangeTypeFor(CommitTypeOf(t), changeDraw) == "unknown"
    ensures 2 <= NumFilesFor(CommitTypeOf("feature"), filesDraw) <= 5
    ensures 1 <= NumFilesFor(CommitTypeOf("fix"), filesDraw) <= 3
  {
  }

  // ---------------------------------------------------------------------------
  // The whole run
  // ---------------------------------------------------------------------------

  /**
   * The draws of one run: the persona pick and the catalog's iteration order
   * (used when no name is given), and the draws of each day of each cycle.
   */
  datatype Draws = Draws(persona: nat, personaOrder: seq<string>, days: (nat, Date) -> DayDraw)

  /**
   * The persona the run uses: a random catalog entry for the empty name, the
   * catalog entry for a known name, and the zero persona for an unknown name.
   */
  function ResolvePersona(name: string, draws: Draws): (p: Persona)
    requires name == "" ==> Enumerates(draws.personaOrder, Personas.Keys)
    ensures name == "" ==> p in Personas.Values
    ensures name != "" && name in Personas ==> p == Personas[name]
    ensures name != "" && name !in Personas ==> p == ZeroPersona
  {
    var chosen :=
      if name == "" then
        assert "early_bird" in draws.personaOrder;
        draws.personaOrder[Intn(draws.persona, |draws.personaOrder|)]
      else name;
    if chosen in Personas then Personas[chosen] else ZeroPersona
  }

  /** No cycle asks for commits on an empty workday. */
  predicate CanDrawCycles(persona: Persona, cycles: seq<SprintCycle>) {
    forall ci :: 0 <= ci < |cycles| ==> CanDrawTimes(persona, AdjustFrequency(persona.commitFreq, cycles[ci].intensity))
  }

  /** Every day's commit draws enumerate the cycle's adjusted weights and draw Float64 values in [0, 1). */
  ghost predicate ValidCycleDraws(draws: Draws, persona: Persona, cycles: seq<SprintCycle>) {
    forall ci: nat, d: Date :: ci < |cycles| ==>
      ValidDayDraw(draws.days(ci, d), AdjustedStyle(persona.codingStyle, cycles[ci].phase))
  }

  /** The records of the days [first, last) of cycle ci; Saturdays (weekday 6) give none. */
  function DaysPatterns(persona: Persona, cycle: SprintCycle, ci: nat, draws: Draws, first: Date, last: Date): seq<CommitPattern>
    requires CanDrawTimes(persona, AdjustFrequency(persona.commitFreq, cycle.intensity))
    decreases last - first
  {
    if last <= first then []
    else
      var d := last - 1;
      DaysPatterns(persona, cycle, ci, draws, first, d) +
        (if Weekday(d) < 6
         then DayCommits(d, persona, cycle, AdjustFrequency(persona.commitFreq, cycle.intensity), draws.days(ci, d))
         else [])
  }

  lemma DaysPatternsExtend(persona: Persona, cycle: SprintCycle, ci: nat, draws: Draws, first: Date, d: Date)
    requires CanDrawTimes(persona, AdjustFrequency(persona.commitFreq, cycle.intensity))
    requires first <= d
    ensures DaysPatterns(persona, cycle, ci, draws, first, d + 1) ==
      DaysPatterns(persona, cycle, ci, draws, first, d) +
        (if Weekday(d) < 6
         then DayCommits(d, persona, cycle, AdjustFrequency(persona.commitFreq, cycle.intensity), draws.days(ci, d))
         else [])
  {
  }

  /** The records of the first n cycles. */
  function CyclesPatterns(persona: Persona, cycles: seq<SprintCycle>, draws: Draws, n: nat): seq<CommitPattern>
    requires n <= |cycles| && CanDrawCycles(persona, cycles)
  {
    if n == 0 then []
    else
      var c := cycles[n - 1];
      CyclesPatterns(persona, cycles, draws, n - 1) +
        DaysPatterns(persona, c, n - 1, draws, c.startDate, c.endDate)
  }

  /** A resolved persona never makes the placeholder cycle draw from an empty workday. */
  function RunPersona(personaName: string, draws: Draws): (p: Persona)
    requires personaName == "" ==> Enumerates(draws.personaOrder, Personas.Keys)
    ensures p == ResolvePersona(personaName, draws)
    ensures p.workStartHour < p.workEndHour || p.commitFreq == ""
  {
    CatalogWellFormed();
    ResolvePersona(personaName, draws)
  }

  /** The output of GeneratePatterns. */
  function Patterns(startDate: Date, endDate: Date, personaName: string, draws: Draws): seq<CommitPattern>
    requires personaName == "" ==> Enumerates(draws.personaOrder, Personas.Keys)
  {
    var persona := RunPersona(personaName, draws);
    var cycles := GenerateSprintCycles(startDate, endDate);
    CyclesPatterns(persona, cycles, draws, |cycles|)
  }

  /** The inner loop of GeneratePatterns: the commits of each non-Saturday day of one cycle. */
  method GenerateCycle(persona: Persona, cycle: SprintCycle, ci: nat, draws: Draws)
    returns (cyclePatterns: seq<CommitPattern>)
    requires CanDrawTimes(persona, AdjustFrequency(persona.commitFreq, cycle.intensity))
    requires forall d: Date :: ValidDayDraw(draws.days(ci, d), AdjustedStyle(persona.codingStyle, cycle.phase))
    ensures cyclePatterns == DaysPatterns(persona, cycle, ci, draws, cycle.startDate, cycle.endDate)
  {
    var adjustedFreq := AdjustFrequency(persona.commitFreq, cycle.intensity);
    cyclePatterns := [];
    var current := cycle.startDate;
    while current < cycle.endDate
      invariant cycle.startDate <= current
      invariant current <= cycle.endDate || current == cycle.startDate
      invariant cyclePatterns == DaysPatterns(persona, cycle, ci, draws, cycle.startDate, current)
      decreases cycle.endDate - current
    {
      DaysPatternsExtend(persona, cycle, ci, draws, cycle.startDate, current);
      var dayCommits := [];
      if Weekday(current) < 6 {
        dayCommits := GenerateDayCommits(current, persona, cycle, adjustedFreq, draws.days(ci, current));
      }
      cyclePatterns := cyclePatterns + dayCommits;
      current := current + 1;
    }
  }

  /**
   * The persona step of GeneratePatterns: with no name, one key drawn from the
   * catalogue's iteration order; then the catalogue entry, or the zero persona
   * for a name the catalogue lacks.
   */
  method ChoosePersona(personaName: string, draws: Draws) returns (persona: Persona)
    requires personaName == "" ==> Enumerates(draws.personaOrder, Personas.Keys)
    ensures persona == ResolvePersona(personaName, draws)
  {
    var name := personaName;
    if name == "" {
      var personas := draws.personaOrder;
      assert "early_bird" in personas;
      name := personas[Intn(draws.persona, |personas|)];
    }
    persona := if name in Personas then Personas[name] else ZeroPersona;
  }

  /** GeneratePatterns: for each cycle, for each day before its end that is not a Saturday, that day's commits. */
  method GeneratePatterns(startDate: Date, endDate: Date, personaName: string, draws: Draws)
    returns (patterns: seq<CommitPattern>)
    requires personaName == "" ==> Enumerates(draws.personaOrder, Personas.Keys)
    requires ValidCycleDraws(draws, ResolvePersona(personaName, draws), GenerateSprintCycles(startDate, endDate))
    ensures patterns == Patterns(startDate, endDate, personaName, draws)
  {
    var persona := ChoosePersona(personaName, draws);
    assert persona == RunPersona(personaName, draws);
    var sprintCycles := GenerateSprintCycles(startDate, endDate);
    patterns := [];
    var ci := 0;
    while ci < |sprintCycles|
      invariant 0 <= ci <= |sprintCycles|
      invariant patterns == CyclesPatterns(persona, sprintCycles, draws, ci)
    {
      var cycle := sprintCycles[ci];
      assert forall d: Date :: ValidDayDraw(draws.days(ci, d), AdjustedStyle(persona.codingStyle, cycle.phase));
      var cyclePatterns := GenerateCycle(persona, cycle, ci, draws);
      patterns := patterns + cyclePatterns;
      ci := ci + 1;
    }
  }

  // ---------------------------------------------------------------------------
  // Properties of a run
  // ---------------------------------------------------------------------------

  /**
   * What every record of a run over [first, last) satisfies: its day lies in
   * the range and is not a Saturday, its clock time lies in the persona's
   * hours outside the lunch hour, its category is a key of the weights used
   * (when there are any), and its file count and change kind come from the
   * category's row, or are 0 and "unknown" when the table has no row for it.
   */
  predicate Fits(persona: Persona, style: map<string, real>, first: Date, last: Date, c: CommitPattern) {
    && first <= c.timestamp.day < last
    && Weekday(c.timestamp.day) != Saturday
    && InWindow(WorkdayOf(persona, c.timestamp.day), c.timestamp)
    && (|style| > 0 ==> c.commitType in style)
    && (c.commitType in CommitTypes ==>
          CommitTypes[c.commitType].fileCountRange.0 <= c.numFiles <= CommitTypes[c.commitType].fileCountRange.1
          && c.changeType in CommitTypes[c.commitType].changes)
    && (c.commitType !in CommitTypes ==> c.numFiles == 0 && c.changeType == "unknown")
  }

  /** A record of one day fits that day. */
  lemma DayCommitsFit(d: Date, persona: Persona, cycle: SprintCycle, ci: nat, draws: Draws, first: Date, last: Date)
    requires CanDrawTimes(persona, AdjustFrequency(persona.commitFreq, cycle.intensity))
    requires ValidDayDraw(draws.days(ci, d), AdjustedStyle(persona.codingStyle, cycle.phase))
    requires first <= d < last && Weekday(d) < 6
    ensures var r := DayCommits(d, persona, cycle, AdjustFrequency(persona.commitFreq, cycle.intensity), draws.days(ci, d));
      forall k :: 0 <= k < |r| ==>
        Fits(persona, AdjustedStyle(persona.codingStyle, cycle.phase), first, last, r[k]) && r[k].timestamp.day == d
  {
    var freq := AdjustFrequency(persona.commitFreq, cycle.intensity);
    var dd := draws.days(ci, d);
    var r := DayCommits(d, persona, cycle, freq, dd);
    DayCommitsTimes(d, persona, cycle, freq, dd);
    forall k | 0 <= k < |r|
      ensures Fits(persona, AdjustedStyle(persona.codingStyle, cycle.phase), first, last, r[k])
    {
      DayCommitsRecords(d, persona, cycle, freq, dd, k);
    }
  }

  /** A record that fits a range fits every wider range. */
  lemma FitsWiden(persona: Persona, style: map<string, real>, first: Date, d: Date, last: Date, c: CommitPattern)
    requires d <= last && Fits(persona, style, first, d, c)
    ensures Fits(persona, style, first, last, c) && c.timestamp.day < d
  {
  }

  /** Every record of the days [first, last) of a cycle fits the range. */
  lemma {:induction false} DaysPatternsFit(persona: Persona, cycle: SprintCycle, ci: nat, draws: Draws, first: Date, last: Date)
    requires CanDrawTimes(persona, AdjustFrequency(persona.commitFreq, cycle.intensity))
    requires forall d: Date :: ValidDayDraw(draws.days(ci, d), AdjustedStyle(persona.codingStyle, cycle.phase))
    ensures var r := DaysPatterns(persona, cycle, ci, draws, first, last);
      forall k :: 0 <= k < |r| ==> Fits(persona, AdjustedStyle(persona.codingStyle, cycle.phase), first, last, r[k])
    decreases last - first
  {
    if first < last {
      var style := AdjustedStyle(persona.codingStyle, cycle.phase);
      var d := last - 1;
      DaysPatternsFit(persona, cycle, ci, draws, first, d);
      var front := DaysPatterns(persona, cycle, ci, draws, first, d);
      var back :=
        if Weekday(d) < 6
        then DayCommits(d, persona, cycle, AdjustFrequency(persona.commitFreq, cycle.intensity), draws.days(ci, d))
        else [];
      var r := front + back;
      assert DaysPatterns(persona, cycle, ci, draws, first, last) == r;
      if Weekday(d) < 6 {
        DayCommitsFit(d, persona, cycle, ci, draws, first, last);
      }
      forall k | 0 <= k < |r|
        ensures Fits(persona, style, first, last, r[k])
      {
        if k < |front| {
          assert front[k] == DaysPatterns(persona, cycle, ci, draws, first, d)[k];
          assert Fits(persona, AdjustedStyle(persona.codingStyle, cycle.phase), first, d, front[k]);
          FitsWiden(persona, style, first, d, last, front[k]);
        } else {
          assert r[k] == back[k - |front|];
        }
      }
    }
  }

  /** Records in day order. */
  predicate ByDay(r: seq<CommitPattern>) {
    forall i, j :: 0 <= i < j < |r| ==> r[i].timestamp.day <= r[j].timestamp.day
  }

  /** Records before day d followed by records of day d stay in day order. */
  lemma ByDayAppend(front: seq<CommitPattern>, back: seq<CommitPattern>, d: Date)
    requires ByDay(front)
    requires forall k :: 0 <= k < |front| ==> front[k].timestamp.day < d
    requires forall k :: 0 <= k < |back| ==> back[k].timestamp.day == d
    ensures ByDay(front + back)
  {
    var r := front + back;
    forall i, j | 0 <= i < j < |r|
      ensures r[i].timestamp.day <= r[j].timestamp.day
    {
      if j < |front| {
        assert r[i] == front[i] && r[j] == front[j];
      } else if i < |front| {
        assert r[i] == front[i] && r[j] == back[j - |front|];
      } else {
        assert r[i] == back[i - |front|] && r[j] == back[j - |front|];
      }
    }
  }

  /** The records of a cycle come day by day: a later record is never on an earlier day. */
  lemma {:induction false} DaysPatternsByDay(persona: Persona, cycle: SprintCycle, ci: nat, draws: Draws, first: Date, last: Date)
    requires CanDrawTimes(persona, AdjustFrequency(persona.commitFreq, cycle.intensity))
    requires forall d: Date :: ValidDayDraw(draws.days(ci, d), AdjustedStyle(persona.codingStyle, cycle.phase))
    ensures ByDay(DaysPatterns(persona, cycle, ci, draws, first, last))
    decreases last - first
  {
    if first < last {
      var style := AdjustedStyle(persona.codingStyle, cycle.phase);
      var d := last - 1;
      DaysPatternsByDay(persona, cycle, ci, draws, first, d);
      DaysPatternsFit(persona, cycle, ci, draws, first, d);
      var front := DaysPatterns(persona, cycle, ci, draws, first, d);
      var back :=
        if Weekday(d) < 6
        then DayCommits(d, persona, cycle, AdjustFrequency(persona.commitFreq, cycle.intensity), draws.days(ci, d))
        else [];
      assert DaysPatterns(persona, cycle, ci, draws, first, last) == front + back;
      forall k | 0 <= k < |front|
        ensures front[k].timestamp.day < d
      {
        assert front[k] == DaysPatterns(persona, cycle, ci, draws, first, d)[k];
        assert Fits(persona, style, first, d, front[k]);
      }
      if Weekday(d) < 6 {
        DayCommitsFit(d, persona, cycle, ci, draws, first, last);
      }
      ByDayAppend(front, back, d);
    }
  }

  /** A persona with an empty frequency class makes no commits on any day. */
  lemma {:induction false} DaysPatternsSilent(persona: Persona, cycle: SprintCycle, ci: nat, draws: Draws, first: Date, last: Date)
    requires AdjustFrequency(persona.commitFreq, cycle.intensity) == ""
    ensures DaysPatterns(persona, cycle, ci, draws, first, last) == []
    decreases last - first
  {
    if first < last {
      var d := last - 1;
      DaysPatternsSilent(persona, cycle, ci, draws, first, d);
      CommitTimesNone(WorkdayOf(persona, d), draws.days(ci, d).times);
      DayCommitsTimes(d, persona, cycle, "", draws.days(ci, d));
    }
  }

  /** The run is the records of the placeholder cycle's days. */
  lemma PatternsOneCycle(startDate: Date, endDate: Date, personaName: string, draws: Draws)
    requires personaName == "" ==> Enumerates(draws.personaOrder, Personas.Keys)
    ensures var persona := ResolvePersona(personaName, draws);
      var cycle := GenerateSprintCycles(startDate, endDate)[0];
      && CanDrawTimes(persona, AdjustFrequency(persona.commitFreq, cycle.intensity))
      && Patterns(startDate, endDate, personaName, draws) == DaysPatterns(persona, cycle, 0, draws, startDate, endDate)
  {
    var persona := RunPersona(personaName, draws);
    var cycles := GenerateSprintCycles(startDate, endDate);
    assert CyclesPatterns(persona, cycles, draws, 1) == [] + DaysPatterns(persona, cycles[0], 0, draws, startDate, endDate);
  }

  /**
   * Every record of a run lies in [startDate, endDate) on a day other than
   * Saturday, inside the persona's working hours and outside the lunch hour;
   * its category is one the persona weights; its file count and change kind
   * come from the category's row; and the records come day by day.
   */
  lemma PatternsFit(startDate: Date, endDate: Date, personaName: string, draws: Draws)
    requires personaName == "" ==> Enumerates(draws.personaOrder, Personas.Keys)
    requires ValidCycleDraws(draws, ResolvePersona(personaName, draws), GenerateSprintCycles(startDate, endDate))
    ensures var persona := ResolvePersona(personaName, draws);
      var r := Patterns(startDate, endDate, personaName, draws);
      && (forall k :: 0 <= k < |r| ==>
            Fits(persona, AdjustedStyle(persona.codingStyle, FeatureDevelopment), startDate, endDate, r[k]))
      && ByDay(r)
  {
    var persona := ResolvePersona(personaName, draws);
    var cycle := GenerateSprintCycles(startDate, endDate)[0];
    PatternsOneCycle(startDate, endDate, personaName, draws);
    assert forall d: Date :: ValidDayDraw(draws.days(0, d), AdjustedStyle(persona.codingStyle, cycle.phase));
    DaysPatternsFit(persona, cycle, 0, draws, startDate, endDate);
    DaysPatternsByDay(persona, cycle, 0, draws, startDate, endDate);
  }

  /** The placeholder cycle's intensity 0.8 is not above 0.8, so every frequency class is left as it is. */
  lemma PlaceholderKeepsFrequency(startDate: Date, endDate: Date, freq: string)
    ensures AdjustFrequency(freq, GenerateSprintCycles(startDate, endDate)[0].intensity) == freq
  {
  }

  /**
   * A catalogue persona never asks for more commits than its workday has
   * non-lunch minutes, whatever the intensity: at most 15 commits against 420
   * slots of an eight-hour day.
   */
  lemma CatalogNeverOverbooked(p: Persona, intensity: real, d: Date, countDraw: nat)
    requires p in Personas.Values
    ensures CommitCount(AdjustFrequency(p.commitFreq, intensity), countDraw) <= AvailableSlots(WorkdayOf(p, d))
  {
    CatalogWellFormed();
    assert AvailableSlots(WorkdayOf(p, d)) == 420;
    assert AdjustFrequency(p.commitFreq, intensity) in Frequencies;
  }

  /**
   * No persona a run can resolve overbooks a day of the placeholder cycle: a
   * catalogue persona by CatalogNeverOverbooked, and the zero persona because
   * its empty class asks for no commits. So the retry loop of a run always has
   * a stream of draws that completes it (CommitTimesReachable).
   */
  lemma RunNeverOverbooked(startDate: Date, endDate: Date, personaName: string, draws: Draws, d: Date, countDraw: nat)
    requires personaName == "" ==> Enumerates(draws.personaOrder, Personas.Keys)
    ensures var p := ResolvePersona(personaName, draws);
      var cycle := GenerateSprintCycles(startDate, endDate)[0];
      CommitCount(AdjustFrequency(p.commitFreq, cycle.intensity), countDraw) <= AvailableSlots(WorkdayOf(p, d))
  {
    var p := ResolvePersona(personaName, draws);
    var cycle := GenerateSprintCycles(startDate, endDate)[0];
    if p in Personas.Values {
      CatalogNeverOverbooked(p, cycle.intensity, d, countDraw);
    } else {
      assert p == ZeroPersona;
      PlaceholderKeepsFrequency(startDate, endDate, p.commitFreq);
    }
  }

  /** An empty or inverted range gives no records. */
  lemma PatternsEmptyRange(startDate: Date, endDate: Date, personaName: string, draws: Draws)
    requires personaName == "" ==> Enumerates(draws.personaOrder, Personas.Keys)
    requires endDate <= startDate
    ensures Patterns(startDate, endDate, personaName, draws) == []
  {
    PatternsOneCycle(startDate, endDate, personaName, draws);
  }

  /** A persona name the catalog does not know gives no records over any range. */
  lemma PatternsUnknownPersona(startDate: Date, endDate: Date, personaName: string, draws: Draws)
    requires personaName != "" && personaName !in Personas
    ensures Patterns(startDate, endDate, personaName, draws) == []
  {
    PatternsOneCycle(startDate, endDate, personaName, draws);
    var cycle := GenerateSprintCycles(startDate, endDate)[0];
    DaysPatternsSilent(ZeroPersona, cycle, 0, draws, startDate, endDate);
  }

  /**
   * The flag help offers the persona "balanced", which the catalog lacks: a
   * run asked for it quietly produces no records and reports no error.
   */
  lemma BalancedPersonaSilent(startDate: Date, endDate: Date, draws: Draws)
    ensures "balanced" !in Personas
    ensures Patterns(startDate, endDate, "balanced", draws) == []
  {
    PatternsUnknownPersona(startDate, endDate, "balanced", draws);
  }

  /**
   * A one-day run is that day's records at the persona's own frequency class
   * (the placeholder intensity 0.8 leaves the class as it is), or nothing on
   * a Saturday.
   */
  lemma PatternsOneDay(date: Date, personaName: string, draws: Draws)
    requires personaName == "" ==> Enumerates(draws.personaOrder, Personas.Keys)
    ensures var persona := ResolvePersona(personaName, draws);
      var cycle := GenerateSprintCycles(date, date + 1)[0];
      Patterns(date, date + 1, personaName, draws) ==
        if Weekday(date) == Saturday then []
        else DayCommits(date, persona, cycle, persona.commitFreq, draws.days(0, date))
  {
    var persona := ResolvePersona(personaName, draws);
    var cycle := GenerateSprintCycles(date, date + 1)[0];
    PatternsOneCycle(date, date + 1, personaName, draws);
    assert AdjustFrequency(persona.commitFreq, cycle.intensity) == persona.commitFreq;
    DaysPatternsExtend(persona, cycle, 0, draws, date, date);
  }
}
