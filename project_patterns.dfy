/**
 * The sprint-cycle model: project phases, the sprint-cycle record, and the
 * provider that splits a date range into cycles. The provider is a placeholder
 * that always answers with one feature-development cycle over the whole range.
 */
module ProjectPatterns {
  import opened Text
  import opened Dates

  /** The six project phases (the strings "planning", "feature_development", ...). */
  datatype ProjectPhase =
    | Planning
    | FeatureDevelopment
    | Stabilization
    | Release
    | Maintenance
    | Hotfix

  /** A span of the timeline [startDate, endDate) with its phase, intensity and focus areas. */
  datatype SprintCycle = SprintCycle(
    startDate: Date,
    endDate: Date,
    phase: ProjectPhase,
    intensity: real,
    focusAreas: seq<string>)

  /** The intensity and focus areas of the placeholder cycle. */
  const PlaceholderIntensity: real := 0.8
  const PlaceholderFocusAreas: seq<string> := ["frontend/ui", "backend/api"]

  /** A cycle list covers a range when every day of the range lies in some cycle. */
  ghost predicate Covers(cycles: seq<SprintCycle>, startDate: Date, endDate: Date) {
    forall d :: startDate <= d < endDate ==> CoveredBy(cycles, d)
  }

  ghost predicate CoveredBy(cycles: seq<SprintCycle>, d: Date) {
    exists i :: 0 <= i < |cycles| && cycles[i].startDate <= d < cycles[i].endDate
  }

  /**
   * GenerateSprintCycles: exactly one cycle, whatever the range (an inverted
   * range still gives one cycle), spanning exactly the requested range, in the
   * feature-development phase, with the placeholder intensity and focus areas.
   */
  function GenerateSprintCycles(startDate: Date, endDate: Date): (cycles: seq<SprintCycle>)
    ensures |cycles| == 1
    ensures cycles[0].startDate == startDate && cycles[0].endDate == endDate
    ensures cycles[0].phase == FeatureDevelopment
    ensures cycles[0].intensity == PlaceholderIntensity && cycles[0].focusAreas == PlaceholderFocusAreas
    ensures Covers(cycles, startDate, endDate)
  {
    [SprintCycle(startDate, endDate, FeatureDevelopment, PlaceholderIntensity, PlaceholderFocusAreas)]
  }

  /**
   * The placeholder's focus areas: two of them, each of the form
   * "component/feature" with exactly one '/'.
   */
  lemma SprintFocusAreas(startDate: Date, endDate: Date)
    ensures GenerateSprintCycles(startDate, endDate)[0].focusAreas == PlaceholderFocusAreas
    ensures Split(PlaceholderFocusAreas[0], '/') == ["frontend", "ui"]
    ensures Split(PlaceholderFocusAreas[1], '/') == ["backend", "api"]
  {
    FrontendArea();
    BackendArea();
  }

  lemma FrontendArea()
    ensures Split("frontend/ui", '/') == ["frontend", "ui"]
  {
    SplitPair("frontend", '/', "ui");
    assert "frontend" + ['/'] + "ui" == "frontend/ui";
  }

  lemma BackendArea()
    ensures Split("backend/api", '/') == ["backend", "api"]
  {
    SplitPair("backend", '/', "api");
    assert "backend" + ['/'] + "api" == "backend/api";
  }
}
