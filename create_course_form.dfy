/** `create-course-form.tsx`: the form that creates a course. */
module CreateCourseForm {
  import opened Js
  import opened Zod
  import opened EnumSchema

  datatype CreateCourseValue = CreateCourseValue(
    title: string, description: string, durationWeeks: int, totalHours: int, fee: int,
    category: string, status: bool)

  /** Empty text, zero numbers, no category, active. */
  const DefaultValues := CreateCourseValue("", "", 0, 0, 0, "", true)

  const TitleMessage := Text("Enter a valid title")
  const CategoryIssue := Issue(["category"], CourseCategoryEnum.message)

  /** The numeric part of the course schemas: inclusive ranges for duration and hours. */
  function RangeIssues(durationWeeks: int, totalHours: int): seq<Issue> {
    Check(durationWeeks >= 0, ["durationWeeks"], Text("Duration must be greater than 0"))
    + Check(durationWeeks <= 7, ["durationWeeks"], Text("Duration must be less than 7."))
    + Check(totalHours >= 0, ["totalHours"], Text("Total hours must be greater than 0"))
    + Check(totalHours <= 24, ["totalHours"], Text("Total hours must be less than 24."))
  }

  lemma RangeIssuesEmptyIff(durationWeeks: int, totalHours: int)
    ensures RangeIssues(durationWeeks, totalHours) == [] <==> 0 <= durationWeeks <= 7 && 0 <= totalHours <= 24
  {
    var a := Check(durationWeeks >= 0, ["durationWeeks"], Text("Duration must be greater than 0"));
    var b := Check(durationWeeks <= 7, ["durationWeeks"], Text("Duration must be less than 7."));
    var c := Check(totalHours >= 0, ["totalHours"], Text("Total hours must be greater than 0"));
    var d := Check(totalHours <= 24, ["totalHours"], Text("Total hours must be less than 24."));
    NoIssues2(a, b);
    NoIssues2(a + b, c);
    NoIssues2(a + b + c, d);
  }

  /** `createCourseSchema`: a title, the two ranges, a known category; any description and fee. */
  function Issues(v: CreateCourseValue): seq<Issue> {
    Check(|v.title| >= 1, ["title"], TitleMessage)
    + RangeIssues(v.durationWeeks, v.totalHours)
    + EnumIssues(CourseCategoryEnum, ["category"], v.category)
  }

  lemma IssuesEmptyIff(v: CreateCourseValue)
    ensures Issues(v) == [] <==>
      |v.title| >= 1 && 0 <= v.durationWeeks <= 7 && 0 <= v.totalHours <= 24 && v.category in CourseCategoryEnum.options
  {
    var a := Check(|v.title| >= 1, ["title"], TitleMessage);
    var b := RangeIssues(v.durationWeeks, v.totalHours);
    var c := EnumIssues(CourseCategoryEnum, ["category"], v.category);
    RangeIssuesEmptyIff(v.durationWeeks, v.totalHours);
    NoIssues2(a, b);
    NoIssues2(a + b, c);
  }

  /** The starting value fails on its title and its category only: the zero numbers are in range. */
  lemma DefaultsRejected()
    ensures Issues(DefaultValues) == [Issue(["title"], TitleMessage), CategoryIssue]
  {
    RangeIssuesEmptyIff(0, 0);
  }

  /** Both ends of each range are accepted; one past them is not. */
  lemma RangesInclusive()
    ensures RangeIssues(0, 0) == [] && RangeIssues(7, 24) == []
    ensures RangeIssues(8, 0) != [] && RangeIssues(0, 25) != [] && RangeIssues(-1, 0) != []
  {
    RangeIssuesEmptyIff(0, 0);
    RangeIssuesEmptyIff(7, 24);
    RangeIssuesEmptyIff(8, 0);
    RangeIssuesEmptyIff(0, 25);
    RangeIssuesEmptyIff(-1, 0);
  }

  /** The submit handler runs only on a valid value and forwards it unchanged to `postCourses`. */
  function Submit(v: CreateCourseValue): (sent: Option<CreateCourseValue>)
    ensures sent.Some? <==>
      && |v.title| >= 1 && 0 <= v.durationWeeks <= 7 && 0 <= v.totalHours <= 24
      && v.category in ["TECH", "BUSINESS", "LANGUAGE", "OTHER"]
    ensures sent.Some? ==> sent.value == v
  {
    IssuesEmptyIff(v);
    if Issues(v) == [] then Some(v) else None
  }
}
