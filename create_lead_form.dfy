/** `create-lead-form.tsx`: the form that creates a lead, with its course picker. */
module CreateLeadForm {
  import opened Js
  import opened Zod
  import opened EnumSchema
  import opened ParamsUtils
  import opened ListRequest
  import opened CoursesApi
  import opened DebouncedSelect

  datatype CreateLeadValue = CreateLeadValue(
    fullName: string, email: string, phone: string, source: string, status: string, priority: string,
    userId: string, interestedCourses: seq<string>)

  /** Empty fields, the three enums cast from `''`, no courses, and the owner from the props. */
  function DefaultValues(userId: string): (v: CreateLeadValue)
    ensures v.userId == userId
    ensures v.fullName == "" && v.source == "" && v.status == "" && v.priority == "" && v.interestedCourses == []
  {
    CreateLeadValue("", "", "", "", "", "", userId, [])
  }

  const NameMessage := Text("Enter a valid name")
  const CoursesMessage := Text("Select at least one course")

  /** `createLeadSchema`, in declaration order; any phone and owner. */
  function Issues(v: CreateLeadValue, isEmail: string -> bool): seq<Issue> {
    Check(|v.fullName| >= 1, ["fullName"], NameMessage)
    + Check(isEmail(v.email), ["email"], Text("Enter a valid email"))
    + EnumIssues(LeadSourceEnum, ["source"], v.source)
    + EnumIssues(LeadStatusEnum, ["status"], v.status)
    + EnumIssues(PriorityEnum, ["priority"], v.priority)
    + Check(|v.interestedCourses| >= 1, ["interestedCourses"], CoursesMessage)
  }

  lemma {:induction false} IssuesEmptyIff(v: CreateLeadValue, isEmail: string -> bool)
    ensures Issues(v, isEmail) == [] <==>
      && |v.fullName| >= 1 && isEmail(v.email)
      && v.source in LeadSourceEnum.options && v.status in LeadStatusEnum.options
      && v.priority in PriorityEnum.options && |v.interestedCourses| >= 1
  {
    var a := Check(|v.fullName| >= 1, ["fullName"], NameMessage);
    var b := Check(isEmail(v.email), ["email"], Text("Enter a valid email"));
    var c := EnumIssues(LeadSourceEnum, ["source"], v.source);
    var d := EnumIssues(LeadStatusEnum, ["status"], v.status);
    var e := EnumIssues(PriorityEnum, ["priority"], v.priority);
    var f := Check(|v.interestedCourses| >= 1, ["interestedCourses"], CoursesMessage);
    NoIssues2(a, b);
    NoIssues2(a + b, c);
    NoIssues2(a + b + c, d);
    NoIssues2(a + b + c + d, e);
    NoIssues2(a + b + c + d + e, f);
  }

  /** The starting value is rejected, each enum with its own message. */
  lemma DefaultsRejected(userId: string, isEmail: string -> bool)
    ensures Issue(["fullName"], NameMessage) in Issues(DefaultValues(userId), isEmail)
    ensures Issue(["source"], Text("Please select a lead source")) in Issues(DefaultValues(userId), isEmail)
    ensures Issue(["status"], Text("Please select a lead status")) in Issues(DefaultValues(userId), isEmail)
    ensures Issue(["priority"], Text("Please select a priority")) in Issues(DefaultValues(userId), isEmail)
    ensures Issue(["interestedCourses"], CoursesMessage) in Issues(DefaultValues(userId), isEmail)
  {
  }

  /** The phone is free text: an empty phone does not stop a valid lead. */
  lemma EmptyPhoneAccepted(v: CreateLeadValue, isEmail: string -> bool)
    requires Issues(v, isEmail) == []
    ensures Issues(v.(phone := ""), isEmail) == []
  {
    IssuesEmptyIff(v, isEmail);
    IssuesEmptyIff(v.(phone := ""), isEmail);
  }

  /** The submit handler runs only on a valid value and forwards it unchanged to `postLeads`. */
  function Submit(v: CreateLeadValue, isEmail: string -> bool): (sent: Option<CreateLeadValue>)
    ensures sent.Some? <==>
      && |v.fullName| >= 1 && isEmail(v.email)
      && v.source in ["WALK_IN", "REFERRAL", "WEBSITE", "GOOGLE", "FACEBOOK", "INSTAGRAM", "OTHER"]
      && v.status in ["NEW", "CONTACTED", "FOLLOW_UP", "TRIAL", "ENROLLED", "LOST"]
      && v.priority in ["LOW", "MEDIUM", "HIGH"]
      && |v.interestedCourses| >= 1
    ensures sent.Some? ==> sent.value == v
  {
    IssuesEmptyIff(v, isEmail);
    if Issues(v, isEmail) == [] then Some(v) else None
  }

  /** `data.result.map(course => ({ label: course.title, value: course.id }))` */
  function CourseOptions(courses: seq<Course>): (r: seq<SelectOption>)
    ensures |r| == |courses|
    ensures forall i :: 0 <= i < |courses| ==> r[i] == SelectOption(courses[i].title, courses[i].id)
  {
    if courses == [] then [] else [SelectOption(courses[0].title, courses[0].id)] + CourseOptions(courses[1..])
  }

  /**
    * `loadOptions(query)` asks for `getCourses({ title: query })`: a GET of
    * `/courses` with the default page and the query as the title filter.
    */
  lemma LoadOptionsRequest(query: string, defaults: PageDefaults)
    ensures GetCourses(map["title" := Str(query)], defaults).Ok?
    ensures GetCourses(map["title" := Str(query)], defaults).value.params ==
      map["pageIndex" := Num(Int(defaults.pageIndex)), "pageSize" := Num(Int(defaults.pageSize)), "title" := Str(query)]
  {
    var filters := map["title" := Str(query)];
    var params := ListParams(filters, defaults).value;
    assert params.Keys == {"pageIndex", "pageSize", "title"};
  }

  /** The loaded options are shown as they are: the picker applies no filter of its own. */
  lemma LoadedOptionsShownAsReturned(courses: seq<Course>, search: string, staticOptions: seq<SelectOption>)
    ensures FilteredOptions(Some(CourseOptions(courses)), staticOptions, search) == CourseOptions(courses)
  {
  }
}
