/**
  * `patch-course-form.tsx`: the edit form for a course. Its submit handler
  * sends `id` plus the fields that differ from the loaded course.
  *
  * The description field starts as `course.description ?? ''` but is
  * compared with the raw `course.description`. For a course without a
  * description the comparison is `'' !== null`, so the handler always sends
  * `description: ''`. `OnSubmitAsWritten` models the handler as written;
  * `OnSubmit` compares with the value the field started from, which is what
  * "only send changed fields" intends, and is the one `Submit` uses.
  */
module PatchCourseForm {
  import opened Js
  import opened Zod
  import opened EnumSchema
  import opened CoursesApi
  import opened CreateCourseForm

  datatype PatchCourseValue = PatchCourseValue(
    id: string, title: string, description: string, durationWeeks: int, totalHours: int, fee: int,
    category: string, status: bool)

  const PayloadKeys: set<string> :=
    {"id", "title", "description", "durationWeeks", "totalHours", "fee", "category", "status"}

  /** The form starts from the loaded course, with a `null` description shown as `''`. */
  function DefaultValues(course: Course): (v: PatchCourseValue)
    ensures v.id == course.id && v.title == course.title && v.category == course.category
    ensures v.durationWeeks == course.durationWeeks && v.totalHours == course.totalHours && v.fee == course.fee
    ensures v.status == course.status
    ensures v.description == if course.description.Some? then course.description.value else ""
  {
    PatchCourseValue(course.id, course.title, course.description.GetOr(""), course.durationWeeks,
                     course.totalHours, course.fee, course.category, course.status)
  }

  /** `patchCourseSchema`: the create schema's checks, plus a string `id`. */
  function Issues(v: PatchCourseValue): seq<Issue> {
    Check(|v.title| >= 1, ["title"], TitleMessage)
    + RangeIssues(v.durationWeeks, v.totalHours)
    + EnumIssues(CourseCategoryEnum, ["category"], v.category)
  }

  lemma IssuesEmptyIff(v: PatchCourseValue)
    ensures Issues(v) == [] <==>
      |v.title| >= 1 && 0 <= v.durationWeeks <= 7 && 0 <= v.totalHours <= 24 && v.category in CourseCategoryEnum.options
  {
    var a := Check(|v.title| >= 1, ["title"], TitleMessage);
    var b := RangeIssues(v.durationWeeks, v.totalHours);
    var c := EnumIssues(CourseCategoryEnum, ["category"], v.category);
    RangeIssuesEmptyIff(v.durationWeeks, v.totalHours);
    NoIssues2(a, b);
    NoIssues2(a + b, c);
  }

  /** `key` is in `payload` exactly when `changed`, and then holds `v`. */
  predicate Sent(payload: map<string, Value>, key: string, changed: bool, v: Value) {
    (key in payload <==> changed) && (key in payload ==> payload[key] == v)
  }

  /**
    * The payload the handler builds, given the description it compares
    * the field with (`Some(d)` for a string `d`, `None` for `null`).
    */
  predicate IsCoursePatch(course: Course, value: PatchCourseValue, payload: map<string, Value>, previousDescription: Option<string>) {
    && payload.Keys <= PayloadKeys
    && "id" in payload && payload["id"] == Str(course.id)
    && Sent(payload, "title", value.title != course.title, Str(value.title))
    && Sent(payload, "description", Some(value.description) != previousDescription, Str(value.description))
    && Sent(payload, "durationWeeks", value.durationWeeks != course.durationWeeks, Num(Int(value.durationWeeks)))
    && Sent(payload, "totalHours", value.totalHours != course.totalHours, Num(Int(value.totalHours)))
    && Sent(payload, "fee", value.fee != course.fee, Num(Int(value.fee)))
    && Sent(payload, "category", value.category != course.category, Str(value.category))
    && Sent(payload, "status", value.status != course.status, Bool(value.status))
  }

  /** The fields other than the description, added one `if` at a time. */
  method AddChangedFields(course: Course, value: PatchCourseValue, fields: map<string, Value>)
    returns (updatedFields: map<string, Value>)
    requires fields.Keys <= {"id", "title", "description"}
    ensures updatedFields.Keys <= PayloadKeys
    ensures forall key :: key in fields ==> key in updatedFields && updatedFields[key] == fields[key]
    ensures forall key :: key in updatedFields && key !in fields ==>
      key in {"durationWeeks", "totalHours", "fee", "category", "status"}
    ensures Sent(updatedFields, "durationWeeks", value.durationWeeks != course.durationWeeks, Num(Int(value.durationWeeks)))
    ensures Sent(updatedFields, "totalHours", value.totalHours != course.totalHours, Num(Int(value.totalHours)))
    ensures Sent(updatedFields, "fee", value.fee != course.fee, Num(Int(value.fee)))
    ensures Sent(updatedFields, "category", value.category != course.category, Str(value.category))
    ensures Sent(updatedFields, "status", value.status != course.status, Bool(value.status))
  {
    updatedFields := fields;
    if value.durationWeeks != course.durationWeeks {
      updatedFields := updatedFields["durationWeeks" := Num(Int(value.durationWeeks))];
    }
    if value.totalHours != course.totalHours {
      updatedFields := updatedFields["totalHours" := Num(Int(value.totalHours))];
    }
    if value.fee != course.fee {
      updatedFields := updatedFields["fee" := Num(Int(value.fee))];
    }
    if value.category != course.category {
      updatedFields := updatedFields["category" := Str(value.category)];
    }
    if value.status != course.status {
      updatedFields := updatedFields["status" := Bool(value.status)];
    }
  }

  /** The handler as written: the description is compared with the raw, possibly `null`, one. */
  method OnSubmitAsWritten(course: Course, value: PatchCourseValue) returns (updatedFields: map<string, Value>)
    ensures IsCoursePatch(course, value, updatedFields, course.description)
  {
    updatedFields := map["id" := Str(course.id)];
    if value.title != course.title {
      updatedFields := updatedFields["title" := Str(value.title)];
    }
    if Some(value.description) != course.description {
      updatedFields := updatedFields["description" := Str(value.description)];
    }
    updatedFields := AddChangedFields(course, value, updatedFields);
  }

  /** The handler with the description compared with `course.description ?? ''`. */
  method OnSubmit(course: Course, value: PatchCourseValue) returns (updatedFields: map<string, Value>)
    ensures IsCoursePatch(course, value, updatedFields, Some(course.description.GetOr("")))
  {
    updatedFields := map["id" := Str(course.id)];
    if value.title != course.title {
      updatedFields := updatedFields["title" := Str(value.title)];
    }
    if value.description != course.description.GetOr("") {
      updatedFields := updatedFields["description" := Str(value.description)];
    }
    updatedFields := AddChangedFields(course, value, updatedFields);
  }

  /**
    * As written, submitting the untouched form of a course without a
    * description sends `description: ''`, overwriting the `null`.
    */
  lemma UntouchedNullDescriptionSentAsWritten(course: Course, payload: map<string, Value>)
    requires course.description.None?
    requires IsCoursePatch(course, DefaultValues(course), payload, course.description)
    ensures "description" in payload && payload["description"] == Str("")
    ensures payload != map["id" := Str(course.id)]
  {
  }

  /** As written, a course that has a description sends it only when it changed. */
  lemma DescriptionDiffAsWritten(course: Course, value: PatchCourseValue, payload: map<string, Value>)
    requires course.description.Some?
    requires IsCoursePatch(course, value, payload, course.description)
    ensures "description" in payload <==> value.description != course.description.value
  {
  }

  /** With the intended comparison, the untouched form sends only the id. */
  lemma UntouchedSendsOnlyId(course: Course, payload: map<string, Value>)
    requires IsCoursePatch(course, DefaultValues(course), payload, Some(course.description.GetOr("")))
    ensures payload == map["id" := Str(course.id)]
  {
    assert payload.Keys == {"id"};
  }

  /** With the intended comparison, no key but `id` carries a value equal to the loaded one. */
  lemma NoUnchangedValueSent(course: Course, value: PatchCourseValue, payload: map<string, Value>)
    requires IsCoursePatch(course, value, payload, Some(course.description.GetOr("")))
    ensures "title" in payload ==> payload["title"] != Str(course.title)
    ensures "description" in payload ==> payload["description"] != Str(course.description.GetOr(""))
    ensures "durationWeeks" in payload ==> payload["durationWeeks"] != Num(Int(course.durationWeeks))
    ensures "totalHours" in payload ==> payload["totalHours"] != Num(Int(course.totalHours))
    ensures "fee" in payload ==> payload["fee"] != Num(Int(course.fee))
    ensures "category" in payload ==> payload["category"] != Str(course.category)
    ensures "status" in payload ==> payload["status"] != Bool(course.status)
  {
  }

  /** The two handlers differ only for a course without a description whose field is left empty. */
  lemma HandlersAgreeOtherwise(course: Course, value: PatchCourseValue, written: map<string, Value>, intended: map<string, Value>)
    requires IsCoursePatch(course, value, written, course.description)
    requires IsCoursePatch(course, value, intended, Some(course.description.GetOr("")))
    requires course.description.Some? || value.description != ""
    ensures written == intended
  {
    assert written.Keys == intended.Keys;
  }

  /** The submit handler runs only on a valid value; it uses the intended comparison. */
  method Submit(course: Course, value: PatchCourseValue) returns (sent: Option<map<string, Value>>)
    ensures sent.Some? <==> Issues(value) == []
    ensures sent.Some? ==> IsCoursePatch(course, value, sent.value, Some(course.description.GetOr("")))
  {
    if Issues(value) == [] {
      var payload := OnSubmit(course, value);
      sent := Some(payload);
    } else {
      sent := None;
    }
  }
}
