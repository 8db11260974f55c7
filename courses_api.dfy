/** `courses.api.ts`: the requests `getCourses`, `getCourse` and `patchCourse` send. */
module CoursesApi {
  import opened Js
  import opened ParamsUtils
  import opened AxiosConfig
  import opened ListRequest

  /** A course as the server returns it; `syllabus` and the timestamps are not used here. */
  datatype Course = Course(
    id: string, title: string, description: Option<string>,
    durationWeeks: int, totalHours: int, fee: int, category: string, status: bool)

  const CoursesPath := "/courses"

  /** `getCourses(filters)`: `GET /courses` with the shaped params. */
  function GetCourses(filters: map<string, Value>, defaults: PageDefaults): (r: Result<Request, JsError>)
    ensures r.Ok? <==> ListParams(filters, defaults).Ok?
    ensures r.Ok? ==>
      && r.value.httpMethod == Some("get") && r.value.url == Some(CoursesPath)
      && r.value.params == ListParams(filters, defaults).value
      && r.value.headers == map[] && !r.value.retry
  {
    match ListParams(filters, defaults)
    case Ok(params) => Ok(Request(Some("get"), Some(CoursesPath), map[], params, Undefined, false))
    case Err(e) => Err(e)
  }

  /** `getCourse(id)`: `GET /courses/${id}`. */
  function GetCourse(id: string): (r: Request)
    ensures r.httpMethod == Some("get")
    ensures StartsWith(UrlOf(r), CoursesPath + "/") && UrlOf(r)[|CoursesPath| + 1..] == id
    ensures r.params == map[] && r.data == Undefined
  {
    Request(Some("get"), Some(CoursesPath + "/" + id), map[], map[], Undefined, false)
  }

  /** `patchCourse(courseData)`: `PATCH /courses/${courseData.id}` with the whole payload, `id` included, as body. */
  function PatchCourse(courseData: map<string, Value>): (r: Request)
    requires "id" in courseData && courseData["id"].Str?
    ensures r.httpMethod == Some("patch")
    ensures StartsWith(UrlOf(r), CoursesPath + "/") && UrlOf(r)[|CoursesPath| + 1..] == courseData["id"].s
    ensures r.data == Obj(courseData, false) && Field(r.data, "id") == courseData["id"]
  {
    Request(Some("patch"), Some(CoursesPath + "/" + courseData["id"].s), map[], map[], Obj(courseData, false), false)
  }

  /** Reading a course never fetches a token. */
  lemma GetCourseNeedsNoToken(id: string)
    ensures IsExempt(GetCourse(id))
  {
    assert Lower("get") == "get";
  }

  /** A patch whose id neither is `csrf` nor ends in `/csrf` always goes out with the token. */
  lemma PatchCourseNeedsToken(courseData: map<string, Value>)
    requires "id" in courseData && courseData["id"].Str?
    requires !(courseData["id"].s == "csrf" || EndsWith(courseData["id"].s, CsrfPath))
    ensures !IsExempt(PatchCourse(courseData))
  {
    PatchCourseExemptIff(courseData);
  }

  /**
    * A patch goes out without the token exactly when its URL ends in
    * `/csrf`: when the id is `csrf` or itself ends in `/csrf`.
    */
  lemma PatchCourseExemptIff(courseData: map<string, Value>)
    requires "id" in courseData && courseData["id"].Str?
    ensures IsExempt(PatchCourse(courseData)) <==>
      courseData["id"].s == "csrf" || EndsWith(courseData["id"].s, CsrfPath)
  {
    assert Lower("patch") == "patch";
    ItemUrlEndsWithCsrf(CoursesPath + "/", courseData["id"].s);
  }

  /** The path test is textual: a course whose id is `csrf` is patched without a token. */
  lemma CsrfNamedCourseSkipsToken(courseData: map<string, Value>)
    requires "id" in courseData && courseData["id"] == Str("csrf")
    ensures IsExempt(PatchCourse(courseData))
  {
    assert UrlOf(PatchCourse(courseData)) == "/courses/csrf";
  }
}
