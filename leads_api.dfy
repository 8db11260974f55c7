/** `leads.api.ts`: the requests `getLeads`, `getLead` and `patchLead` send. */
module LeadsApi {
  import opened Js
  import opened ParamsUtils
  import opened AxiosConfig
  import opened ListRequest

  const LeadsPath := "/leads"

  /** `getLeads(filters)`: `GET /leads` with the shaped params. */
  function GetLeads(filters: map<string, Value>, defaults: PageDefaults): (r: Result<Request, JsError>)
    ensures r.Ok? <==> ListParams(filters, defaults).Ok?
    ensures r.Ok? ==>
      && r.value.httpMethod == Some("get") && r.value.url == Some(LeadsPath)
      && r.value.params == ListParams(filters, defaults).value
      && r.value.headers == map[] && !r.value.retry
  {
    match ListParams(filters, defaults)
    case Ok(params) => Ok(Request(Some("get"), Some(LeadsPath), map[], params, Undefined, false))
    case Err(e) => Err(e)
  }

  /** `getLead(id)`: `GET /leads/${id}`. */
  function GetLead(id: string): (r: Request)
    ensures r.httpMethod == Some("get")
    ensures StartsWith(UrlOf(r), LeadsPath + "/") && UrlOf(r)[|LeadsPath| + 1..] == id
    ensures r.params == map[] && r.data == Undefined
  {
    Request(Some("get"), Some(LeadsPath + "/" + id), map[], map[], Undefined, false)
  }

  /** `patchLead(leadData)`: `PATCH /leads/${leadData.id}` with the whole payload as body. */
  function PatchLead(leadData: map<string, Value>): (r: Request)
    requires "id" in leadData && leadData["id"].Str?
    ensures r.httpMethod == Some("patch")
    ensures StartsWith(UrlOf(r), LeadsPath + "/") && UrlOf(r)[|LeadsPath| + 1..] == leadData["id"].s
    ensures r.data == Obj(leadData, false) && Field(r.data, "id") == leadData["id"]
  {
    Request(Some("patch"), Some(LeadsPath + "/" + leadData["id"].s), map[], map[], Obj(leadData, false), false)
  }

  /**
    * A patch goes out without the token exactly when its URL ends in
    * `/csrf`: when the id is `csrf` or itself ends in `/csrf`.
    */
  lemma PatchLeadExemptIff(leadData: map<string, Value>)
    requires "id" in leadData && leadData["id"].Str?
    ensures IsExempt(PatchLead(leadData)) <==>
      leadData["id"].s == "csrf" || EndsWith(leadData["id"].s, CsrfPath)
  {
    assert Lower("patch") == "patch";
    ItemUrlEndsWithCsrf(LeadsPath + "/", leadData["id"].s);
  }

  /** A patch whose id neither is `csrf` nor ends in `/csrf` always goes out with the token. */
  lemma PatchLeadNeedsToken(leadData: map<string, Value>)
    requires "id" in leadData && leadData["id"].Str?
    requires !(leadData["id"].s == "csrf" || EndsWith(leadData["id"].s, CsrfPath))
    ensures !IsExempt(PatchLead(leadData))
  {
    PatchLeadExemptIff(leadData);
  }
}
