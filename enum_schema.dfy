/** `enum.schema.ts`: the shared option sets and the message each reports. */
module EnumSchema {
  import opened Zod

  const PriorityEnum := ZodEnum(["LOW", "MEDIUM", "HIGH"], Text("Please select a priority"))

  const LeadSourceEnum := ZodEnum(
    ["WALK_IN", "REFERRAL", "WEBSITE", "GOOGLE", "FACEBOOK", "INSTAGRAM", "OTHER"],
    Text("Please select a lead source"))

  const LeadStatusEnum := ZodEnum(
    ["NEW", "CONTACTED", "FOLLOW_UP", "TRIAL", "ENROLLED", "LOST"],
    Text("Please select a lead status"))

  const CourseCategoryEnum := ZodEnum(["TECH", "BUSINESS", "LANGUAGE", "OTHER"], Text("Please select a course category"))

  /**
    * The user roles. The forms declare this enum inline without a message;
    * the user patch form imports it as `roleEnum`, whose declaration is not
    * part of this model.
    */
  const RoleEnum := ZodEnum(["ADMIN", "STAFF", "INSTRUCTOR"], Builtin)

  lemma PriorityAcceptsExactly(path: seq<string>, v: string)
    ensures EnumIssues(PriorityEnum, path, v) == [] <==> v == "LOW" || v == "MEDIUM" || v == "HIGH"
    ensures EnumIssues(PriorityEnum, path, v) != [] ==>
      EnumIssues(PriorityEnum, path, v) == [Issue(path, Text("Please select a priority"))]
  {
  }

  lemma LeadSourceAcceptsExactly(path: seq<string>, v: string)
    ensures EnumIssues(LeadSourceEnum, path, v) == [] <==>
      v in {"WALK_IN", "REFERRAL", "WEBSITE", "GOOGLE", "FACEBOOK", "INSTAGRAM", "OTHER"}
    ensures EnumIssues(LeadSourceEnum, path, v) != [] ==>
      EnumIssues(LeadSourceEnum, path, v) == [Issue(path, Text("Please select a lead source"))]
  {
  }

  lemma LeadStatusAcceptsExactly(path: seq<string>, v: string)
    ensures EnumIssues(LeadStatusEnum, path, v) == [] <==>
      v in {"NEW", "CONTACTED", "FOLLOW_UP", "TRIAL", "ENROLLED", "LOST"}
    ensures EnumIssues(LeadStatusEnum, path, v) != [] ==>
      EnumIssues(LeadStatusEnum, path, v) == [Issue(path, Text("Please select a lead status"))]
  {
  }

  lemma CourseCategoryAcceptsExactly(path: seq<string>, v: string)
    ensures EnumIssues(CourseCategoryEnum, path, v) == [] <==> v in {"TECH", "BUSINESS", "LANGUAGE", "OTHER"}
    ensures EnumIssues(CourseCategoryEnum, path, v) != [] ==>
      EnumIssues(CourseCategoryEnum, path, v) == [Issue(path, Text("Please select a course category"))]
  {
  }

  /** The empty string a form starts with is in no enum. */
  lemma EmptyRejectedEverywhere(path: seq<string>)
    ensures EnumIssues(PriorityEnum, path, "") != []
    ensures EnumIssues(LeadSourceEnum, path, "") != []
    ensures EnumIssues(LeadStatusEnum, path, "") != []
    ensures EnumIssues(CourseCategoryEnum, path, "") != []
    ensures EnumIssues(RoleEnum, path, "") != []
  {
  }
}
