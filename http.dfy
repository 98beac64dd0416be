/** What a route handler hands back: a JSON body, or an `HTTPException`. */
module Http {
  import opened Wrappers
  import opened JsonValues
  import opened LeadStates

  datatype Response<+T> = Body(value: T) | HttpError(status: int, detail: string)

  const NotFound: Response<State> := HttpError(404, "Lead not found")

  /** `value or default` for an optional text: None and "" give the default. */
  function OrText(value: Option<string>, default: string): string {
    if value.Some? && value.value != "" then value.value else default
  }

  /** `request.headers.get(name, default)`: a header that is sent, even empty, is taken as it is. */
  function Header(value: Option<string>, default: string): string {
    value.GetOr(default)
  }

  /** `{"message": ..., "lead_id": ...}` */
  function Message(text: string, leadId: string): State {
    map["message" := JStr(text), "lead_id" := JStr(leadId)]
  }
}
