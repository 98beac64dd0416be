/** The first pipeline step: fills in defaults and normalises the website. */
module IngestNode {
  import opened JsonValues
  import opened LeadStates
  import opened Validators

  /**
   * The first part of `ingest_node`: the status, the timestamp, and the
   * defaults for a missing id, source and creation time.
   */
  method Defaults(s: State, now: string, createdNow: string, freshId: string) returns (u: State)
    ensures "status" in u && u["status"] == JStr("researching")
    ensures "updated_at" in u && u["updated_at"] == JStr(now)
    ensures ("lead_id" in u <==> !Has(s, "lead_id")) && ("lead_id" in u ==> u["lead_id"] == JStr(freshId))
    ensures ("source" in u <==> !Has(s, "source")) && ("source" in u ==> u["source"] == JStr("manual"))
    ensures ("created_at" in u <==> !Has(s, "created_at")) && ("created_at" in u ==> u["created_at"] == JStr(createdNow))
    ensures u.Keys <= {"status", "updated_at", "lead_id", "source", "created_at"}
  {
    u := map["status" := JStr("researching"), "updated_at" := JStr(now)];
    if !Has(s, "lead_id") {
      u := u["lead_id" := JStr(freshId)];
    }
    if !Has(s, "source") {
      u := u["source" := JStr("manual")];
    }
    if !Has(s, "created_at") {
      u := u["created_at" := JStr(createdNow)];
    }
  }

  /**
   * `ingest_node`. `now` and `createdNow` are the two clock readings, and
   * `freshId` the generated uuid. `warned` is whether the e-mail warning is
   * logged; the address itself is never touched.
   */
  method Ingest(s: State, now: string, createdNow: string, freshId: string) returns (u: State, warned: bool)
    requires OptStr(s, "company_website") && OptStr(s, "contact_email")
    ensures "status" in u && u["status"] == JStr("researching")
    ensures "updated_at" in u && u["updated_at"] == JStr(now)
    ensures ("lead_id" in u <==> !Has(s, "lead_id")) && ("lead_id" in u ==> u["lead_id"] == JStr(freshId))
    ensures ("source" in u <==> !Has(s, "source")) && ("source" in u ==> u["source"] == JStr("manual"))
    ensures ("created_at" in u <==> !Has(s, "created_at")) && ("created_at" in u ==> u["created_at"] == JStr(createdNow))
    ensures "company_website" in u <==> Has(s, "company_website")
    ensures "company_website" in u ==> u["company_website"] == JStr(NormalizeUrl(s["company_website"].s))
    ensures u.Keys <= {"status", "updated_at", "lead_id", "source", "created_at", "company_website"}
    ensures warned <==> Has(s, "contact_email") && !IsValidEmail(s["contact_email"].s)
  {
    u := Defaults(s, now, createdNow, freshId);
    var website := Get(s, "company_website", JStr(""));
    if Truthy(website) {
      u := u["company_website" := JStr(NormalizeUrl(website.s))];
    }
    var email := Get(s, "contact_email", JStr(""));
    warned := Truthy(email) && !IsValidEmail(email.s);
  }

  /**
   * After the update, the lead has an id, a source and a creation time;
   * ones it already had are kept, and so is its contact e-mail.
   */
  lemma IngestKeeps(s: State, u: State, freshId: string, createdNow: string)
    requires freshId != "" && createdNow != ""
    requires ("lead_id" in u <==> !Has(s, "lead_id")) && ("lead_id" in u ==> u["lead_id"] == JStr(freshId))
    requires ("source" in u <==> !Has(s, "source")) && ("source" in u ==> u["source"] == JStr("manual"))
    requires ("created_at" in u <==> !Has(s, "created_at")) && ("created_at" in u ==> u["created_at"] == JStr(createdNow))
    requires "contact_email" !in u
    ensures Has(Merge(s, u), "lead_id") && Has(Merge(s, u), "source") && Has(Merge(s, u), "created_at")
    ensures Has(s, "lead_id") ==> Merge(s, u)["lead_id"] == s["lead_id"]
    ensures Has(s, "source") ==> Merge(s, u)["source"] == s["source"]
    ensures Has(s, "created_at") ==> Merge(s, u)["created_at"] == s["created_at"]
    ensures Val(Merge(s, u), "contact_email") == Val(s, "contact_email")
  {
  }
}
