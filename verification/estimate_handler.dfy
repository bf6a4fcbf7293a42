/** The request handler of the estimate function: validate the lead id,
    read the lead, analyse its photos when it has any, price it, write the
    estimate back and answer.

    The database, the photo fetches and the inference service are inputs:
    `Env` carries the table, whether the read or the write fails, and what
    the network returns. */
module EstimateHandler {

  import opened Wrappers
  import opened RoofAnalysis
  import opened Pricing
  import opened Leads

  /** The request body: `Malformed` when it is not JSON, or is JSON `null`
      (destructuring `{ leadId }` then throws); otherwise an object whose
      `leadId` is `None` when absent or `null`. */
  datatype Request = Malformed | Body(leadId: Option<string>)

  /** Everything outside the function that decides its behaviour. */
  datatype Env = Env(
    store: Store,
    readFails: bool,
    fetch: string -> PhotoFetch,
    reply: AiReply,
    parse: string -> Option<Analysis>,
    updateFails: bool)

  /** The answer: 400, 404, 500, or 200 with the estimate, the analysis
      (`null` when there was none) and the lead id. */
  datatype Response =
    | MissingLeadId
    | LeadNotFound
    | Crashed
    | Estimated(estimate: EstimateResult, analysis: Option<Analysis>, leadId: string)

  function StatusCode(r: Response): (code: int)
    ensures code in {200, 400, 404, 500}
    ensures code == 200 <==> r.Estimated?
  {
    match r
    case MissingLeadId => 400
    case LeadNotFound => 404
    case Crashed => 500
    case Estimated(_, _, _) => 200
  }

  /** One invocation: the answer, the analysis call made (if any) and the
      table afterwards. */
  datatype Run = Run(response: Response, call: Option<AnalysisCall>, store: Store)

  /** `!leadId`: absent, `null` or the empty string. */
  predicate Falsy(leadId: Option<string>) {
    leadId.None? || leadId.value == ""
  }

  /** The lead fields handed to `calculateEstimate`. */
  function InputOf(lead: Lead, analysis: Option<Analysis>): (input: EstimateInput)
    ensures input.projectType == lead.projectType && input.aiAnalysis == analysis
    ensures input.propertyType == lead.propertyType && input.roofType == lead.roofType
    ensures input.accessDifficulty == lead.accessDifficulty
  {
    EstimateInput(lead.projectType, lead.propertyType, lead.roofType, lead.roofAge,
                  lead.accessDifficulty, lead.roofIssues, analysis)
  }

  /** The columns the estimate is written to. */
  function Record(lead: Lead, analysis: Option<Analysis>, e: EstimateResult): (r: Lead)
    ensures r.aiAnalysis == analysis
    ensures r.estimateLow == Some(e.low) && r.estimateMid == Some(e.mid) && r.estimateHigh == Some(e.high)
    ensures r.estimateTimeline == Some(e.timeline) && r.confidenceScore == Some(e.confidence)
    ensures r.(aiAnalysis := lead.aiAnalysis, estimateLow := lead.estimateLow, estimateMid := lead.estimateMid,
               estimateHigh := lead.estimateHigh, estimateTimeline := lead.estimateTimeline,
               confidenceScore := lead.confidenceScore) == lead
  {
    lead.(aiAnalysis := analysis, estimateLow := Some(e.low), estimateMid := Some(e.mid),
          estimateHigh := Some(e.high), estimateTimeline := Some(e.timeline),
          confidenceScore := Some(e.confidence))
  }

  /** The analysis the estimate uses: the assessment when the call
      returned one, `null` when it threw. */
  function AnalysisOf(call: Option<AnalysisCall>): (a: Option<Analysis>)
    ensures a.Some? <==> call.Some? && call.value.outcome.Success?
    ensures a.Some? ==> a.value == call.value.outcome.value
  {
    if call.Some? && call.value.outcome.Success? then Some(call.value.outcome.value) else None
  }

  /** The handler, for a request that is not a CORS preflight. */
  function Handle(req: Request, env: Env): (run: Run)
    ensures run.response == Crashed <==> req.Malformed?
    ensures run.response == MissingLeadId <==> req.Body? && Falsy(req.leadId)
    ensures run.response == LeadNotFound <==>
              req.Body? && !Falsy(req.leadId)
              && (env.readFails || SelectSingle(env.store, req.leadId.value).None?)
    ensures !run.response.Estimated? ==> run.call.None? && run.store == env.store
    ensures run.response.Estimated? ==>
              run.response.leadId == req.leadId.value
              && SelectSingle(env.store, req.leadId.value).Some?
              && (run.call.Some? <==> HasPhotos(SelectSingle(env.store, req.leadId.value).value))
              && run.response.analysis == AnalysisOf(run.call)
              && run.response.estimate
                   == CalculateEstimate(InputOf(SelectSingle(env.store, req.leadId.value).value, run.response.analysis))
              && (run.call.Some? ==>
                    run.call.value == AnalyzeRoofPhotos(SelectSingle(env.store, req.leadId.value).value.photos.value,
                                                        env.fetch, env.reply, env.parse))
    ensures run.call.Some? ==> |run.call.value.images| <= MaxPhotos
    ensures env.updateFails ==> run.store == env.store
  {
    match req
    case Malformed => Run(Crashed, None, env.store)
    case Body(leadId) =>
      if Falsy(leadId) then Run(MissingLeadId, None, env.store)
      else
        var id := leadId.value;
        var found := if env.readFails then None else SelectSingle(env.store, id);
        if found.None? then Run(LeadNotFound, None, env.store)
        else
          var lead := found.value;
          var call := if HasPhotos(lead)
                      then Some(AnalyzeRoofPhotos(lead.photos.value, env.fetch, env.reply, env.parse))
                      else None;
          var analysis := AnalysisOf(call);
          var estimate := CalculateEstimate(InputOf(lead, analysis));
          var after := if env.updateFails then env.store
                       else UpdateWhere(env.store, id, (l: Lead) => Record(l, analysis, estimate));
          Run(Estimated(estimate, analysis, id), call, after)
  }

  /** When the analysis throws (the request fails, a non-OK status, no
      content), the lead is priced exactly as if it had no photos and the
      answer still carries 200 with a `null` analysis. */
  lemma FailedAnalysisIsLikeNoPhotos(id: string, env: Env, lead: Lead)
    requires id != "" && !env.readFails
    requires SelectSingle(env.store, id) == Some(lead) && HasPhotos(lead)
    requires env.reply.Rejected? || env.reply.NotOk? || env.reply == Replied(None) || env.reply == Replied(Some(""))
    ensures var r := Handle(Body(Some(id)), env).response;
            r.Estimated? && r.analysis.None? && StatusCode(r) == 200
            && r.estimate == CalculateEstimate(InputOf(lead.(photos := None), None))
  {
  }

  /** A reply that cannot be parsed yields the fallback assessment, and the
      estimate is computed from it. */
  lemma UnparsableReplyPricesFallback(id: string, env: Env, lead: Lead, content: string)
    requires id != "" && !env.readFails
    requires SelectSingle(env.store, id) == Some(lead) && HasPhotos(lead)
    requires env.reply == Replied(Some(content)) && content != ""
    requires env.parse(ExtractPayload(content)).None?
    ensures var r := Handle(Body(Some(id)), env).response;
            r.Estimated? && r.analysis == Some(Fallback)
            && r.estimate == CalculateEstimate(InputOf(lead, Some(Fallback)))
  {
    UnparsableReplyGivesFallback(content, env.parse);
  }

  /** A failed write is only logged: the answer is the same 200 as when
      the write succeeds. */
  lemma UpdateFailureStillSucceeds(req: Request, env: Env)
    ensures Handle(req, env.(updateFails := true)).response == Handle(req, env.(updateFails := false)).response
  {
  }

  /** After a successful write the lead reads back with the estimate and
      the analysis of the answer, and every other lead reads back as
      before. */
  lemma EstimatePersisted(id: string, env: Env, lead: Lead, other: string)
    requires UniqueIds(env.store) && !env.updateFails
    requires id != "" && !env.readFails
    requires SelectSingle(env.store, id) == Some(lead)
    ensures var run := Handle(Body(Some(id)), env);
            run.response.Estimated?
            && SelectSingle(run.store, id) == Some(Record(lead, run.response.analysis, run.response.estimate))
            && (other != id ==> SelectSingle(run.store, other) == SelectSingle(env.store, other))
  {
    var run := Handle(Body(Some(id)), env);
    var change := (l: Lead) => Record(l, run.response.analysis, run.response.estimate);
    assert run.store == UpdateWhere(env.store, id, change);
    SelectAfterUpdate(env.store, id, change, id);
    SelectAfterUpdate(env.store, id, change, other);
  }
}
