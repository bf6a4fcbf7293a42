/** The notification function: it reads the lead, and sends a confirmation
    to the customer and a notification to the owner through the e-mail
    API.

    The HTML bodies are not modelled as text. What the owner's message
    shows is modelled as `OwnerSummary`: the project label, the detail
    fields with their placeholder, and whether the photo section
    appears. Each send is an input saying how the API call ended. */
module LeadEmails {

  import opened Wrappers
  import opened Pricing
  import opened Leads

  /** The figures the caller passes in `estimate`. */
  datatype Figures = Figures(low: int, mid: int, high: int, timeline: string)

  /** The body: `Malformed` when it is not JSON, or is JSON `null`
      (destructuring `{ leadId, estimate }` then throws); otherwise
      `{ leadId, estimate }` with `estimate` absent or present. */
  datatype Request = Malformed | Body(leadId: string, estimate: Option<Figures>)

  /** How one call to the e-mail API ended: it threw (network failure,
      unreadable error body), or it answered with `ok` and a body text. */
  datatype SendReply = SendThrew | SendReplied(ok: bool, text: string)

  /** `{ sent: true }` or `{ sent: false, error }`. */
  datatype EmailResult = Sent | NotSent(error: string)

  datatype Env = Env(
    store: Store,
    readFails: bool,
    apiKey: Option<string>,
    customerSend: SendReply,
    ownerSend: SendReply)

  /** 404, 200 with `emailsSent: false`, 200 with both results, or 500. */
  datatype Response =
    | LeadNotFound
    | Skipped
    | Dispatched(customer: EmailResult, owner: EmailResult)
    | Crashed

  function StatusCode(r: Response): (code: int)
    ensures code in {200, 404, 500}
    ensures code == 200 <==> r.Skipped? || r.Dispatched?
  {
    match r
    case LeadNotFound => 404
    case Skipped => 200
    case Dispatched(_, _) => 200
    case Crashed => 500
  }

  /** The answer and which of the two sends were attempted. */
  datatype Run = Run(response: Response, customerAttempted: bool, ownerAttempted: bool)

  /** The result object of a send that returned normally. */
  function ResultOf(reply: SendReply): (r: EmailResult)
    requires reply.SendReplied?
    ensures r == Sent <==> reply.ok
    ensures !reply.ok ==> r == NotSent(reply.text)
  {
    if reply.ok then Sent else NotSent(reply.text)
  }

  /** The handler, for a request that is not a CORS preflight. A missing
      `estimate` makes the customer template throw before its request is
      made. */
  function Notify(req: Request, env: Env): (run: Run)
    ensures req.Malformed? ==> run == Run(Crashed, false, false)
    ensures req.Body? && req.estimate.None? && run.response != LeadNotFound && run.response != Skipped ==>
              run == Run(Crashed, false, false)
    ensures run.response == LeadNotFound <==>
              req.Body? && (env.readFails || SelectSingle(env.store, req.leadId).None?)
    ensures run.response == Skipped <==>
              req.Body? && !env.readFails && SelectSingle(env.store, req.leadId).Some?
              && (env.apiKey.None? || env.apiKey.value == "")
    ensures run.ownerAttempted ==> run.customerAttempted
    ensures run.customerAttempted <==>
              (run.response.Dispatched? || (run.response.Crashed? && req.Body? && req.estimate.Some?))
    ensures run.response.Dispatched? <==>
              run.customerAttempted && env.customerSend.SendReplied? && env.ownerSend.SendReplied?
    ensures run.response.Dispatched? ==>
              run.ownerAttempted
              && run.response.customer == ResultOf(env.customerSend)
              && run.response.owner == ResultOf(env.ownerSend)
  {
    match req
    case Malformed => Run(Crashed, false, false)
    case Body(leadId, estimate) =>
      var found := if env.readFails then None else SelectSingle(env.store, leadId);
      if found.None? then Run(LeadNotFound, false, false)
      else if env.apiKey.None? || env.apiKey.value == "" then Run(Skipped, false, false)
      else if estimate.None? then Run(Crashed, false, false)
      else if env.customerSend.SendThrew? then Run(Crashed, true, false)
      else if env.ownerSend.SendThrew? then Run(Crashed, true, true)
      else Run(Dispatched(ResultOf(env.customerSend), ResultOf(env.ownerSend)), true, true)
  }

  /** The owner is notified whatever the customer's result: a failed
      customer e-mail changes only the customer half of the answer. */
  lemma OwnerIndependentOfCustomer(req: Request, env: Env, text: string)
    requires Notify(req, env).response.Dispatched?
    ensures var failed := env.(customerSend := SendReplied(false, text));
            Notify(req, failed).ownerAttempted
            && Notify(req, failed).response == Dispatched(NotSent(text), Notify(req, env).response.owner)
  {
  }

  /** A send that throws turns the whole answer into a 500, even after
      the customer e-mail went out. */
  lemma ThrowingSendCrashes(req: Request, env: Env)
    requires Notify(req, env).customerAttempted
    requires env.customerSend.SendThrew? || env.ownerSend.SendThrew?
    ensures StatusCode(Notify(req, env).response) == 500
    ensures env.customerSend.SendThrew? ==> !Notify(req, env).ownerAttempted
  {
  }

  // ---------------------------------------------------------------------
  // What the owner's e-mail shows

  /** The three known project types and their labels. */
  function ProjectTypeLabels(projectType: string): (v: Option<string>)
    ensures v.Some? <==> projectType in {"residential", "commercial", "emergency"}
  {
    match projectType
    case "residential" => Some("🏠 Résidentiel")
    case "commercial" => Some("🏢 Commercial")
    case "emergency" => Some("🚨 Urgence")
    case _ => None
  }

  /** `projectTypeLabels[type] || type`. */
  function ProjectTypeLabel(projectType: string): (shown: string)
    ensures ProjectTypeLabels(projectType).Some? ==> shown == ProjectTypeLabels(projectType).value
    ensures ProjectTypeLabels(projectType).None? ==> shown == projectType
  {
    match ProjectTypeLabels(projectType)
    case Some(text) => text
    case None => projectType
  }

  /** The placeholder for a detail the lead left empty. */
  const NotSpecified := "Non spécifié"

  /** The variable parts of the owner's e-mail. `photoCount` is `None` when
      the photo section is left out. */
  datatype OwnerSummary = OwnerSummary(
    projectLabel: string,
    mid: int,
    propertyType: string,
    roofType: string,
    roofAge: string,
    timeline: string,
    photoCount: Option<nat>)

  function Summarize(lead: Lead, figures: Figures): (s: OwnerSummary)
    ensures s.photoCount.Some? <==> HasPhotos(lead)
    ensures s.photoCount.Some? ==> s.photoCount.value == |lead.photos.value| > 0
    ensures s.mid == figures.mid && s.timeline == figures.timeline
  {
    OwnerSummary(
      ProjectTypeLabel(lead.projectType),
      figures.mid,
      TextOr(lead.propertyType, NotSpecified),
      TextOr(lead.roofType, NotSpecified),
      TextOr(lead.roofAge, NotSpecified),
      figures.timeline,
      if HasPhotos(lead) then Some(|lead.photos.value|) else None)
  }

  /** Each detail shows the stored value when there is one, and the
      placeholder exactly when the column is empty or `null`. */
  lemma DetailPlaceholders(lead: Lead, figures: Figures)
    ensures var s := Summarize(lead, figures);
            (s.propertyType == NotSpecified <==> lead.propertyType in {None, Some(""), Some(NotSpecified)})
            && (s.roofType == NotSpecified <==> lead.roofType in {None, Some(""), Some(NotSpecified)})
            && (s.roofAge == NotSpecified <==> lead.roofAge in {None, Some(""), Some(NotSpecified)})
  {
  }

  /** A known project type shows its label, which never equals the raw
      value; any other value is shown as stored. */
  lemma LabelShowsKnownTypes(projectType: string)
    ensures ProjectTypeLabel(projectType) != projectType <==> projectType in {"residential", "commercial", "emergency"}
  {
  }
}
