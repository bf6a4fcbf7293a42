# Roofing estimate service — a Dafny model

The system takes roofing estimate requests for a roofer. A customer fills
in a five-step wizard: the project type, then the property, then the roof
and its issues, then photos, then contact details. The lead is stored in a
`leads` table. An edge function analyses the lead's roof photos with an
image model and prices the job: a low / middle / high band, a timeline,
and a confidence. A second edge function e-mails the customer and the
owner. The owner follows leads on a kanban dashboard whose columns are
`nouveau`, `inspection`, `soumission` and `gagne`. A lead can also be
marked `perdu`.

This project models the logic of those four pieces:

- `Pricing`: the pricing function and the timeline rule, with their
  lookup tables, the `||` fallbacks, the emergency premium, and
  `Math.round` / `Math.ceil` on exact reals (`JsMath`).
- `RoofAnalysis`: the photo analysis. It covers which photos are sent,
  the code-fence stripping of the model's reply, and the fallback
  assessment when the reply is not JSON. `Strings` gives the `includes`,
  `split` and `trim` it relies on.
- `EstimateHandler`: the estimate request handler. It covers the 400,
  404 and 500 answers, when the analysis runs, what is written back, and
  that a failed write is only logged.
- `LeadEmails`: the e-mail handler. It covers the 404, skipping when
  there is no API key, the per-e-mail `sent` results, the 500 when a send
  throws, and what the owner's message shows.
- `Dashboard`: the kanban advance rule, status updates from the card and
  from the detail view, the columns, and the counters.
- `Wizard`: the estimate wizard's state machine. It covers the step
  buttons, the progress percentage, project selection, issue checkboxes,
  photo upload and removal, and the submit flags. It also states an
  invariant that every control keeps.
- `Leads` holds the table: one `Lead` per row, and the `.eq("id", …)`
  lookup with `.single()` and the update. `Seqs` and `Wrappers` hold
  generic sequence and option helpers.

The database, the network, the e-mail API and the image model are not
called. What they return is an input: for example, whether a read or write
fails, what each photo fetch gives, the model's reply, and how each send
ends. Parsing the model's JSON is an arbitrary function from text to an
optional assessment.

The code behaves as follows, and the model follows it:

- Only a reply that cannot be parsed yields the fallback assessment.
  A failed fetch, a non-OK status or an empty reply makes the analysis
  `null`, and the lead is priced from its form fields alone.
- A failed write of the estimate is only logged; the answer is still 200.
- The wizard validates no field and does not require the consent box.
  It stores nothing and calls neither function.
- The estimate handler sends no e-mail.
- Uploads have no photo limit; only the first five photo URLs are analysed.
- Statuses are `nouveau`, `inspection`, `soumission`, `gagne` and `perdu`.

## Model

| member | source | states |
|---|---|---|
| JsMath.Round | supabase/functions/analyze-and-estimate/index.ts:318-320 | `Math.round` on an exact number: the nearest integer, halves going up. |
| JsMath.Ceil | supabase/functions/analyze-and-estimate/index.ts:338 | `Math.ceil`: the least integer not below its argument. |
| JsMath.RoundMonotone | supabase/functions/analyze-and-estimate/index.ts:318-320 | Rounding never reverses an order, so a larger unrounded price never gives a smaller rounded one. |
| Seqs.Filter | supabase/functions/analyze-and-estimate/index.ts:149 | `filter` keeps exactly the elements satisfying the predicate and drops nothing else. |
| Seqs.FilterAppend | src/pages/Dashboard.tsx:76-78 | Filtering keeps the relative order: filtering a concatenation filters each part in place. |
| Strings.OccursImpliesContains | supabase/functions/analyze-and-estimate/index.ts:205-207 | `includes` is true when the pattern occurs at some position. |
| Strings.ContainsHasOccurrence | supabase/functions/analyze-and-estimate/index.ts:205-207 | `includes` is true only when the pattern occurs at some position. |
| Strings.Split | supabase/functions/analyze-and-estimate/index.ts:206 | `split` yields at least one piece, and at least two exactly when the separator occurs; with no occurrence the single piece is the whole text. |
| Strings.SplitPiecesFree | supabase/functions/analyze-and-estimate/index.ts:206 | No piece of `split` contains the separator. |
| Strings.SplitHead | supabase/functions/analyze-and-estimate/index.ts:206 | When no separator begins inside the text before a separator, that text is the first piece and the pieces of the rest follow it. |
| Strings.SplitFirstPiece | supabase/functions/analyze-and-estimate/index.ts:206 | When no separator begins inside a prefix, the first piece of the whole text is that prefix followed by the first piece of the rest. |
| Strings.JoinSplit | supabase/functions/analyze-and-estimate/index.ts:206 | Joining the pieces of `split` with the separator gives back the text, so the pieces are exactly the text between separators. |
| Strings.Trim | supabase/functions/analyze-and-estimate/index.ts:206 | `trim` returns a slice of the text: it drops only whitespace, at both ends, and leaves no whitespace at either end of the result. |
| Strings.TrimOfTrimmed | supabase/functions/analyze-and-estimate/index.ts:206 | `trim` leaves a text without surrounding whitespace unchanged. |
| Strings.TrimKeepsAbsence | supabase/functions/analyze-and-estimate/index.ts:206 | `trim` never creates an occurrence of a pattern. |
| RoofAnalysis.ExtractPayload | supabase/functions/analyze-and-estimate/index.ts:203-209 | A reply with no code fence goes to the parser untouched, not even trimmed. Otherwise the payload has no fence and no surrounding whitespace; `JsonBlockPayload` and `PlainBlockPayload` give the exact text. |
| RoofAnalysis.FencedSegment | supabase/functions/analyze-and-estimate/index.ts:206-208 | The trimmed text up to the first closing fence: the whole text trimmed when it has no fence; the result never contains a fence. |
| RoofAnalysis.FencedSegmentStopsAtFence | supabase/functions/analyze-and-estimate/index.ts:206-208 | The segment after an opening fence is the trimmed text before the first "```" that follows. |
| RoofAnalysis.JsonBlockRoundTrip | supabase/functions/analyze-and-estimate/index.ts:205-206 | A payload wrapped in a fenced json block is recovered exactly. |
| RoofAnalysis.PlainBlockRoundTrip | supabase/functions/analyze-and-estimate/index.ts:207-208 | A payload wrapped in a plain fenced block is recovered exactly. |
| RoofAnalysis.JsonBlockPayload | supabase/functions/analyze-and-estimate/index.ts:205-206 | With any text before the first "```json" and after the closing "```", the payload is the trimmed text between them, provided the closing fence is not followed by a backquote. |
| RoofAnalysis.PlainBlockPayload | supabase/functions/analyze-and-estimate/index.ts:207-208 | In a reply with no "```json", whatever surrounds them, the payload is the trimmed text between the first two "```". |
| RoofAnalysis.OverlappingFenceExample | supabase/functions/analyze-and-estimate/index.ts:205-206 | A closing fence followed by a backquote begins another "```json" one character in, so the payload of "```json````json x```" is a lone backquote. |
| RoofAnalysis.MimeType | supabase/functions/analyze-and-estimate/index.ts:134 | The declared content type, or `image/jpeg` when the header is absent. |
| RoofAnalysis.CollectImages | supabase/functions/analyze-and-estimate/index.ts:127-149 | Only photos whose fetch succeeded are sent, each with its MIME type. All are sent exactly when every fetch succeeded. |
| RoofAnalysis.CollectImagesKeepsFetched | supabase/functions/analyze-and-estimate/index.ts:127-149 | The photos sent are exactly the URLs whose fetch succeeded, in their original order. |
| RoofAnalysis.ImageBatch | supabase/functions/analyze-and-estimate/index.ts:128 | At most five images are sent. They are exactly the photos among the first five whose fetch succeeded, in order, each with its declared MIME type. |
| RoofAnalysis.InterpretReply | supabase/functions/analyze-and-estimate/index.ts:190-226 | The analysis throws exactly on a request failure, a non-OK status, or missing or empty content. Otherwise it returns the parsed assessment, or the fallback when parsing fails. |
| RoofAnalysis.UnparsableReplyGivesFallback | supabase/functions/analyze-and-estimate/index.ts:211-226 | An unparsable reply gives exactly the fallback `{unknown, 1500, medium, fair, [], 15, 30, moderate}`, whose confidence is below the default 50. |
| Pricing.BasePricing | supabase/functions/analyze-and-estimate/index.ts:249-258 | The material price table; every listed price is positive. |
| Pricing.PropertyAreas | supabase/functions/analyze-and-estimate/index.ts:261-267 | The property area table; every listed area is positive. |
| Pricing.PitchMultipliers | supabase/functions/analyze-and-estimate/index.ts:270-274 | The pitch multipliers; all positive. |
| Pricing.AccessMultipliers | supabase/functions/analyze-and-estimate/index.ts:276-280 | The access multipliers; all positive. |
| Pricing.ConditionMultipliers | supabase/functions/analyze-and-estimate/index.ts:282-287 | The condition multipliers; all positive. |
| Pricing.ComplexityMultipliers | supabase/functions/analyze-and-estimate/index.ts:289-293 | The complexity multipliers; all positive. |
| Pricing.NumOr | supabase/functions/analyze-and-estimate/index.ts:300 | `v || d` on numbers: the value when it is present and non-zero, the default otherwise. |
| Pricing.TextOr | supabase/functions/analyze-and-estimate/index.ts:299 | `v || d` on texts: the value when it is present and non-empty, the default otherwise. |
| Pricing.MaterialRate | supabase/functions/analyze-and-estimate/index.ts:307 | The listed price for a known material, 6.00 for any other; always positive. |
| Pricing.FormArea | supabase/functions/analyze-and-estimate/index.ts:300 | The listed area for a known property type, 1500 otherwise (including `null`). |
| Pricing.PitchFactor | supabase/functions/analyze-and-estimate/index.ts:311 | A listed pitch multiplies by its table value (low 1.0, medium 1.15, steep 1.35); an unknown pitch multiplies by exactly 1.0. |
| Pricing.AccessFactor | supabase/functions/analyze-and-estimate/index.ts:312 | A listed access multiplies by its table value (easy 1.0, moderate 1.1, difficult 1.25); an unknown or `null` access multiplies by exactly 1.0. |
| Pricing.ConditionFactor | supabase/functions/analyze-and-estimate/index.ts:313 | A listed condition multiplies by its table value (excellent 0.85, good 1.0, fair 1.1, poor 1.25); an unknown condition multiplies by exactly 1.0. |
| Pricing.ComplexityFactor | supabase/functions/analyze-and-estimate/index.ts:314 | A listed complexity multiplies by its table value (simple 0.95, moderate 1.0, complex 1.2); an unknown complexity multiplies by exactly 1.0. |
| Pricing.HarderRoofsCostMore | supabase/functions/analyze-and-estimate/index.ts:270-293 | Within each multiplier table, a steeper pitch, harder access, worse condition or more complex roof multiplies the price by strictly more. |
| Pricing.EmergencyFactor | supabase/functions/analyze-and-estimate/index.ts:296 | The premium never lowers a price, and it differs from 1.0 exactly for the emergency project type. |
| Pricing.SelectFeatures | supabase/functions/analyze-and-estimate/index.ts:299-304 | Each selected feature is truthy: a non-empty roof type and categories, and a non-zero area and confidence. |
| Pricing.SelectRates | supabase/functions/analyze-and-estimate/index.ts:307-315 | The rate and multipliers are all positive, and the emergency factor depends only on the project type. |
| Pricing.SquareFootPrice | supabase/functions/analyze-and-estimate/index.ts:307-315 | The price of one square foot after all multipliers is positive. |
| Pricing.PriceIsAreaTimesSquareFootPrice | supabase/functions/analyze-and-estimate/index.ts:307-318 | The unrounded price is the area times the price of one square foot. |
| Pricing.PriceSign | supabase/functions/analyze-and-estimate/index.ts:307-318 | The unrounded price has the sign of the area. |
| Pricing.PriceMonotoneInArea | supabase/functions/analyze-and-estimate/index.ts:307-318 | A larger area never gives a lower price, before or after rounding. |
| Pricing.PremiumScalesPrice | supabase/functions/analyze-and-estimate/index.ts:296-318 | The emergency premium multiplies the whole unrounded price by 1.3. |
| Pricing.BaseDays | supabase/functions/analyze-and-estimate/index.ts:335 | 2, 4, 6 or 8 base days for areas below 1500, below 2500, below 4000, and larger. |
| Pricing.TimelineDays | supabase/functions/analyze-and-estimate/index.ts:335-338 | The scaled and ceiled day count lies between 2 and 11. |
| Pricing.DaysLabel | supabase/functions/analyze-and-estimate/index.ts:340-343 | The day count maps to one of the four timeline texts. |
| Pricing.EstimateTimeline | supabase/functions/analyze-and-estimate/index.ts:334-344 | The timeline is always one of the four texts. |
| Pricing.TimelineMatchesBuckets | supabase/functions/analyze-and-estimate/index.ts:334-344 | The timeline equals a reference bucketing by area, moved one bucket up (and capped) for complex roofs. |
| Pricing.TimelineMonotoneInArea | supabase/functions/analyze-and-estimate/index.ts:334-344 | A larger area never gives a shorter timeline. |
| Pricing.TimelineMonotoneInComplexity | supabase/functions/analyze-and-estimate/index.ts:334-344 | Simple roofs get the same timeline as moderate ones, and complex ones never a shorter one. |
| Pricing.BandOrdered | supabase/functions/analyze-and-estimate/index.ts:318-320 | For a non-negative middle price, 0 <= low <= mid <= high. |
| Pricing.EstimateFrom | supabase/functions/analyze-and-estimate/index.ts:318-331 | `mid` is within 0.5 of the unrounded price, `low` and `high` are the rounded ±15% of `mid`, the band is ordered for a non-negative area, and the timeline and confidence come from the selected features. |
| Pricing.CalculateEstimate | supabase/functions/analyze-and-estimate/index.ts:247-332 | The ±15% band around the rounded price is ordered whenever the area is non-negative. The timeline is one of the four texts and the confidence is non-zero. |
| Pricing.NonNegativeUnlessNegativeAiArea | supabase/functions/analyze-and-estimate/index.ts:300-320 | Prices are non-negative and ordered unless the analysis reports a negative area. |
| Pricing.NegativeAiAreaInvertsBand | supabase/functions/analyze-and-estimate/index.ts:300-320 | A negative area from the analysis is used as is: for area -1000 on asphalt, mid is -5500 and low -4675 lies above it. |
| Pricing.AiTakesPrecedence | supabase/functions/analyze-and-estimate/index.ts:299-304 | Truthy analysis values decide every feature, and the form's property and roof type no longer matter. |
| Pricing.FormAndDefaults | supabase/functions/analyze-and-estimate/index.ts:299-304 | Without an analysis: the form's roof type or asphalt, the property area or 1500, and medium, fair, moderate and 50. |
| Pricing.FalsyAnalysisIsAbsent | supabase/functions/analyze-and-estimate/index.ts:299-304 | An analysis whose fields are all falsy prices like no analysis. |
| Pricing.FalsyAreaFallsBack | supabase/functions/analyze-and-estimate/index.ts:300 | A zero area from the analysis falls back to the form area, independently of the other fields. |
| Pricing.FormAgeAndIssuesIgnored | supabase/functions/analyze-and-estimate/index.ts:299-315 | The form's roof age and issues never change the estimate. |
| Pricing.UnknownRoofTypeRate | supabase/functions/analyze-and-estimate/index.ts:249-307 | An unlisted roof type (the form's "autre" included) costs 6.00; an empty or `null` form roof type becomes asphalt. |
| Pricing.UnknownAccessIsNeutral | supabase/functions/analyze-and-estimate/index.ts:312 | An unknown or `null` access prices exactly like easy access. |
| Pricing.UnknownCategoriesAreNeutral | supabase/functions/analyze-and-estimate/index.ts:310-338 | Unknown pitch, condition and complexity price exactly like low, good and moderate, with the same timeline. |
| Pricing.EmergencyMultipliesPrice | supabase/functions/analyze-and-estimate/index.ts:296-323 | An emergency multiplies the unrounded price by 1.3. It keeps the timeline and confidence, and never lowers a non-negative middle price. |
| Pricing.BungalowExample | supabase/functions/analyze-and-estimate/index.ts:247-332 | Bungalow, asphalt, easy access, no photos: 7097 / 8349 / 9601, "1-2 jours", confidence 50. |
| Pricing.BungalowEmergencyExample | supabase/functions/analyze-and-estimate/index.ts:247-332 | The same bungalow as an emergency: 9226 / 10854 / 12482. |
| Leads.Matching | supabase/functions/analyze-and-estimate/index.ts:47-51 | `.eq("id", id)` selects exactly the rows carrying that id. |
| Leads.SelectSingle | supabase/functions/analyze-and-estimate/index.ts:47-59 | `.single()` returns a row exactly when one row matches, and that row carries the id. |
| Leads.UniqueMatch | supabase/functions/analyze-and-estimate/index.ts:47-51 | With unique ids, the row carrying the id is the only match. |
| Leads.SelectSingleFinds | supabase/functions/analyze-and-estimate/index.ts:47-59 | With unique ids, the lookup succeeds exactly when some row carries the id, and returns that row. |
| Leads.UpdateWhere | supabase/functions/analyze-and-estimate/index.ts:90-100 | `.update(...).eq("id", id)` changes every row carrying the id, keeps the others, and keeps the order. |
| Leads.UpdateKeepsIds | supabase/functions/analyze-and-estimate/index.ts:90-100 | An update that keeps ids keeps the table keyed by id. |
| Leads.SelectAfterUpdate | supabase/functions/analyze-and-estimate/index.ts:90-100 | After an update, the lead reads back changed and every other lead reads back as before. |
| EstimateHandler.StatusCode | supabase/functions/analyze-and-estimate/index.ts:33-121 | Every outcome has status 200, 400, 404 or 500; 200 exactly for an estimate. |
| EstimateHandler.InputOf | supabase/functions/analyze-and-estimate/index.ts:77-85 | The estimate receives the lead's project, property, roof and access fields and the analysis. |
| EstimateHandler.Record | supabase/functions/analyze-and-estimate/index.ts:90-99 | The write sets the analysis and all five estimate columns (low, mid, high, timeline, confidence) and leaves every other column of the lead as it was. |
| EstimateHandler.AnalysisOf | supabase/functions/analyze-and-estimate/index.ts:64-74 | The analysis is `null` exactly when no call was made or the call threw; otherwise it is the assessment the call returned. |
| EstimateHandler.Handle | supabase/functions/analyze-and-estimate/index.ts:24-123 | 500 exactly for an unreadable body; 400 exactly for a falsy lead id; 404 exactly when the lookup fails. Errors make no analysis call and no write. Analysis of the lead's photos happens exactly when it has photos, with at most 5 images. The 200 answer carries the estimate of that lead with that analysis. A failed write leaves the table unchanged. |
| EstimateHandler.FailedAnalysisIsLikeNoPhotos | supabase/functions/analyze-and-estimate/index.ts:64-85 | A throwing analysis gives 200, a `null` analysis, and the estimate the lead would get without photos. |
| EstimateHandler.UnparsableReplyPricesFallback | supabase/functions/analyze-and-estimate/index.ts:211-226 | An unparsable reply is priced from the fallback assessment. |
| EstimateHandler.UpdateFailureStillSucceeds | supabase/functions/analyze-and-estimate/index.ts:102-114 | A failed write gives the same answer as a successful one. |
| EstimateHandler.EstimatePersisted | supabase/functions/analyze-and-estimate/index.ts:90-100 | After a successful write the lead reads back with the returned estimate and analysis; all other leads are unchanged. |
| LeadEmails.StatusCode | supabase/functions/send-lead-emails/index.ts:40-82 | Every outcome has status 200, 404 or 500; 200 exactly for skipped or dispatched e-mails. |
| LeadEmails.ResultOf | supabase/functions/send-lead-emails/index.ts:173 | `{sent: true}` exactly when the response is OK (the owner e-mail repeats it at line 274), otherwise `{sent: false, error}` with the body text. |
| LeadEmails.Notify | supabase/functions/send-lead-emails/index.ts:19-83 | An unreadable body gives 500 without sending. 404 exactly when the lookup fails. 200 without sending exactly when the lead exists and the key is absent or empty. A missing estimate then gives 500 without sending. The owner e-mail is only attempted after the customer one. Both results are returned exactly when both sends return normally. |
| LeadEmails.OwnerIndependentOfCustomer | supabase/functions/send-lead-emails/index.ts:59-74 | A failed customer e-mail changes only the customer result; the owner e-mail is still sent. |
| LeadEmails.ThrowingSendCrashes | supabase/functions/send-lead-emails/index.ts:59-82 | A throwing send gives 500. If the customer send throws, the owner send is not attempted. |
| LeadEmails.ProjectTypeLabels | supabase/functions/send-lead-emails/index.ts:177-181 | Only residential, commercial and emergency have a label. |
| LeadEmails.ProjectTypeLabel | supabase/functions/send-lead-emails/index.ts:213 | The label of a known project type, the raw value otherwise. |
| LeadEmails.LabelShowsKnownTypes | supabase/functions/send-lead-emails/index.ts:177-213 | The shown text differs from the stored value exactly for the three known types. |
| LeadEmails.Summarize | supabase/functions/send-lead-emails/index.ts:213-260 | The photo section appears exactly when the lead has photos, with their count; the middle price and timeline come from the request. |
| LeadEmails.DetailPlaceholders | supabase/functions/send-lead-emails/index.ts:242-250 | Property type, roof type and roof age show the placeholder exactly when the column is empty or `null` (or holds the placeholder text itself). |
| Dashboard.IndexOf | src/pages/Dashboard.tsx:220 | `indexOf` gives the first position of the value, or -1 exactly when it is absent. |
| Dashboard.NextColumn | src/pages/Dashboard.tsx:220-221 | The column after the given status; none after `gagne`. |
| Dashboard.Advance | src/pages/Dashboard.tsx:216-221 | From a column, advance goes to the next column and stops at `gagne`. A status outside the columns would go to `nouveau`. |
| Dashboard.AdvanceChain | src/pages/Dashboard.tsx:216-221 | Advance moves nouveau to inspection to soumission to gagne, and is not offered from gagne. |
| Dashboard.ColumnsAreStatusesButLost | src/pages/Dashboard.tsx:17-25 | Every column is one of the five statuses, and every status has a column except `perdu`. |
| Dashboard.UpdateLeadStatus | src/pages/Dashboard.tsx:55-74 | A failed write leaves the list unchanged. Otherwise only the status of the lead with that id changes; every other lead and field stays. |
| Dashboard.ClickAdvance | src/pages/Dashboard.tsx:216-221 | Advance writes the next column's status to that lead; nothing happens in the last column. |
| Dashboard.ChooseStatus | src/pages/Dashboard.tsx:314-320 | A status button writes the status, and the detail view shows it whether or not the write failed. |
| Dashboard.AnyStatusFromDetailView | src/pages/Dashboard.tsx:314-320 | Any status, `perdu` included, can be set from any status, and after a successful write the list and the view agree. |
| Dashboard.FailedWriteDesynchronizesView | src/pages/Dashboard.tsx:314-320 | After a failed write the view shows the new status while the list keeps the old one. |
| Dashboard.ChooseStatusConfirmed | src/pages/Dashboard.tsx:314-320 | The corrected detail-view update: the list changes as before, and after a failed write nothing changes, the view included. |
| Dashboard.ConfirmedViewMatchesList | src/pages/Dashboard.tsx:314-320 | With the corrected detail-view update, the view always shows the lead as listed. |
| Dashboard.LeadsByStatus | src/pages/Dashboard.tsx:76-78 | A column holds exactly the leads with that status. |
| Dashboard.ColumnKeepsOrder | src/pages/Dashboard.tsx:76-78 | A column lists its leads in list order. |
| Dashboard.LostLeadsNotOnBoard | src/pages/Dashboard.tsx:182-184 | A `perdu` lead appears in no column. |
| Dashboard.ColumnsPartitionBoard | src/pages/Dashboard.tsx:182-184 | A lead whose status is a column appears in exactly that column. |
| Dashboard.MidOrZero | src/pages/Dashboard.tsx:87 | `estimate_mid || 0`. |
| Dashboard.CountersDisjoint | src/pages/Dashboard.tsx:81-84 | The new, in-progress and won counters together never exceed the total. |
| Dashboard.InProgressIsTwoColumns | src/pages/Dashboard.tsx:82 | The in-progress counter equals the number of leads in the `inspection` column plus those in the `soumission` column. |
| Dashboard.ComputeStats | src/pages/Dashboard.tsx:80-87 | The counters: total is the list length; won and new equal the sizes of their columns; in progress equals the `inspection` column plus the `soumission` column; together they are at most the total. |
| Dashboard.TotalIsWonColumnSum | src/pages/Dashboard.tsx:85-87 | `totalEstimate` is the sum of middle prices over the `gagne` column, a missing one counting as 0. |
| Dashboard.TotalNonNegative | src/pages/Dashboard.tsx:85-87 | `totalEstimate` is non-negative whenever every middle price is. |
| Wizard.Next | src/pages/Estimation.tsx:61-63 | Continue moves one step forward below step 5 and changes nothing else. |
| Wizard.Back | src/pages/Estimation.tsx:65-67 | Back moves one step back above step 1 and changes nothing else. |
| Wizard.StepStaysInRange | src/pages/Estimation.tsx:59-67 | The step stays between 1 and 5. |
| Wizard.BackUndoesNext | src/pages/Estimation.tsx:61-67 | Back undoes continue, and continue undoes back, away from the ends. |
| Wizard.Progress | src/pages/Estimation.tsx:161 | The progress percentage is never negative. |
| Wizard.ProgressIsTwentyPerStep | src/pages/Estimation.tsx:161 | Each step is worth 20%: the percentage is one of 20, 40, 60, 80, 100. |
| Wizard.ChooseProjectType | src/pages/Estimation.tsx:197-200 | A project card records the type and moves from step 1 to step 2. |
| Wizard.SetIssue | src/pages/Estimation.tsx:369-380 | Checking appends the issue. Unchecking removes every occurrence and keeps the other issues, so the length drops by the number of occurrences. |
| Wizard.UncheckKeepsOrder | src/pages/Estimation.tsx:378 | Unchecking keeps the remaining issues in order. |
| Wizard.ClickIssue | src/pages/Estimation.tsx:368-380 | A click lists the issue exactly when it was not listed, and changes nothing else. |
| Wizard.ClickKeepsNoDuplicates | src/pages/Estimation.tsx:368-380 | Issues stay listed at most once. |
| Wizard.ClickTwiceRestores | src/pages/Estimation.tsx:368-380 | Checking then unchecking an issue restores the list. |
| Wizard.AddPhotos | src/pages/Estimation.tsx:77-84 | An upload appends the chosen files after the existing photos, in order, with no cap. |
| Wizard.RemovePhoto | src/pages/Estimation.tsx:459-463 | Removing a photo by its index never lengthens the list. |
| Wizard.RemovePhotoSlices | src/pages/Estimation.tsx:459-463 | Removing an in-range index deletes exactly that photo and keeps the rest in order. An out-of-range index changes nothing. |
| Wizard.RemoveLastUndoesAdd | src/pages/Estimation.tsx:77-84 | Removing a just-uploaded photo restores the list. |
| Wizard.StartSubmit | src/pages/Estimation.tsx:69-70 | Submitting sets the submitting flag; a click while submitting does nothing. |
| Wizard.FinishSubmit | src/pages/Estimation.tsx:72-74 | The end of the wait clears the submitting flag and shows the confirmation. |
| Wizard.InitialValid | src/pages/Estimation.tsx:39-57 | The empty form on step 1 satisfies the invariants. |
| Wizard.ApplyKeepsValid | src/pages/Estimation.tsx:59-84 | Every control keeps the step in range, the issues distinct and among the six options, and a completed form not submitting. |
| Wizard.ReplayKeepsValid | src/pages/Estimation.tsx:59-84 | Any sequence of events from the initial form keeps those invariants. |
| Wizard.SubmitThenWaitCompletes | src/pages/Estimation.tsx:69-75 | A submission started on step 5 ends on the confirmation, even if the user goes back meanwhile. |
| Wizard.BacksKeepSubmitting | src/pages/Estimation.tsx:591-595 | The back button stays active during a submission: any number of back clicks leaves the form submitting and not yet complete. |

## Left out

- CORS preflight (`OPTIONS`) answers, response headers and the JSON shape of error bodies: they carry no logic beyond the status code.
- Environment lookups (`Deno.env.get`): the e-mail API key is an input, and the other keys are assumed present.
- Base64 encoding of photos, the data-URL text, the prompt and the model name: only which photos are sent, and with which MIME type, is modelled.
- `JSON.parse` is an arbitrary function from text to an optional assessment. A reply that parses to something other than an assessment object (an array, a number, an object missing fields) is treated as an assessment whose missing fields are falsy, or as unparsable. JavaScript would read fields of whatever it got.
- The HTML of both e-mails, their subjects, and the `fr-CA` number formatting: the owner's message is modelled only through its variable parts (`OwnerSummary`).
- Numbers are exact reals, not IEEE doubles. `NaN`, infinities and the rounding error of products such as `1200 * 5.5 * 1.15` are not modelled. A price whose exact value lies within one double rounding error of a half integer could round differently.
- A record lookup such as `basePricing["constructor"]` would find an inherited property in JavaScript; the tables here hold only their listed keys.
- The wizard's text and select fields (address, year built, budget, contact details, preferred time) are shown and not modelled: no logic reads them.
- The consent checkbox on step 5 is an uncontrolled input that no code reads, so it blocks nothing, and the wizard validates no field.
- The wizard never calls the backend: submission waits two seconds and shows the confirmation, and the confirmation page shows a fixed estimate. The wait is the `WaitOver` event.
- The estimate handler sends no e-mail. The caller must invoke the e-mail function separately.
- Photo uploads have no count limit. Only the first five photo URLs are ever sent for analysis.
- The `updated_at` timestamp written with a status change, and the dashboard's load order (newest first), are left out. The list is kept in whatever order it was loaded.
- The dashboard's filter state, loading flag, toasts and the `statusConfig` colours and labels are presentation only.
- Concurrency: `Promise.all` over the photo fetches is modelled as one result per photo, in order. The dashboard's asynchronous write is modelled as completing before the next click.
- A request whose `leadId` is truthy but not a string (a number, an object) is not represented: the model takes the id as text or absent.
- A failed database read is treated like a missing lead, which is what both handlers answer (404).
- An e-mail request without `leadId` is modelled as a lead id that matches no row. An `estimate` present but missing some fields is not modelled: the estimate is absent or complete.
- The roof age and the roof issues from the form are passed to the pricing function but never read by it (`Pricing.FormAgeAndIssuesIgnored`). The assessment's issues and estimated age are likewise unused.
- Lead statuses are the French keys of the dashboard (`nouveau`, `inspection`, `soumission`, `gagne`, `perdu`); the database default for a new row is not part of this model.
- Static pages and components (home sections, header, footer, about, contact) contain no logic that is modelled.
- RoofAnalysis.JsonBlockPayload: promised only when the closing "```" is not followed by a backquote. When it is, a second "```json" starts inside the closing fence and the code cuts there instead (`RoofAnalysis.OverlappingFenceExample`).
- RoofAnalysis.AnalyzeRoofPhotos: carries no contract of its own; what it promises is stated on `CollectImages`, `ImageBatch` and `InterpretReply`, from which it is assembled.

## Findings

| source | as written | input that shows it | evidently intended | confidence | as-written member | corrected member |
|---|---|---|---|---|---|---|
| src/pages/Dashboard.tsx:317-319 | A status button in the detail view starts the write and then sets the opened lead to the new status unconditionally. The write's failure is only reported by a toast. | A lead `nouveau` opened in the detail view, the `gagne` button clicked, and the write rejected: the view shows `gagne` while the list and the database keep `nouveau`. | The detail view changes only when the write succeeds, so that it always shows the lead as listed. | medium, not executed | Dashboard.FailedWriteDesynchronizesView | Dashboard.ConfirmedViewMatchesList |
