/**
 * The job card: the status badge, the service badges, the price line and the
 * quick-action buttons, each a lookup or a condition on the job's fields.
 */
module JobCard {
  import opened Optional
  import opened Records

  /** A status badge: its colour classes and its caption. */
  datatype Badge = Badge(color: string, caption: string)

  const StatusConfig: map<string, Badge> := map[
    Lead := Badge("bg-yellow-100 text-yellow-800 border-yellow-200", "Lead"),
    Quoted := Badge("bg-orange-100 text-orange-800 border-orange-200", "Quoted"),
    Scheduled := Badge("bg-blue-100 text-blue-800 border-blue-200", "Scheduled"),
    Completed := Badge("bg-green-100 text-green-800 border-green-200", "Completed"),
    Cancelled := Badge("bg-slate-100 text-slate-500 border-slate-200", "Cancelled"),
    NoShow := Badge("bg-red-100 text-red-800 border-red-200", "No Show")]

  const ServiceLabels: map<string, string> := map[
    "inside_windows" := "Inside Windows",
    "outside_windows" := "Outside Windows",
    "gutters" := "Gutters",
    "screens" := "Screens",
    "other" := "Other"]

  /** `statusConfig[job.status] || statusConfig.lead`: a status the table does not know shows as a lead. */
  function StatusBadge(status: string): (b: Badge)
    ensures status in StatusConfig ==> b == StatusConfig[status]
    ensures status !in StatusConfig ==> b == Badge("bg-yellow-100 text-yellow-800 border-yellow-200", "Lead")
    ensures b in StatusConfig.Values
  {
    if status in StatusConfig then StatusConfig[status] else StatusConfig[Lead]
  }

  /** `serviceLabels[service] || service`: an unknown service id is shown as it is. */
  function ServiceBadge(service: string): (shown: string)
    ensures service !in ServiceLabels ==> shown == service
    ensures service in ServiceLabels ==> shown == ServiceLabels[service] && shown != ""
  {
    if service in ServiceLabels then ServiceLabels[service] else service
  }

  /**
   * The price line: shown when the estimate or the final price is truthy, with
   * the final price when that is truthy and the estimate otherwise.
   */
  function PriceLine(j: Job): (p: Option<int>)
    ensures p.Some? <==> Truthy(j.priceEstimate) || Truthy(j.finalPrice)
    ensures p.Some? ==> p.value != 0
  {
    if Truthy(j.finalPrice) then Some(j.finalPrice.value)
    else if Truthy(j.priceEstimate) then Some(j.priceEstimate.value)
    else None
  }

  /** The card shows what the revenue figures count for the job, and hides the line exactly when that is 0. */
  lemma PriceLineIsWorth(j: Job)
    ensures PriceLine(j).Some? ==> PriceLine(j).value == JobValue(j)
    ensures PriceLine(j).None? <==> JobValue(j) == 0
  {
  }

  /**
   * The quick actions of a card shown with them: Message always, Send Quote for
   * a lead and Schedule for a quoted job; none when the card has no actions.
   */
  function QuickActions(j: Job, enabled: bool): (r: seq<string>)
    ensures !enabled ==> r == []
    ensures enabled ==> 1 <= |r| <= 2 && r[0] == "message"
    ensures "quote" in r <==> enabled && j.status == Lead
    ensures "schedule" in r <==> enabled && j.status == Quoted
  {
    if !enabled then []
    else ["message"] + (if j.status == Lead then ["quote"] else []) + (if j.status == Quoted then ["schedule"] else [])
  }
}
