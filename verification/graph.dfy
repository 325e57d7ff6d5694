/**
 `tool_router`: lower the query once, pick one tool by keyword in a fixed
 priority order, and run that tool on the query as the user wrote it.
 */
module Graph {
  import opened Text
  import opened PyValues
  import KnowledgeBase
  import Leads
  import Scheduler

  /** The three tools, by the names they are registered under. */
  datatype ToolId = LeadManagementTool | SchedulerTool | KnowledgeBaseTool

  /** The data both lookup tools read, loaded once at start-up. */
  datatype Store = Store(company: Object, leads: seq<Object>)

  /** The lowered query mentions leads: "lead" or "show". */
  predicate AsksForLeads(query: string) {
    Contains(Lower(query), "lead") || Contains(Lower(query), "show")
  }

  /** The lowered query mentions meetings: "meeting" or "schedule". */
  predicate AsksForMeeting(query: string) {
    Contains(Lower(query), "meeting") || Contains(Lower(query), "schedule")
  }

  /** The routing decision of `tool_router`. */
  function Route(query: string): (t: ToolId)
    ensures t == LeadManagementTool <==> AsksForLeads(query)
    ensures t == SchedulerTool <==> !AsksForLeads(query) && AsksForMeeting(query)
    ensures t == KnowledgeBaseTool <==> !AsksForLeads(query) && !AsksForMeeting(query)
  {
    var lq := Lower(query);
    if Contains(lq, "lead") || Contains(lq, "show") then LeadManagementTool
    else if Contains(lq, "meeting") || Contains(lq, "schedule") then SchedulerTool
    else KnowledgeBaseTool
  }

  /** `<tool>.run(input)` for the chosen tool. Only the lead tool can raise. */
  function Run(tool: ToolId, input: string, store: Store): (r: Result<string>)
    ensures r.Err? ==> tool == LeadManagementTool
  {
    match tool
    case LeadManagementTool => Leads.LeadTool(store.leads, input)
    case SchedulerTool => Ok(Scheduler.ScheduleMeeting(input))
    case KnowledgeBaseTool => Ok(KnowledgeBase.CompanyInfo(store.company, input))
  }

  /** `tool_router({"input": query})["output"]`: exactly one tool runs, on the
      original, un-lowered query. */
  function ToolRouter(query: string, store: Store): (r: Result<string>)
    ensures AsksForLeads(query) ==> r == Leads.LeadTool(store.leads, query)
    ensures !AsksForLeads(query) && AsksForMeeting(query) ==> r == Ok(Scheduler.Confirmation)
    ensures !AsksForLeads(query) && !AsksForMeeting(query)
      ==> r == Ok(KnowledgeBase.CompanyInfo(store.company, query))
    ensures r.Err? ==> AsksForLeads(query)
    ensures Leads.AllNamed(store.leads) ==> r.Ok?
  {
    Run(Route(query), query, store)
  }

  /** Lead keywords win over meeting keywords: "show me the meeting" goes to
      the lead tool. */
  lemma LeadsBeforeMeetings(query: string)
    requires Contains(Lower(query), "show")
    requires Contains(Lower(query), "meeting")
    ensures Route(query) == LeadManagementTool
  {
  }

  /** The empty query mentions no keyword and goes to the knowledge tool. */
  lemma {:induction false} EmptyQueryGoesToKnowledge()
    ensures Route("") == KnowledgeBaseTool
  {
    assert Lower("") == "";
    assert !Contains("", "lead") && !Contains("", "show");
    assert !Contains("", "meeting") && !Contains("", "schedule");
  }

  /** Routing is case-insensitive. */
  lemma {:induction false} RouteIgnoresCase(query: string)
    ensures Route(Lower(query)) == Route(query)
  {
    LowerIdempotent(query);
  }

  /** Each tool lowers the query itself, so forwarding the original query
      rather than the lowered one makes no observable difference. */
  lemma {:induction false} ForwardingOriginalIsUnobservable(query: string, store: Store)
    ensures ToolRouter(query, store) == Run(Route(query), Lower(query), store)
    ensures ToolRouter(Lower(query), store) == ToolRouter(query, store)
  {
    Leads.LeadToolIgnoresCase(store.leads, query);
    KnowledgeBase.CompanyInfoIgnoresCase(store.company, query);
    RouteIgnoresCase(query);
  }
}
