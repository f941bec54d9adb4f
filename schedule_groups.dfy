/** The architect schedule group data source: one attempt queries a single
    page filtered by name on the server and takes its first entity. */
module ScheduleGroups {
  import opened Common

  /** A schedule group of the listing. */
  datatype ScheduleGroup = ScheduleGroup(id: string, name: Option<string>)

  /** The arguments of the single query: page number, page size and the
      name filter. */
  datatype GroupQuery = GroupQuery(pageNumber: nat, pageSize: nat, name: string)

  /** The verdict of one attempt on the page the query answered: abort on
      an error, retry on a nil or empty list, done otherwise. */
  function ScheduleGroupVerdict(page: Page<ScheduleGroup>): (a: Attempt)
    ensures a == NonRetryable <==> page.PageError?
    ensures a == Retryable <==> page.Page? && Entities(page) == []
    ensures a == Done <==> |Entities(page)| > 0
  {
    if page.PageError? then NonRetryable
    else if page.entities.None? || |page.entities.value| == 0 then Retryable
    else Done
  }

  /** One attempt of dataSourceScheduleGroupRead's retry loop. The id
      becomes that of the first entity of page 1, whatever its name: the
      name filter is applied by the server only. */
  method ScheduleGroupReadAttempt(d: ResourceData, name: string, page: Page<ScheduleGroup>)
    returns (a: Attempt, query: GroupQuery)
    modifies d
    ensures query == GroupQuery(1, PageSize, name)
    ensures a == ScheduleGroupVerdict(page)
    ensures d.id == if a == Done then Entities(page)[0].id else old(d.id)
    ensures d.attrs == old(d.attrs)
  {
    query := GroupQuery(1, PageSize, name);
    if page.PageError? {
      return NonRetryable, query;
    }
    if page.entities.None? || |page.entities.value| == 0 {
      return Retryable, query;
    }
    var scheduleGroup := page.entities.value[0];
    d.SetId(scheduleGroup.id);
    return Done, query;
  }
}
