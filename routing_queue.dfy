/** The routing queue data source: one attempt of the search for the first
    queue, in page order and then entity order, whose name equals the
    requested name exactly. */
module RoutingQueue {
  import opened Common

  /** A queue of the listing; its name may be missing. */
  datatype Queue = Queue(id: string, name: Option<string>)

  /** A queue matches when it has a name and that name is the requested one;
      a queue without a name never matches. */
  predicate Matches(q: Queue, name: string) { q.name == Some(name) }

  predicate NoMatch(qs: seq<Queue>, name: string)
  {
    forall j :: 0 <= j < |qs| ==> !Matches(qs[j], name)
  }

  /** The position of the first matching queue. */
  function FirstMatch(qs: seq<Queue>, name: string): (r: Option<nat>)
    ensures r.Some? ==> r.value < |qs| && Matches(qs[r.value], name) && NoMatch(qs[..r.value], name)
    ensures r.None? <==> NoMatch(qs, name)
  {
    if qs == [] then None
    else if Matches(qs[0], name) then Some(0)
    else
      var r := FirstMatch(qs[1..], name);
      assert forall j :: 0 < j < |qs| ==> qs[j] == qs[1..][j - 1];
      if r.Some? then
        assert forall j :: 0 <= j < r.value ==> qs[1..][..r.value][j] == qs[j + 1];
        Some(r.value + 1)
      else None
  }

  /** Any matching position with no match before it is the first match. */
  lemma {:induction false} FirstMatchAt(qs: seq<Queue>, name: string, i: nat)
    requires i < |qs| && Matches(qs[i], name)
    requires forall j :: 0 <= j < i ==> !Matches(qs[j], name)
    ensures FirstMatch(qs, name) == Some(i)
  {
    assert !NoMatch(qs, name);
  }

  /** One attempt of dataSourceRoutingQueueRead's retry loop. Pages 1, 2, ...
      of size 100 are searched in order, entity by entity. The id becomes
      that of the first queue named `name`; an error aborts, and an empty
      page before any match ends the attempt as retryable with the id
      unset. */
  method RoutingQueueReadAttempt(d: ResourceData, name: string, pages: seq<Page<Queue>>)
    returns (a: Attempt, requests: seq<PageRequest>)
    requires Terminates(pages)
    modifies d
    ensures var listed := Visited(pages, FirstStop(pages));
      FirstMatch(listed, name).Some? ==> a == Done && d.id == listed[FirstMatch(listed, name).value].id
    ensures var listed := Visited(pages, FirstStop(pages));
      FirstMatch(listed, name).None? ==>
        d.id == old(d.id) && |requests| == FirstStop(pages) + 1 &&
        a == if pages[FirstStop(pages)].PageError? then NonRetryable else Retryable
    ensures 1 <= |requests| <= FirstStop(pages) + 1 && requests == Requests(|requests|)
    ensures var listed := Visited(pages, FirstStop(pages));
      FirstMatch(listed, name).Some? ==>
        FirstMatch(Visited(pages, |requests|), name).Some? && FirstMatch(Visited(pages, |requests| - 1), name).None?
    ensures d.attrs == old(d.attrs)
  {
    var k := FirstStop(pages);
    requests := [];
    var pageNum := 1;
    while true
      invariant 1 <= pageNum <= k + 1
      invariant NoMatch(Visited(pages, pageNum - 1), name)
      invariant requests == Requests(pageNum - 1)
      invariant d.id == old(d.id) && d.attrs == old(d.attrs)
      decreases k + 1 - pageNum
    {
      requests := requests + [PageRequest(pageNum, PageSize)];
      var queues := pages[pageNum - 1];
      if queues.PageError? {
        assert pageNum - 1 == k;
        return NonRetryable, requests;
      }
      if queues.entities.None? || |queues.entities.value| == 0 {
        assert pageNum - 1 == k;
        assert Visited(pages, k) == Visited(pages, pageNum - 1);
        return Retryable, requests;
      }
      var entities := queues.entities.value;
      ghost var before := Visited(pages, pageNum - 1);
      assert Visited(pages, pageNum) == before + entities;
      var i := 0;
      while i < |entities|
        invariant 0 <= i <= |entities|
        invariant forall j :: 0 <= j < i ==> !Matches(entities[j], name)
        invariant d.id == old(d.id) && d.attrs == old(d.attrs)
      {
        var queue := entities[i];
        if queue.name.Some? && queue.name.value == name {
          d.SetId(queue.id);
          assert NoMatch(entities[..i], name);
          MatchInVisited(pages, name, pageNum, i);
          return Done, requests;
        }
        i := i + 1;
      }
      assert NoMatch(Visited(pages, pageNum), name) by {
        forall j | 0 <= j < |before + entities| ensures !Matches((before + entities)[j], name) {
          if j >= |before| {
            assert (before + entities)[j] == entities[j - |before|];
          }
        }
      }
      pageNum := pageNum + 1;
    }
  }

  /** A match at position i of page n (counted from 1), after no match on
      the earlier pages or earlier on that page, is the first match of the
      whole listing. */
  lemma {:induction false} MatchInVisited(pages: seq<Page<Queue>>, name: string, n: nat, i: nat)
    requires Terminates(pages)
    requires 1 <= n <= FirstStop(pages) + 1 && !Stops(pages[n - 1])
    requires NoMatch(Visited(pages, n - 1), name)
    requires i < |Entities(pages[n - 1])| && Matches(Entities(pages[n - 1])[i], name)
    requires NoMatch(Entities(pages[n - 1])[..i], name)
    ensures var listed := Visited(pages, FirstStop(pages));
      FirstMatch(listed, name).Some? && listed[FirstMatch(listed, name).value] == Entities(pages[n - 1])[i]
    ensures FirstMatch(Visited(pages, n), name).Some? && FirstMatch(Visited(pages, n - 1), name).None?
  {
    var k := FirstStop(pages);
    var before := Visited(pages, n - 1);
    var entities := Entities(pages[n - 1]);
    assert n - 1 < k;
    assert Visited(pages, n) == before + entities;
    VisitedPrefix(pages, n, k);
    var listed := Visited(pages, k);
    var p := |before| + i;
    assert listed[p] == (before + entities)[p] == entities[i];
    assert !NoMatch(Visited(pages, n), name);
    forall j | 0 <= j < p ensures !Matches(listed[j], name) {
      assert listed[j] == (before + entities)[j];
      if j >= |before| {
        assert (before + entities)[j] == entities[..i][j - |before|];
      }
    }
    FirstMatchAt(listed, name, p);
  }
}
