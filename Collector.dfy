/** The fan-out / fan-in stage of both handlers: one `fetch_page` task per
    page 1..total_pages on a pool of at most 32 workers, then a loop over
    the futures in completion order that extends `all_points`, counts
    `completed` and prints a progress line. Thread scheduling is replaced by
    the completion order, an arbitrary permutation of the submitted pages. */
module Collector {
  import opened Json
  import opened PageFetcher
  import opened Sequences

  /** The fixed ceiling on the worker pool. */
  const MaxWorkers: int := 32

  /** What each page's GET produces, by page number. */
  type Network = int -> Outcome

  /** What each page's future yields, by page number: the value
      `fetch_page` returned for it. */
  type Results = int -> Json

  /** The futures' results when the pool runs `fetch_page` on every page. */
  function Fetched(network: Network): Results
  {
    page => FetchPage(network(page))
  }

  /** `MAX_WORKERS = min(32, total_pages)`. */
  function WorkerCap(totalPages: int): (cap: int)
    ensures cap <= MaxWorkers && cap <= totalPages
    ensures cap == MaxWorkers || cap == totalPages
  {
    if totalPages < MaxWorkers then totalPages else MaxWorkers
  }

  /** `ThreadPoolExecutor(max_workers=cap)` raises ValueError unless the cap
      is positive. */
  predicate PoolStarts(cap: int)
  {
    cap > 0
  }

  /** The pool starts exactly when there is at least one page; it then has
      exactly as many workers as pages, up to 32. */
  lemma PoolStartsIffPages(totalPages: int)
    ensures PoolStarts(WorkerCap(totalPages)) <==> totalPages >= 1
    ensures totalPages <= MaxWorkers ==> WorkerCap(totalPages) == totalPages
    ensures totalPages >= MaxWorkers ==> WorkerCap(totalPages) == MaxWorkers
  {
  }

  /** The pages submitted to the pool, in submission order:
      `range(1, total_pages + 1)`. */
  function Submitted(totalPages: int): (pages: seq<int>)
    ensures |pages| == if totalPages > 0 then totalPages else 0
    ensures forall i :: 0 <= i < |pages| ==> pages[i] == i + 1
  {
    if totalPages <= 0 then [] else Submitted(totalPages - 1) + [totalPages]
  }

  /** Every page 1..total_pages is submitted exactly once, and no other
      page number is submitted. */
  lemma {:induction false} SubmittedOnce(totalPages: int, page: int)
    ensures multiset(Submitted(totalPages))[page] == if 1 <= page <= totalPages then 1 else 0
  {
    if totalPages > 0 {
      var before := Submitted(totalPages - 1);
      SubmittedOnce(totalPages - 1, page);
      var count := multiset(before)[page];
      assert multiset(Submitted(totalPages)) == multiset(before) + multiset{totalPages} by {
        assert Submitted(totalPages) == before + [totalPages];
      }
      assert multiset(Submitted(totalPages))[page] == count + if page == totalPages then 1 else 0;
    }
  }

  /** What `all_points.extend(future.result())` appends for page `page`, or
      `None` when `extend` raises because the page's result is not iterable
      (a JSON null, number or bool under "items"). */
  function PageItems(results: Results, page: int): Option<seq<Json>>
  {
    Iterate(results(page))
  }

  /** The items absorbed from one page: nothing when `extend` raised. */
  function Absorbed(results: Results, page: int): seq<Json>
  {
    match PageItems(results, page)
    case Some(items) => items
    case None => []
  }

  /** `all_points` after absorbing the pages of `order`, in that order. */
  function Gather(order: seq<int>, results: Results): seq<Json>
  {
    if order == [] then []
    else Gather(order[..|order| - 1], results) + Absorbed(results, order[|order| - 1])
  }

  /** `completed` after absorbing the pages of `order`: the increment sits
      after `extend` in the same `try`, so a page whose `extend` raised is
      not counted. */
  function Completed(order: seq<int>, results: Results): nat
  {
    if order == [] then 0
    else Completed(order[..|order| - 1], results)
         + (if PageItems(results, order[|order| - 1]).Some? then 1 else 0)
  }

  /** The progress condition of the fan-in loop. */
  predicate ReportsProgress(completed: int, totalPages: int)
  {
    completed % 10 == 0 || completed == totalPages
  }

  /** The values of `completed` at which a progress line is printed while
      absorbing the pages of `order`. */
  function Progress(order: seq<int>, results: Results, totalPages: int): seq<nat>
  {
    if order == [] then []
    else
      var before := order[..|order| - 1];
      var done := Completed(order, results);
      Progress(before, results, totalPages)
      + (if PageItems(results, order[|order| - 1]).Some? && ReportsProgress(done, totalPages)
         then [done] else [])
  }

  /** The fan-in loop: takes the futures in completion order `order`,
      extends `all_points` with each result, counts completions and records
      the value of `completed` at each progress line. */
  method FanIn(totalPages: int, order: seq<int>, results: Results)
    returns (allPoints: seq<Json>, completed: nat, progress: seq<nat>)
    ensures allPoints == Gather(order, results)
    ensures completed == Completed(order, results)
    ensures progress == Progress(order, results, totalPages)
  {
    allPoints, completed, progress := [], 0, [];
    var i := 0;
    while i < |order|
      invariant 0 <= i <= |order|
      invariant allPoints == Gather(order[..i], results)
      invariant completed == Completed(order[..i], results)
      invariant progress == Progress(order[..i], results, totalPages)
    {
      var page := order[i];
      var pagePoints := results(page);  // future.result()
      assert order[..i + 1][..i] == order[..i];
      match Iterate(pagePoints) {
        case None =>
          // `extend` raised TypeError; the handler prints the error and moves on
        case Some(items) =>
          allPoints := allPoints + items;
          completed := completed + 1;
          if ReportsProgress(completed, totalPages) {
            progress := progress + [completed];
          }
      }
      i := i + 1;
    }
    assert order[..|order|] == order;
  }

  /** Absorbing two runs of pages one after the other. */
  lemma {:induction false} GatherAppend(a: seq<int>, b: seq<int>, results: Results)
    ensures Gather(a + b, results) == Gather(a, results) + Gather(b, results)
    ensures Completed(a + b, results) == Completed(a, results) + Completed(b, results)
  {
    AllPointsAppend(a, b, results);
    CompletedAppend(a, b, results);
  }

  lemma {:induction false} AllPointsAppend(a: seq<int>, b: seq<int>, results: Results)
    ensures Gather(a + b, results) == Gather(a, results) + Gather(b, results)
    decreases |b|
  {
    if b == [] {
      assert a + b == a;
    } else {
      var b', last := b[..|b| - 1], b[|b| - 1];
      DropLast(a, b);
      AllPointsAppend(a, b', results);
      AppendAssoc(Gather(a, results), Gather(b', results), Absorbed(results, last));
    }
  }

  lemma {:induction false} CompletedAppend(a: seq<int>, b: seq<int>, results: Results)
    ensures Completed(a + b, results) == Completed(a, results) + Completed(b, results)
    decreases |b|
  {
    if b == [] {
      assert a + b == a;
    } else {
      DropLast(a, b);
      CompletedAppend(a, b[..|b| - 1], results);
    }
  }

  /** Absorbing a single page. */
  lemma GatherSingle(page: int, results: Results)
    ensures Gather([page], results) == Absorbed(results, page)
    ensures Completed([page], results) == if PageItems(results, page).Some? then 1 else 0
  {
    assert [page][..0] == [];
  }

  /** Absorbing the pages before a page, the page, and the pages after it. */
  lemma GatherAround(front: seq<int>, page: int, back: seq<int>, results: Results)
    ensures Gather(front + [page] + back, results)
            == Gather(front, results) + Absorbed(results, page) + Gather(back, results)
    ensures Completed(front + [page] + back, results)
            == Completed(front, results) + Completed([page], results) + Completed(back, results)
  {
    GatherAppend(front + [page], back, results);
    GatherAppend(front, [page], results);
    GatherSingle(page, results);
  }

  /** Taking the page at position `k` out of an order removes exactly that
      page's items and its completion from the fold. */
  lemma GatherWithout(other: seq<int>, k: int, results: Results)
    requires 0 <= k < |other|
    ensures multiset(Gather(other, results))
            == multiset(Gather(other[..k] + other[k + 1..], results)) + multiset(Absorbed(results, other[k]))
    ensures Completed(other, results)
            == Completed(other[..k] + other[k + 1..], results) + Completed([other[k]], results)
  {
    var front, page, back := other[..k], other[k], other[k + 1..];
    var gf, gp, gb := Gather(front, results), Absorbed(results, page), Gather(back, results);
    assert Gather(other, results) == gf + gp + gb && Completed(other, results)
           == Completed(front, results) + Completed([page], results) + Completed(back, results) by {
      SplitAt(other, k);
      GatherAround(front, page, back, results);
    }
    assert Gather(front + back, results) == gf + gb
        && Completed(front + back, results) == Completed(front, results) + Completed(back, results) by {
      GatherAppend(front, back, results);
    }
    calc {
      multiset(Gather(other, results));
      multiset(gf + gp + gb);
      multiset(gf) + multiset(gp) + multiset(gb);
      multiset(gf + gb) + multiset(gp);
    }
  }

  /** The fold does not depend on the completion order: any two orders over
      the same pages give aggregates with the same items, the same number
      of times each, and the same count of completed pages. */
  lemma {:induction false} GatherPermutation(order: seq<int>, other: seq<int>, results: Results)
    requires multiset(order) == multiset(other)
    ensures multiset(Gather(order, results)) == multiset(Gather(other, results))
    ensures Completed(order, results) == Completed(other, results)
    decreases |order|
  {
    if order != [] {
      var page := order[0];
      assert page in multiset(other);
      var k :| 0 <= k < |other| && other[k] == page;
      var rest, otherRest := order[..0] + order[1..], other[..k] + other[k + 1..];
      assert multiset(rest) == multiset(otherRest) by {
        MultisetWithout(order, 0);
        MultisetWithout(other, k);
      }
      GatherPermutation(rest, otherRest, results);
      var items, done := multiset(Absorbed(results, page)), Completed([page], results);
      assert multiset(Gather(order, results)) == multiset(Gather(rest, results)) + items
          && Completed(order, results) == Completed(rest, results) + done by {
        GatherWithout(order, 0, results);
      }
      assert multiset(Gather(other, results)) == multiset(Gather(otherRest, results)) + items
          && Completed(other, results) == Completed(otherRest, results) + done by {
        GatherWithout(other, k, results);
      }
    }
  }

  /** Total number of items the pages of `order` contribute. */
  function ItemTotal(order: seq<int>, results: Results): nat
  {
    if order == [] then 0 else |Absorbed(results, order[0])| + ItemTotal(order[1..], results)
  }

  /** The items the pages of `order` contribute, counted with multiplicity. */
  function ItemBag(order: seq<int>, results: Results): multiset<Json>
  {
    if order == [] then multiset{} else multiset(Absorbed(results, order[0])) + ItemBag(order[1..], results)
  }

  /** No item is lost and none duplicated: `all_points` holds exactly the
      items the absorbed pages contribute, each as often as the pages hold
      it, so as many items as they contribute and every page's items with
      at least their own multiplicity. */
  lemma {:induction false} GatherKeepsEveryPage(order: seq<int>, results: Results)
    ensures multiset(Gather(order, results)) == ItemBag(order, results)
    ensures |Gather(order, results)| == ItemTotal(order, results)
    ensures forall k :: 0 <= k < |order| ==>
              multiset(Absorbed(results, order[k])) <= multiset(Gather(order, results))
  {
    if order != [] {
      var first, rest := order[0], order[1..];
      GatherKeepsEveryPage(rest, results);
      assert Gather(order, results) == Absorbed(results, first) + Gather(rest, results) by {
        assert order == [first] + rest;
        GatherAppend([first], rest, results);
        GatherSingle(first, results);
      }
      forall k | 0 <= k < |order|
        ensures multiset(Absorbed(results, order[k])) <= multiset(Gather(order, results))
      {
        if k > 0 {
          assert order[k] == rest[k - 1];
        }
      }
    }
  }

  /** `completed` never exceeds the number of pages absorbed, and equals it
      exactly when no page's `extend` raised. */
  lemma {:induction false} CompletedCountsIterablePages(order: seq<int>, results: Results)
    ensures Completed(order, results) <= |order|
    ensures Completed(order, results) == |order|
            <==> forall k :: 0 <= k < |order| ==> PageItems(results, order[k]).Some?
  {
    if order != [] {
      var before := order[..|order| - 1];
      CompletedCountsIterablePages(before, results);
      if Completed(order, results) == |order| {
        forall k | 0 <= k < |order| ensures PageItems(results, order[k]).Some? {
          if k < |order| - 1 {
            assert order[k] == before[k];
          }
        }
      }
    }
  }

  /** The progress lines for `completed` running from 1 to `count`. */
  function Marks(count: nat, totalPages: int): seq<nat>
  {
    if count == 0 then []
    else Marks(count - 1, totalPages) + (if ReportsProgress(count, totalPages) then [count] else [])
  }

  /** The progress lines recorded by the fold are those of the counts
      1..completed: every count that passes the progress condition, once, in
      increasing order, whatever the completion order. */
  lemma {:induction false} ProgressIsMarks(order: seq<int>, results: Results, totalPages: int)
    ensures Progress(order, results, totalPages) == Marks(Completed(order, results), totalPages)
  {
    if order != [] {
      ProgressIsMarks(order[..|order| - 1], results, totalPages);
    }
  }

  /** A progress line is printed at count `m` exactly when `m` is one of
      the counts reached and is a multiple of 10 or the last page. */
  lemma {:induction false} MarksExactly(count: nat, totalPages: int, m: int)
    ensures m in Marks(count, totalPages) <==> 1 <= m <= count && ReportsProgress(m, totalPages)
  {
    if count > 0 {
      MarksExactly(count - 1, totalPages, m);
    }
  }

  /** When every page's result is a list, the loop completes every page,
      and the last progress line is the one for the final page. */
  lemma FinalProgressLine(totalPages: int, order: seq<int>, results: Results)
    requires totalPages >= 1
    requires multiset(order) == multiset(Submitted(totalPages))
    requires forall p :: 1 <= p <= totalPages ==> PageItems(results, p).Some?
    ensures Completed(order, results) == totalPages
    ensures var progress := Progress(order, results, totalPages);
            |progress| > 0 && progress[|progress| - 1] == totalPages
  {
    forall k | 0 <= k < |order| ensures PageItems(results, order[k]).Some? {
      assert order[k] in multiset(Submitted(totalPages));
      SubmittedOnce(totalPages, order[k]);
    }
    CompletedCountsIterablePages(order, results);
    assert |order| == |Submitted(totalPages)| by {
      assert |multiset(order)| == |multiset(Submitted(totalPages))|;
    }
    ProgressIsMarks(order, results, totalPages);
  }

  /** A page whose GET failed (an exception, a non-200 status, or a body
      without "items") still completes: `fetch_page` returns the empty list,
      so the page adds no item and counts one completion. */
  lemma FailedPageCompletes(network: Network, page: int)
    requires !HasItems(network(page))
    ensures PageItems(Fetched(network), page) == Some([]) && Absorbed(Fetched(network), page) == []
    ensures Completed([page], Fetched(network)) == 1 && Gather([page], Fetched(network)) == []
  {
    GatherSingle(page, Fetched(network));
  }

  /** A page whose "items" entry is JSON null is never completed: `extend`
      raises, the loop prints the error, and neither `all_points` nor
      `completed` changes; with a single page, `completed` stays 0 and the
      final progress line is never printed. */
  lemma NullItemsNotCompleted(network: Network)
    requires network(1) == Answered(Response(200, Some(Obj([("items", Null)]))))
    ensures Completed([1], Fetched(network)) == 0 && Gather([1], Fetched(network)) == []
    ensures Progress([1], Fetched(network), 1) == []
  {
    assert FetchPage(network(1)) == Null by {
      var fields: seq<(string, Json)> := [("items", Null)];
      assert fields[0].0 == "items";
      assert HasKey(fields, "items");
    }
    GatherSingle(1, Fetched(network));
    assert [1][..0] == [];
  }
}
