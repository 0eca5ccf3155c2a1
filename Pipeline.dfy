/** The job both handlers run (`lambda_handler` for AWS Lambda and
    `generate_map` for Google Cloud Functions): the pre-flight guards, the
    fan-out / fan-in of the page fetches, the point filter, publishing the
    map, and the response each platform receives. */
module Pipeline {
  import opened Json
  import opened PageFetcher
  import opened Collector
  import opened PointFilter

  /** Everything the job reads from outside: the `INPOST_API_TOKEN`
      environment variable, the outcome of the initial GET, the outcome of
      each page's GET, and whether saving the map file and uploading it to
      the bucket succeed. */
  datatype Environment = Environment(
    token: Option<string>,
    initial: Outcome,
    network: Network,
    published: bool)

  /** An HTTP request the job issues: the initial GET, or the GET of one
      page. */
  datatype Request = Initial | Page(page: int)

  /** Why a job answers 500: no token, a non-200 initial status, no
      "total_pages" in the initial body, an exception caught by the outer
      handler, or a failed save or upload. */
  datatype Failure =
    | MissingToken
    | InitialStatus(status: int)
    | MissingTotalPages
    | Unexpected
    | PublishFailed

  /** What a successful job reports: the page count, `len(all_points)` and
      `points_added`. */
  datatype Summary = Summary(totalPages: int, pointCount: nat, pointsAdded: nat)

  datatype JobResult = Failed(failure: Failure) | Published(summary: Summary)

  /** The guards' verdict: stop with a failure, or go on with the page count. */
  datatype Preflight = Stop(failure: Failure) | Go(totalPages: int)

  /** `if not token`: an absent or empty token stops the job. */
  predicate TokenSet(token: Option<string>)
  {
    token.Some? && token.value != ""
  }

  /** The initial response is a 200 whose decoded body is a dict without a
      "total_pages" key, a list without that string, or a string without it
      as a substring. */
  predicate LacksTotalPages(o: Outcome)
  {
    o.Answered? && o.response.status == 200 && o.response.body.Some?
    && Contains(o.response.body.value, "total_pages") == Some(false)
  }

  /** The initial response is a 200 whose decoded body is a dict whose
      "total_pages" value reads as the integer `n`. */
  predicate ReportsPages(o: Outcome, n: int)
  {
    o.Answered? && o.response.status == 200 && o.response.body.Some?
    && var data := o.response.body.value;
    data.Obj? && HasKey(data.fields, "total_pages") && AsInt(Lookup(data.fields, "total_pages")) == Some(n)
  }

  /** The guards before the first page fetch, in the order the handler
      runs them. Every exception they can raise (the GET itself, `.json()`,
      `"total_pages" in data` and `data["total_pages"]`, `min(32, ...)` on
      a non-integer, the pool rejecting a non-positive worker count, or
      `range` on a float) is caught by the outer handler. */
  function Check(env: Environment): (p: Preflight)
    ensures p == Stop(MissingToken) <==> !TokenSet(env.token)
    ensures (exists c :: p == Stop(InitialStatus(c)))
            <==> TokenSet(env.token) && env.initial.Answered? && env.initial.response.status != 200
    ensures p.Stop? && p.failure.InitialStatus? ==> p.failure.status == env.initial.response.status
    ensures p == Stop(MissingTotalPages) <==> TokenSet(env.token) && LacksTotalPages(env.initial)
    ensures p.Go? ==> p.totalPages >= 1 && PoolStarts(WorkerCap(p.totalPages))
    ensures p.Go? ==> TokenSet(env.token) && ReportsPages(env.initial, p.totalPages)
    ensures forall n :: TokenSet(env.token) && ReportsPages(env.initial, n) && n >= 1 ==> p == Go(n)
    ensures p.Stop? ==> p.failure != PublishFailed
  {
    if !TokenSet(env.token) then Stop(MissingToken)
    else
      match env.initial
      case Raised => Stop(Unexpected)
      case Answered(response) =>
        if response.status != 200 then Stop(InitialStatus(response.status))
        else
          match response.body
          case None => Stop(Unexpected)
          case Some(data) =>
            match Contains(data, "total_pages")
            case None => Stop(Unexpected)
            case Some(found) =>
              if !found then Stop(MissingTotalPages)
              else
                match Subscript(data, "total_pages")
                case None => Stop(Unexpected)
                case Some(value) =>
                  match AsInt(value)
                  case None => Stop(Unexpected)
                  case Some(totalPages) =>
                    if !PoolStarts(WorkerCap(totalPages)) then Stop(Unexpected)
                    else Go(totalPages)
  }

  /** The whole job as a function of its environment, with the pages
      absorbed in submission order. */
  function Job(env: Environment): (r: JobResult)
    ensures r.Published? <==> Check(env).Go? && env.published
                              && !AnyAborts(Gather(Submitted(Check(env).totalPages), Fetched(env.network)))
    ensures r.Failed? && Check(env).Stop? ==> r.failure == Check(env).failure
    ensures r.Published? ==> r.summary.totalPages == Check(env).totalPages
                             && r.summary.pointsAdded <= r.summary.pointCount
  {
    match Check(env)
    case Stop(failure) => Failed(failure)
    case Go(totalPages) =>
      var allPoints := Gather(Submitted(totalPages), Fetched(env.network));
      if AnyAborts(allPoints) then Failed(Unexpected)
      else if !env.published then Failed(PublishFailed)
      else Published(Summary(totalPages, |allPoints|, CountRenderable(allPoints)))
  }

  /** The page GETs for the pages submitted, one per task. */
  function PageRequests(pages: seq<int>): (rs: seq<Request>)
    ensures |rs| == |pages|
    ensures forall i :: 0 <= i < |pages| ==> rs[i] == Page(pages[i])
  {
    if pages == [] then [] else [Page(pages[0])] + PageRequests(pages[1..])
  }

  /** One run of the job. The futures complete in an order the model does
      not fix (`as_completed`), chosen here as any permutation of the
      submitted pages; the result is the same whichever is chosen.
      `requests` lists the HTTP requests issued, page requests in
      submission order. */
  method RunJob(env: Environment) returns (result: JobResult, requests: seq<Request>)
    ensures result == Job(env)
    ensures !TokenSet(env.token) ==> requests == []
    ensures TokenSet(env.token) && Check(env).Stop? ==> requests == [Initial]
    ensures Check(env).Go? ==> requests == [Initial] + PageRequests(Submitted(Check(env).totalPages))
  {
    if !TokenSet(env.token) {
      return Failed(MissingToken), [];
    }
    requests := [Initial];
    var preflight := Check(env);
    if preflight.Stop? {
      return Failed(preflight.failure), requests;
    }
    var totalPages := preflight.totalPages;
    var submitted := Submitted(totalPages);
    requests := requests + PageRequests(submitted);
    assert multiset(submitted) == multiset(submitted);
    var order: seq<int> :| multiset(order) == multiset(submitted);
    var allPoints, completed, progress := FanIn(totalPages, order, Fetched(env.network));
    ghost var inOrder := Gather(submitted, Fetched(env.network));
    GatherPermutation(order, submitted, Fetched(env.network));
    CountRenderablePermutation(allPoints, inOrder);
    AnyAbortsPermutation(allPoints, inOrder);
    assert |allPoints| == |inOrder| by {
      assert |multiset(allPoints)| == |multiset(inOrder)|;
    }
    var pointsAdded := AddPoints(allPoints);
    if pointsAdded.None? {
      return Failed(Unexpected), requests;
    }
    if !env.published {
      return Failed(PublishFailed), requests;
    }
    result := Published(Summary(totalPages, |allPoints|, pointsAdded.value));
  }

  /** Each page 1..total_pages is requested exactly once, no other page is
      requested, and no page is requested when a guard stops the job. */
  lemma {:induction false} PagesRequestedOnce(env: Environment, page: int)
    ensures var p := Check(env);
            multiset(if p.Go? then PageRequests(Submitted(p.totalPages)) else [])[Page(page)]
            == if p.Go? && 1 <= page <= p.totalPages then 1 else 0
  {
    var p := Check(env);
    if p.Go? {
      SubmittedOnce(p.totalPages, page);
      PageRequestsCount(Submitted(p.totalPages), page);
    }
  }

  /** A page request occurs as often as its page number. */
  lemma {:induction false} PageRequestsCount(pages: seq<int>, page: int)
    ensures multiset(PageRequests(pages))[Page(page)] == multiset(pages)[page]
  {
    if pages != [] {
      PageRequestsCount(pages[1..], page);
      assert pages == [pages[0]] + pages[1..];
    }
  }

  /** A successful job reports the page count and `len(all_points)`, the
      number of items all pages contributed, not `points_added`, which is
      the number of drawable points among them. */
  lemma PublishedSummary(env: Environment)
    requires Job(env).Published?
    ensures var pages := Submitted(Check(env).totalPages);
            Job(env).summary == Summary(Check(env).totalPages, ItemTotal(pages, Fetched(env.network)),
                                        CountRenderable(Gather(pages, Fetched(env.network))))
  {
    GatherKeepsEveryPage(Submitted(Check(env).totalPages), Fetched(env.network));
  }

  /** `os.environ.get('S3_BUCKET_NAME', 'inpost-map-data')`. */
  function S3Bucket(variable: Option<string>): (bucket: string)
    ensures variable.Some? ==> bucket == variable.value
    ensures variable.None? ==> bucket == "inpost-map-data"
  {
    match variable
    case Some(name) => name
    case None => "inpost-map-data"
  }

  /** The Lambda response: a status code, and on success the processing
      summary (`X-Processing-Info` and the body's `details`) and the bucket
      written to. */
  datatype LambdaResponse = LambdaResponse(statusCode: int, summary: Option<Summary>, bucket: Option<string>)

  function LambdaEnvelope(result: JobResult, bucketVariable: Option<string>): (resp: LambdaResponse)
    ensures resp.statusCode == 200 <==> result.Published?
    ensures resp.statusCode == 500 <==> result.Failed?
    ensures result.Published? ==> resp.summary == Some(result.summary)
                                  && resp.bucket == Some(S3Bucket(bucketVariable))
    ensures result.Failed? ==> resp.summary.None? && resp.bucket.None?
  {
    match result
    case Failed(_) => LambdaResponse(500, None, None)
    case Published(summary) => LambdaResponse(200, Some(summary), Some(S3Bucket(bucketVariable)))
  }

  /** `lambda_handler`: 500 for a missing token without any request, 500
      before any page request when a guard stops the job, and otherwise the
      summary of the collected points whatever order the pages completed
      in. */
  method LambdaHandler(env: Environment, bucketVariable: Option<string>)
    returns (resp: LambdaResponse, requests: seq<Request>)
    ensures resp == LambdaEnvelope(Job(env), bucketVariable)
    ensures !TokenSet(env.token) ==> resp.statusCode == 500 && requests == []
    ensures Check(env).Stop? ==> resp.statusCode == 500 && forall page :: Page(page) !in requests
    ensures TokenSet(env.token) && Check(env).Stop? ==> requests == [Initial]
    ensures resp.statusCode == 200 ==> Check(env).Go? && env.published
  {
    var result;
    result, requests := RunJob(env);
    resp := LambdaEnvelope(result, bucketVariable);
  }

  /** The Cloud Functions response: a status code and, on success, the
      processing summary (the `X-Processing-Info` header and the count in
      the page's completion popup). */
  datatype CloudResponse = CloudResponse(status: int, summary: Option<Summary>)

  function CloudEnvelope(result: JobResult): (resp: CloudResponse)
    ensures resp.status == 200 <==> result.Published?
    ensures resp.status == 500 <==> result.Failed?
    ensures result.Published? ==> resp.summary == Some(result.summary)
    ensures result.Failed? ==> resp.summary.None?
  {
    match result
    case Failed(_) => CloudResponse(500, None)
    case Published(summary) => CloudResponse(200, Some(summary))
  }

  /** `generate_map`: the same job as `lambda_handler`, answered in the
      Cloud Functions shape. */
  method GenerateMap(env: Environment) returns (resp: CloudResponse, requests: seq<Request>)
    ensures resp == CloudEnvelope(Job(env))
    ensures !TokenSet(env.token) ==> resp.status == 500 && requests == []
    ensures Check(env).Stop? ==> resp.status == 500 && forall page :: Page(page) !in requests
    ensures TokenSet(env.token) && Check(env).Stop? ==> requests == [Initial]
    ensures resp.status == 200 ==> Check(env).Go? && env.published
  {
    var result;
    result, requests := RunJob(env);
    resp := CloudEnvelope(result);
  }
}
