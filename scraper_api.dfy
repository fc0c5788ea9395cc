/**
 * How the Stack Overflow scraper (services/stackoverflow_scrapper.py) talks
 * to the Stack Exchange API: one request with its default parameters, the
 * bounded pagination loop over question pages, and the answer fetches in
 * batches of 100 ids.
 *
 * The network is a sequence of replies, one per call in the order the calls
 * are made: the JSON page the API answered with, or the message of the
 * `RequestException` raised on the way. What each call sends (its URL and
 * query parameters) is an output of the model. Items are typed records
 * rather than JSON dicts; the quota log, the backoff sleep and the
 * rate-limiting sleeps are left out.
 */
module ScraperApi {
  import opened Wrappers
  import opened GraphUtils
  import Text
  import Batching
  import Seqs

  const BaseUrl := "https://api.stackexchange.com/2.3"

  /** The API's page size limit, also the batch size of the answer fetches. */
  const PageLimit := 100

  /** The safety limit on pages per scraping job. */
  const MaxPages := 10

  const SearchEndpoint := "search/advanced"

  type Params = map<string, Value>

  /** The JSON body of a successful call. */
  datatype Page<T> = Page(items: seq<T>, hasMore: bool, quotaRemaining: Option<int>)

  /** The reply to one call. */
  type Reply<T> = Result<Page<T>>

  /** A call beyond the replies given fails like a dropped connection. */
  const NoReply := "no reply"

  function ReplyAt<T>(replies: seq<Reply<T>>, i: nat): Reply<T>
  {
    if i < |replies| then replies[i] else Err(NoReply)
  }

  /** The URL and query parameters of one call. */
  datatype Request = Request(url: string, params: Params)

  /** What `_make_request` returns: the page, or no items and the error message. */
  datatype Response<T> = Response(items: seq<T>, hasMore: bool, quotaRemaining: Option<int>, error: Option<string>)

  const DefaultParams: Params := map["site" := Str("stackoverflow"), "order" := Str("desc"), "sort" := Str("votes")]

  /** `{**default_params, **params}`: the caller's parameters win over the defaults. */
  function RequestParams(params: Params): (r: Params)
    ensures r.Keys == DefaultParams.Keys + params.Keys
    ensures forall k :: k in params ==> r[k] == params[k]
    ensures forall k :: k in DefaultParams && k !in params ==> r[k] == DefaultParams[k]
  {
    DefaultParams + params
  }

  /** The call `_make_request(endpoint, params)` sends. */
  function RequestFor(endpoint: string, params: Params): (r: Request)
    ensures r.url == BaseUrl + "/" + endpoint
    ensures r.params == RequestParams(params)
  {
    Request(BaseUrl + "/" + endpoint, RequestParams(params))
  }

  /**
   * `_make_request` once the reply is in: it never raises; a failed call
   * gives no items, no further pages and its error message, and a page is
   * passed on as it came.
   */
  function MakeRequest<T>(reply: Reply<T>): (r: Response<T>)
    ensures r.error.Some? <==> reply.Err?
    ensures reply.Err? ==> r.items == [] && !r.hasMore && r.error == Some(reply.error)
    ensures reply.Ok? ==> r.items == reply.value.items && r.hasMore == reply.value.hasMore
  {
    match reply
    case Err(e) => Response([], false, None, Some(e))
    case Ok(page) => Response(page.items, page.hasMore, page.quotaRemaining, None)
  }

  // ------------------------------------------------------------ question pages

  /** The parameters of one page request: `page` and `pagesize` written into the caller's dict. */
  function PageParams(params: Params, page: int, pageSize: int): (r: Params)
    ensures "page" in r && r["page"] == Int(page)
    ensures "pagesize" in r && r["pagesize"] == Int(pageSize)
    ensures forall k :: k in params && k != "page" && k != "pagesize" ==> k in r && r[k] == params[k]
  {
    params["page" := Int(page)]["pagesize" := Int(pageSize)]
  }

  /** A response that ends the loop before its items are kept: an error, or no items. */
  predicate Exhausted<T>(r: Response<T>)
  {
    r.error.Some? || r.items == []
  }

  /** The response to call number `k`. */
  function ResponseAt<T>(replies: seq<Reply<T>>, k: nat): Response<T>
  {
    MakeRequest(ReplyAt(replies, k))
  }

  /** Call number `k` came back with questions and the promise of more. */
  predicate Continues<T>(replies: seq<Reply<T>>, k: nat)
  {
    !Exhausted(ResponseAt(replies, k)) && ResponseAt(replies, k).hasMore
  }

  /** The items of the first `n` responses, in order. */
  function Received<T>(replies: seq<Reply<T>>, n: nat): seq<T>
  {
    if n == 0 then [] else Received(replies, n - 1) + ResponseAt(replies, n - 1).items
  }

  /** The parameters of the call for page `page` of `size` questions, the caller's other parameters kept. */
  predicate PageRequest(p: Params, params: Params, page: int, size: int)
  {
    && "page" in p && p["page"] == Int(page)
    && "pagesize" in p && p["pagesize"] == Int(size)
    && forall k :: k in params && k != "page" && k != "pagesize" ==> k in p && p[k] == params[k]
  }

  /**
   * Call `i` was made for page `startPage + i` while questions were
   * missing, asking for what was missing and at most 100.
   */
  predicate PageCall<T>(replies: seq<Reply<T>>, params: Params, count: int, startPage: int, requests: seq<Params>, i: nat)
    requires i < |requests|
  {
    |Received(replies, i)| < count
    && PageRequest(requests[i], params, startPage + i, Batching.Min(PageLimit, count - |Received(replies, i)|))
  }

  predicate PageCalls<T>(replies: seq<Reply<T>>, params: Params, count: int, startPage: int, requests: seq<Params>)
  {
    forall i :: 0 <= i < |requests| ==> PageCall(replies, params, count, startPage, requests, i)
  }

  lemma PageCallsSnoc<T>(replies: seq<Reply<T>>, params: Params, count: int, startPage: int, requests: seq<Params>, p: Params)
    requires PageCalls(replies, params, count, startPage, requests)
    requires PageCall(replies, params, count, startPage, requests + [p], |requests|)
    ensures PageCalls(replies, params, count, startPage, requests + [p])
  {
    var r := requests + [p];
    forall i | 0 <= i < |r|
      ensures PageCall(replies, params, count, startPage, r, i)
    {
      if i < |requests| {
        assert PageCall(replies, params, count, startPage, requests, i);
        assert r[i] == requests[i];
      }
    }
  }

  /** The first `n` calls each came back with questions and the promise of more. */
  predicate AllContinued<T>(replies: seq<Reply<T>>, n: nat)
  {
    forall i :: 0 <= i < n ==> Continues(replies, i)
  }

  /**
   * One round of the loop: the call for the next page, its response, and
   * where the gathered questions and the caller's dict stand afterwards.
   */
  lemma Round<T>(replies: seq<Reply<T>>, params: Params, count: int, startPage: int, requests: seq<Params>,
                 p: Params, all: seq<T>)
    requires |all| < count && all == Received(replies, |requests|)
    requires forall k :: k in params && k != "page" && k != "pagesize" ==> k in p && p[k] == params[k]
    requires PageCalls(replies, params, count, startPage, requests)
    ensures var p' := PageParams(p, startPage + |requests|, Batching.Min(PageLimit, count - |all|));
      && PageCalls(replies, params, count, startPage, requests + [p'])
      && (forall k :: k in params && k != "page" && k != "pagesize" ==> k in p' && p'[k] == params[k])
      && all + ResponseAt(replies, |requests|).items == Received(replies, |requests| + 1)
  {
    var p' := PageParams(p, startPage + |requests|, Batching.Min(PageLimit, count - |all|));
    assert PageRequest(p', params, startPage + |requests|, Batching.Min(PageLimit, count - |all|));
    assert PageCall(replies, params, count, startPage, requests + [p'], |requests|);
    PageCallsSnoc(replies, params, count, startPage, requests, p');
  }

  /**
   * Why the calls stopped after `n` of them: the last one failed, came back
   * empty or without more pages, it was call number `MaxPages`, or `count`
   * questions had been received.
   */
  predicate Stopped<T>(replies: seq<Reply<T>>, count: int, n: nat)
  {
    n > 0 ==> !Continues(replies, n - 1) || n == MaxPages || |Received(replies, n)| >= count
  }

  /**
   * How many calls the page loop makes in all once `n` calls were made and
   * the loop goes on: none more when `count` questions are in or the page
   * limit is reached; one more, the last, when that call fails, comes back
   * empty or promises no more pages.
   */
  function CallsFrom<T>(replies: seq<Reply<T>>, count: int, n: nat): nat
    requires n <= MaxPages
    decreases MaxPages - n
  {
    if |Received(replies, n)| >= count || n == MaxPages then n
    else if !Continues(replies, n) then n + 1
    else CallsFrom(replies, count, n + 1)
  }

  /** The questions `_fetch_questions` returns: those received, cut to `count`. */
  function QuestionsFetched<T>(replies: seq<Reply<T>>, count: int): seq<T>
  {
    Seqs.SliceTo(Received(replies, CallsFrom(replies, count, 0)), count)
  }

  /** Calls made for what was missing, every one but the last continued, and a reason to stop fix their number. */
  lemma {:induction false} CallsDetermined<T>(replies: seq<Reply<T>>, count: int, n: nat, k: nat)
    requires k < n <= MaxPages
    requires forall i :: 0 <= i < n ==> |Received(replies, i)| < count
    requires forall i :: 0 <= i < n - 1 ==> Continues(replies, i)
    requires Stopped(replies, count, n)
    ensures CallsFrom(replies, count, k) == n
    decreases n - k
  {
    assert |Received(replies, k)| < count;
    if k < n - 1 {
      CallsDetermined(replies, count, n, k + 1);
    }
  }

  /** The calls a finished page loop made are the ones `CallsFrom` counts. */
  lemma CallsOfLoop<T>(replies: seq<Reply<T>>, params: Params, count: int, startPage: int, requests: seq<Params>)
    requires |requests| <= MaxPages
    requires PageCalls(replies, params, count, startPage, requests)
    requires requests != [] ==> AllContinued(replies, |requests| - 1)
    requires requests == [] ==> count <= 0
    requires Stopped(replies, count, |requests|)
    ensures |requests| == CallsFrom(replies, count, 0)
  {
    if requests != [] {
      forall i | 0 <= i < |requests| ensures |Received(replies, i)| < count {
        assert PageCall(replies, params, count, startPage, requests, i);
      }
      CallsDetermined(replies, count, |requests|, 0);
    }
  }

  /**
   * `_fetch_questions`: calls for consecutive pages from `startPage`, each
   * for what is still missing and at most 100, while questions are missing
   * (`PageCalls`); every call but the last came back with questions and the
   * promise of more, and the last one gave a reason to stop; it returns at
   * most `count` of the questions received. `requests` are the parameters
   * of each call, sent as `RequestFor(SearchEndpoint, requests[i])`.
   */
  method FetchQuestions<T>(replies: seq<Reply<T>>, params: Params, count: int, startPage: int)
    returns (questions: seq<T>, requests: seq<Params>)
    ensures |requests| <= MaxPages
    ensures PageCalls(replies, params, count, startPage, requests)
    ensures requests != [] ==> AllContinued(replies, |requests| - 1)
    ensures requests == [] <==> count <= 0
    ensures Stopped(replies, count, |requests|)
    ensures questions == Seqs.SliceTo(Received(replies, |requests|), count)
    ensures |questions| <= Batching.Max(count, 0)
    ensures |requests| == CallsFrom(replies, count, 0) && questions == QuestionsFetched(replies, count)
  {
    var all: seq<T> := [];
    var page := startPage;
    var pagesFetched := 0;
    var p := params;
    requests := [];
    while |all| < count
      invariant 0 <= pagesFetched < MaxPages && page == startPage + pagesFetched && |requests| == pagesFetched
      invariant all == Received(replies, pagesFetched)
      invariant forall k :: k in params && k != "page" && k != "pagesize" ==> k in p && p[k] == params[k]
      invariant PageCalls(replies, params, count, startPage, requests)
      invariant AllContinued(replies, pagesFetched)
      invariant requests != [] ==> count > 0
      decreases MaxPages - pagesFetched
    {
      Round(replies, params, count, startPage, requests, p, all);
      p := PageParams(p, page, Batching.Min(PageLimit, count - |all|));
      var data := MakeRequest(ReplyAt(replies, pagesFetched));
      assert data == ResponseAt(replies, pagesFetched);
      requests := requests + [p];
      if data.error.Some? || data.items == [] {
        assert all + data.items == all;
        assert Stopped(replies, count, |requests|) && AllContinued(replies, |requests| - 1);
        break;
      }
      all := all + data.items;
      pagesFetched := pagesFetched + 1;
      if !data.hasMore {
        assert Stopped(replies, count, |requests|) && AllContinued(replies, |requests| - 1);
        break;
      }
      page := page + 1;
      if pagesFetched >= MaxPages {
        assert Stopped(replies, count, |requests|);
        break;
      }
    }
    assert all == Received(replies, |requests|);
    CallsOfLoop(replies, params, count, startPage, requests);
    questions := Seqs.SliceTo(all, count);
  }

  // ------------------------------------------------------------ answer batches

  const BatchParams: Params := map["pagesize" := Int(PageLimit), "filter" := Str("withbody")]

  function IdStrings(ids: seq<int>): (r: seq<string>)
    ensures |r| == |ids|
  {
    seq(|ids|, i requires 0 <= i < |ids| => Text.IntToString(ids[i]))
  }

  /** `";".join(map(str, batch))`. */
  function IdsString(batch: seq<int>): string
  {
    Text.Join(IdStrings(batch), ";")
  }

  lemma NoSeparatorInId(x: int)
    ensures ';' !in Text.IntToString(x)
  {
    var digits := Text.NatToString(if x < 0 then -x else x);
    assert ';' !in digits by {
      forall i | 0 <= i < |digits| ensures digits[i] != ';' {
        assert '0' <= digits[i] <= '9';
      }
    }
    if x < 0 {
      assert Text.IntToString(x) == "-" + digits;
    }
  }

  /** The ids string names the batch: splitting it at ";" and reading the numbers gives the batch back. */
  lemma IdsStringDetermines(a: seq<int>, b: seq<int>)
    requires |a| >= 1 && |b| >= 1
    ensures IdsString(a) == IdsString(b) <==> a == b
  {
    if IdsString(a) == IdsString(b) {
      forall x ensures ';' !in Text.IntToString(x) {
        NoSeparatorInId(x);
      }
      assert ";" == [';'];
      Text.SplitJoin(IdStrings(a), ';');
      Text.SplitJoin(IdStrings(b), ';');
      assert IdStrings(a) == IdStrings(b);
      forall i | 0 <= i < |a|
        ensures a[i] == b[i]
      {
        assert IdStrings(a)[i] == IdStrings(b)[i];
        Text.IntToStringInjective(a[i], b[i]);
      }
    }
  }

  /** The two kinds of answer fetch: the answers of questions, or answers by their own ids. */
  datatype AnswerLookup = ByQuestion | ByAnswer

  /** `f"questions/{ids_string}/answers"` and `f"answers/{ids_string}"`. */
  function Endpoint(lookup: AnswerLookup, batch: seq<int>): string
  {
    match lookup
    case ByQuestion => "questions/" + IdsString(batch) + "/answers"
    case ByAnswer => "answers/" + IdsString(batch)
  }

  /** The items a batch response contributes: none unless it succeeded with items. */
  function Kept<T>(r: Response<T>): seq<T>
  {
    if r.error.None? && r.items != [] then r.items else []
  }

  /**
   * The items gathered over consecutive batches of `PageLimit` ids, in
   * order, the batch starting at `ids` being answered by call number `call`.
   */
  function BatchedItems<T>(replies: seq<Reply<T>>, ids: seq<int>, call: nat): seq<T>
    decreases |ids|
  {
    if ids == [] then []
    else
      var n := Batching.Min(PageLimit, |ids|);
      Kept(MakeRequest(ReplyAt(replies, call))) + BatchedItems(replies, ids[n..], call + 1)
  }

  /** The endpoints called, one per batch, in order. */
  function BatchEndpoints(lookup: AnswerLookup, ids: seq<int>): seq<string>
    decreases |ids|
  {
    if ids == [] then []
    else
      var n := Batching.Min(PageLimit, |ids|);
      [Endpoint(lookup, ids[..n])] + BatchEndpoints(lookup, ids[n..])
  }

  /**
   * One call per batch, and the batches are the consecutive slices of at
   * most 100 ids that `Batching.Chunks` describes, which cover the ids in
   * order.
   */
  lemma {:induction false} BatchEndpointsAreChunks(lookup: AnswerLookup, ids: seq<int>)
    ensures var c := Batching.Chunks(ids, PageLimit);
      |BatchEndpoints(lookup, ids)| == |c|
      && forall j :: 0 <= j < |c| ==> BatchEndpoints(lookup, ids)[j] == Endpoint(lookup, c[j])
    decreases |ids|
  {
    if ids != [] {
      var n := Batching.Min(PageLimit, |ids|);
      BatchEndpointsAreChunks(lookup, ids[n..]);
      var c := Batching.Chunks(ids, PageLimit);
      assert c == [ids[..n]] + Batching.Chunks(ids[n..], PageLimit);
      forall j | 1 <= j < |c|
        ensures BatchEndpoints(lookup, ids)[j] == Endpoint(lookup, c[j])
      {
        assert c[j] == Batching.Chunks(ids[n..], PageLimit)[j - 1];
      }
    }
  }

  /** One round of the batch loop keeps what the loop has gathered and called a prefix of the whole. */
  lemma BatchRound<T>(replies: seq<Reply<T>>, lookup: AnswerLookup, ids: seq<int>, i: nat, call: nat,
                      items: seq<T>, endpoints: seq<string>)
    requires i < |ids|
    requires items + BatchedItems(replies, ids[i..], call) == BatchedItems(replies, ids, 0)
    requires endpoints + BatchEndpoints(lookup, ids[i..]) == BatchEndpoints(lookup, ids)
    ensures var next := Batching.Min(i + PageLimit, |ids|);
      && items + Kept(MakeRequest(ReplyAt(replies, call))) + BatchedItems(replies, ids[next..], call + 1) == BatchedItems(replies, ids, 0)
      && endpoints + [Endpoint(lookup, ids[i..next])] + BatchEndpoints(lookup, ids[next..]) == BatchEndpoints(lookup, ids)
  {
    var next := Batching.Min(i + PageLimit, |ids|);
    assert ids[i..next] == ids[i..][..Batching.Min(PageLimit, |ids| - i)];
    assert ids[next..] == ids[i..][Batching.Min(PageLimit, |ids| - i)..];
    Seqs.Concat3(items, Kept(MakeRequest(ReplyAt(replies, call))), BatchedItems(replies, ids[next..], call + 1));
    Seqs.Concat3(endpoints, [Endpoint(lookup, ids[i..next])], BatchEndpoints(lookup, ids[next..]));
  }

  /**
   * The `for i in range(0, len(ids), 100)` loop of the answer fetches: one
   * call per batch, keeping the items of the ones that succeeded with
   * items. The index moves to the next batch start, clipped at the end.
   */
  method FetchInBatches<T>(replies: seq<Reply<T>>, lookup: AnswerLookup, ids: seq<int>)
    returns (items: seq<T>, endpoints: seq<string>)
    ensures items == BatchedItems(replies, ids, 0)
    ensures endpoints == BatchEndpoints(lookup, ids)
  {
    items, endpoints := [], [];
    var i, call := 0, 0;
    while i < |ids|
      invariant 0 <= i <= |ids|
      invariant items + BatchedItems(replies, ids[i..], call) == BatchedItems(replies, ids, 0)
      invariant endpoints + BatchEndpoints(lookup, ids[i..]) == BatchEndpoints(lookup, ids)
    {
      var next := Batching.Min(i + PageLimit, |ids|);
      var batch := ids[i..next];
      BatchRound(replies, lookup, ids, i, call, items, endpoints);
      var e := Endpoint(lookup, batch);
      var data := MakeRequest(ReplyAt(replies, call));
      ghost var itemsBefore := items;
      endpoints := endpoints + [e];
      if data.error.None? && data.items != [] {
        items := items + data.items;
      }
      assert items == itemsBefore + Kept(data);
      i, call := next, call + 1;
    }
  }

  /** `_fetch_answers`: the answers of the questions, 100 question ids per call. */
  method FetchAnswers<T>(replies: seq<Reply<T>>, questionIds: seq<int>) returns (answers: seq<T>, endpoints: seq<string>)
    ensures answers == BatchedItems(replies, questionIds, 0)
    ensures endpoints == BatchEndpoints(ByQuestion, questionIds)
  {
    answers, endpoints := FetchInBatches(replies, ByQuestion, questionIds);
  }

  /** `_fetch_accepted_answers`: no ids, no call; otherwise the answers by id, 100 per call. */
  method FetchAcceptedAnswers<T>(replies: seq<Reply<T>>, answerIds: seq<int>) returns (answers: seq<T>, endpoints: seq<string>)
    ensures answerIds == [] ==> answers == [] && endpoints == []
    ensures answers == BatchedItems(replies, answerIds, 0)
    ensures endpoints == BatchEndpoints(ByAnswer, answerIds)
  {
    if answerIds == [] {
      return [], [];
    }
    answers, endpoints := FetchInBatches(replies, ByAnswer, answerIds);
  }
}
