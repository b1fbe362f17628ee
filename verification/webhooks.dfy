/** Webhook deliveries: rows that are posted, retried with growing delays, and given up
    after five failures. A delivery's id is its position in the table. */
module Webhooks {
  import opened Types
  import opened RetrySchedule

  datatype DeliveryStatus = Waiting | Delivered | Abandoned

  /** One POST: when it was sent, whether it succeeded, when the row was updated. */
  datatype Post = Post(sentAt: int, success: bool, writtenAt: int)

  /** `posts` is a history variable: the posts of the row to its endpoint. */
  datatype Delivery = Delivery(status: DeliveryStatus, attemptCount: nat, nextRetryAt: int, posts: seq<Post>)

  const MAX_PASS: nat := 10

  /** The row after a post. The delay and the verdict use the count before the increment. */
  function AfterPost(d: Delivery, p: Post): Delivery {
    if p.success then
      d.(status := Delivered, attemptCount := d.attemptCount + 1, posts := d.posts + [p])
    else
      Delivery(if d.attemptCount >= 4 then Abandoned else Waiting,
               d.attemptCount + 1,
               p.writtenAt + MINUTE_MS * Pow2(d.attemptCount),
               d.posts + [p])
  }

  predicate Due(d: Delivery, now: int) { d.status.Waiting? && d.nextRetryAt <= now }

  /** The selection of a pass at `now`: at most ten due rows, all of them if they are
      fewer, in any order. */
  ghost predicate Selection(rows: seq<Delivery>, now: int, sel: seq<nat>) {
    && |sel| <= 10
    && (forall j :: 0 <= j < |sel| ==>
          sel[j] < |rows| && rows[sel[j]].status.Waiting? && rows[sel[j]].nextRetryAt <= now)
    && (forall i, j :: 0 <= i < j < |sel| ==> sel[i] != sel[j])
    && (|sel| < 10 ==>
          forall k :: 0 <= k < |rows| && rows[k].status.Waiting? && rows[k].nextRetryAt <= now ==> k in sel)
  }

  /** Posts happen after the selection, and rows are updated after their post. */
  predicate Timely(posts: seq<Post>, now: int) {
    forall j :: 0 <= j < |posts| ==> now <= posts[j].sentAt <= posts[j].writtenAt
  }

  /** The table after the selected rows have been posted one after the other. */
  function AfterPass(rows: seq<Delivery>, sel: seq<nat>, posts: seq<Post>): (rows': seq<Delivery>)
    requires |sel| == |posts| && forall j :: 0 <= j < |sel| ==> sel[j] < |rows|
    ensures |rows'| == |rows|
  {
    if sel == [] then rows
    else
      var n := |sel| - 1;
      var before := AfterPass(rows, sel[..n], posts[..n]);
      before[sel[n] := AfterPost(before[sel[n]], posts[n])]
  }

  function NewRow(now: int): Delivery { Delivery(Waiting, 0, now, []) }

  function AfterDispatch(rows: seq<Delivery>, endpoints: nat, now: int): seq<Delivery> {
    rows + seq(endpoints, _ => NewRow(now))
  }

  // ----- one row -----

  predicate AllFailed(posts: seq<Post>) {
    forall j :: 0 <= j < |posts| ==> !posts[j].success
  }

  /** Only the last post succeeded. */
  predicate EndsInSuccess(posts: seq<Post>) {
    posts != [] && posts[|posts| - 1].success && AllFailed(posts[..|posts| - 1])
  }

  /** The status, the count and the next time tell the posts so far, and the posts keep the
      delays. */
  ghost predicate RowOk(d: Delivery) {
    && |d.posts| == d.attemptCount <= 5
    && (d.status.Waiting? <==> |d.posts| <= 4 && AllFailed(d.posts))
    && (d.status.Abandoned? <==> |d.posts| == 5 && AllFailed(d.posts))
    && (d.status.Delivered? <==> EndsInSuccess(d.posts))
    && (forall j :: 0 <= j < |d.posts| ==> d.posts[j].sentAt <= d.posts[j].writtenAt)
    && (forall j: nat :: j + 1 < |d.posts| ==>
          d.posts[j + 1].sentAt >= d.posts[j].writtenAt + MINUTE_MS * Pow2(j))
    && (d.status.Waiting? && d.posts != [] ==>
          d.nextRetryAt == d.posts[|d.posts| - 1].writtenAt + MINUTE_MS * Pow2(|d.posts| - 1))
  }

  lemma PostKeepsRow(d: Delivery, p: Post, now: int)
    requires RowOk(d) && Due(d, now) && now <= p.sentAt <= p.writtenAt
    ensures RowOk(AfterPost(d, p))
  {
    var e := AfterPost(d, p);
    assert e.posts[..|d.posts|] == d.posts;
    assert AllFailed(e.posts) <==> !p.success by { assert e.posts[|d.posts|] == p; }
    forall j: nat | j + 1 < |e.posts| ensures e.posts[j + 1].sentAt >= e.posts[j].writtenAt + MINUTE_MS * Pow2(j) {
      if j + 1 < |d.posts| { assert d.posts[j + 1].sentAt >= d.posts[j].writtenAt + MINUTE_MS * Pow2(j); }
    }
  }

  lemma FirstPowers()
    ensures Pow2(0) == 1 && Pow2(1) == 2 && Pow2(2) == 4 && Pow2(3) == 8
  {
    assert Pow2(1) == 2;
  }

  /** Five failed posts span at least fifteen minutes. */
  lemma AbandonedSpan(d: Delivery)
    requires RowOk(d) && d.status.Abandoned?
    ensures d.posts[4].sentAt - d.posts[0].writtenAt >= 15 * 60_000
  {
    FirstPowers();
    assert d.posts[0 + 1].sentAt >= d.posts[0].writtenAt + MINUTE_MS * Pow2(0);
    assert d.posts[1 + 1].sentAt >= d.posts[1].writtenAt + MINUTE_MS * Pow2(1);
    assert d.posts[2 + 1].sentAt >= d.posts[2].writtenAt + MINUTE_MS * Pow2(2);
    assert d.posts[3 + 1].sentAt >= d.posts[3].writtenAt + MINUTE_MS * Pow2(3);
  }

  // ----- the table -----

  ghost predicate TableOk(rows: seq<Delivery>) { forall k :: 0 <= k < |rows| ==> RowOk(rows[k]) }

  /** Posts that a row can still cause. */
  function Left(d: Delivery): int { if d.status.Waiting? then 5 - d.attemptCount else 0 }

  function TotalLeft(rows: seq<Delivery>): int {
    if rows == [] then 0 else TotalLeft(rows[..|rows| - 1]) + Left(rows[|rows| - 1])
  }

  function TotalPosts(rows: seq<Delivery>): int {
    if rows == [] then 0 else TotalPosts(rows[..|rows| - 1]) + |rows[|rows| - 1].posts|
  }

  lemma {:induction false} TotalsAfterUpdate(rows: seq<Delivery>, k: nat, d: Delivery)
    requires k < |rows|
    ensures TotalLeft(rows[k := d]) == TotalLeft(rows) - Left(rows[k]) + Left(d)
    ensures TotalPosts(rows[k := d]) == TotalPosts(rows) - |rows[k].posts| + |d.posts|
  {
    var n := |rows| - 1;
    if k == n {
      assert rows[k := d][..n] == rows[..n];
    } else {
      TotalsAfterUpdate(rows[..n], k, d);
      assert rows[k := d][..n] == rows[..n][k := d];
    }
  }

  lemma {:induction false} TotalsAfterDispatch(rows: seq<Delivery>, endpoints: nat, now: int)
    ensures TotalLeft(AfterDispatch(rows, endpoints, now)) == TotalLeft(rows) + 5 * endpoints
    ensures TotalPosts(AfterDispatch(rows, endpoints, now)) == TotalPosts(rows)
  {
    var all := AfterDispatch(rows, endpoints, now);
    if endpoints == 0 {
      assert all == rows;
    } else {
      TotalsAfterDispatch(rows, endpoints - 1, now);
      assert all[..|all| - 1] == AfterDispatch(rows, endpoints - 1, now);
    }
  }

  lemma PassExtends(rows: seq<Delivery>, sel: seq<nat>, posts: seq<Post>, k: nat, p: Post)
    requires |sel| == |posts| && (forall j :: 0 <= j < |sel| ==> sel[j] < |rows|) && k < |rows|
    ensures AfterPass(rows, sel + [k], posts + [p]) ==
            AfterPass(rows, sel, posts)[k := AfterPost(AfterPass(rows, sel, posts)[k], p)]
  {
    assert (sel + [k])[..|sel|] == sel && (posts + [p])[..|sel|] == posts;
  }

  /** Rows that a pass has not reached are as they were. */
  lemma {:induction false} UnselectedSame(rows: seq<Delivery>, sel: seq<nat>, posts: seq<Post>, k: nat)
    requires |sel| == |posts| && forall j :: 0 <= j < |sel| ==> sel[j] < |rows|
    requires k < |rows| && k !in sel
    ensures AfterPass(rows, sel, posts)[k] == rows[k]
  {
    if sel != [] { UnselectedSame(rows, sel[..|sel| - 1], posts[..|sel| - 1], k); }
  }

  /** One post of a due row keeps the table in order, and uses up one of the posts left. */
  lemma PostProgress(rows: seq<Delivery>, now: int, k: nat, p: Post)
    requires TableOk(rows) && k < |rows| && Due(rows[k], now) && now <= p.sentAt <= p.writtenAt
    ensures var after := rows[k := AfterPost(rows[k], p)];
            && TableOk(after)
            && TotalLeft(after) + 1 <= TotalLeft(rows)
            && TotalPosts(after) == TotalPosts(rows) + 1
  {
    PostKeepsRow(rows[k], p, now);
    TotalsAfterUpdate(rows, k, AfterPost(rows[k], p));
  }

  /** A pass without database errors keeps every row in order, makes one post per selected
      row, and lowers the number of posts left by at least as much. */
  lemma {:induction false} PassProgress(rows: seq<Delivery>, now: int, sel: seq<nat>, posts: seq<Post>)
    requires TableOk(rows) && |sel| == |posts| && Timely(posts, now)
    requires forall j :: 0 <= j < |sel| ==> sel[j] < |rows| && Due(rows[sel[j]], now)
    requires forall i, j :: 0 <= i < j < |sel| ==> sel[i] != sel[j]
    ensures var after := AfterPass(rows, sel, posts);
            && TableOk(after)
            && TotalLeft(after) + |sel| <= TotalLeft(rows)
            && TotalPosts(after) == TotalPosts(rows) + |sel|
  {
    if sel != [] {
      var n := |sel| - 1;
      PassProgress(rows, now, sel[..n], posts[..n]);
      var before := AfterPass(rows, sel[..n], posts[..n]);
      UnselectedSame(rows, sel[..n], posts[..n], sel[n]);
      PostProgress(before, now, sel[n], posts[n]);
    }
  }

  lemma {:induction false} TableBound(rows: seq<Delivery>)
    requires TableOk(rows)
    ensures 0 <= TotalLeft(rows) && TotalPosts(rows) + TotalLeft(rows) <= 5 * |rows|
  {
    if rows != [] {
      var n := |rows| - 1;
      assert TableOk(rows[..n]);
      TableBound(rows[..n]);
      assert RowOk(rows[n]);
    }
  }

  // ----- runs -----

  datatype Event =
    | Dispatch(endpoints: nat, at: int)
    | Pass(at: int, sel: seq<nat>, posts: seq<Post>)

  function After(events: seq<Event>): seq<Delivery> {
    if events == [] then []
    else
      var rows := After(events[..|events| - 1]);
      match events[|events| - 1]
      case Dispatch(endpoints, at) => AfterDispatch(rows, endpoints, at)
      case Pass(_, sel, posts) =>
        if |sel| == |posts| && forall j :: 0 <= j < |sel| ==> sel[j] < |rows| then AfterPass(rows, sel, posts)
        else rows
  }

  /** Every pass selects what its query returns and posts it without database errors. */
  ghost predicate Proper(events: seq<Event>) {
    events != [] ==>
      && Proper(events[..|events| - 1])
      && match events[|events| - 1]
         case Dispatch(_, _) => true
         case Pass(at, sel, posts) =>
           Selection(After(events[..|events| - 1]), at, sel) && |posts| == |sel| && Timely(posts, at)
  }

  function PostsMade(events: seq<Event>): int {
    if events == [] then 0
    else PostsMade(events[..|events| - 1])
         + (match events[|events| - 1] case Dispatch(_, _) => 0 case Pass(_, sel, _) => |sel|)
  }

  lemma DispatchKeepsTable(rows: seq<Delivery>, endpoints: nat, now: int)
    requires TableOk(rows)
    ensures TableOk(AfterDispatch(rows, endpoints, now))
  {
    assert RowOk(NewRow(now));
  }

  lemma {:induction false} RunOk(events: seq<Event>)
    requires Proper(events)
    ensures TableOk(After(events)) && TotalPosts(After(events)) == PostsMade(events)
  {
    if events != [] {
      var past := events[..|events| - 1];
      RunOk(past);
      match events[|events| - 1]
      case Dispatch(endpoints, at) =>
        TotalsAfterDispatch(After(past), endpoints, at);
        DispatchKeepsTable(After(past), endpoints, at);
      case Pass(at, sel, posts) => PassProgress(After(past), at, sel, posts);
    }
  }

  /** In every run N deliveries cause at most 5N posts. */
  lemma AtMostFivePostsEach(events: seq<Event>)
    requires Proper(events)
    ensures PostsMade(events) <= 5 * |After(events)|
  {
    RunOk(events);
    TableBound(After(events));
  }

  // ----- the posts that a row really got -----

  /** The posts of a pass that went to row k. */
  function PostsIn(sel: seq<nat>, posts: seq<Post>, k: nat): seq<Post>
    requires |sel| == |posts|
  {
    if sel == [] then []
    else
      var n := |sel| - 1;
      PostsIn(sel[..n], posts[..n], k) + (if sel[n] == k then [posts[n]] else [])
  }

  /** All posts of a run that went to row k. */
  function PostsTo(events: seq<Event>, k: nat): seq<Post> {
    if events == [] then []
    else
      PostsTo(events[..|events| - 1], k)
      + match events[|events| - 1]
        case Dispatch(_, _) => []
        case Pass(_, sel, posts) => if |sel| == |posts| then PostsIn(sel, posts, k) else []
  }

  lemma {:induction false} PassPosts(rows: seq<Delivery>, sel: seq<nat>, posts: seq<Post>, k: nat)
    requires |sel| == |posts| && (forall j :: 0 <= j < |sel| ==> sel[j] < |rows|) && k < |rows|
    ensures AfterPass(rows, sel, posts)[k].posts == rows[k].posts + PostsIn(sel, posts, k)
  {
    if sel != [] {
      var n := |sel| - 1;
      PassPosts(rows, sel[..n], posts[..n], k);
    }
  }

  lemma {:induction false} NoPostsBeyond(rows: nat, sel: seq<nat>, posts: seq<Post>, k: nat)
    requires |sel| == |posts| && (forall j :: 0 <= j < |sel| ==> sel[j] < rows) && rows <= k
    ensures PostsIn(sel, posts, k) == []
  {
    if sel != [] { NoPostsBeyond(rows, sel[..|sel| - 1], posts[..|sel| - 1], k); }
  }

  /** The post history of a row is what the passes sent to it. */
  lemma {:induction false} HistoryIsPosts(events: seq<Event>, k: nat)
    requires Proper(events)
    ensures k < |After(events)| ==> After(events)[k].posts == PostsTo(events, k)
    ensures k >= |After(events)| ==> PostsTo(events, k) == []
  {
    if events != [] {
      var past := events[..|events| - 1];
      HistoryIsPosts(past, k);
      match events[|events| - 1]
      case Dispatch(_, _) =>
      case Pass(_, sel, posts) =>
        if k < |After(past)| { PassPosts(After(past), sel, posts, k); } else { NoPostsBeyond(|After(past)|, sel, posts, k); }
    }
  }

  /** When row k was created. */
  function CreatedAt(events: seq<Event>, k: nat): int {
    if events == [] then 0
    else match events[|events| - 1]
      case Dispatch(_, at) =>
        if k < |After(events[..|events| - 1])| then CreatedAt(events[..|events| - 1], k) else at
      case Pass(_, _, _) => CreatedAt(events[..|events| - 1], k)
  }

  /** A row that nobody posted yet has been due since it was created. */
  lemma {:induction false} DueFromCreation(events: seq<Event>, k: nat)
    requires Proper(events) && k < |After(events)| && PostsTo(events, k) == []
    ensures After(events)[k].nextRetryAt == CreatedAt(events, k)
  {
    var past := events[..|events| - 1];
    match events[|events| - 1]
    case Dispatch(_, _) =>
      if k < |After(past)| { DueFromCreation(past, k); }
    case Pass(_, sel, posts) =>
      DueFromCreation(past, k);
      NotSelected(sel, posts, k);
      UnselectedSame(After(past), sel, posts, k);
  }

  lemma {:induction false} NotSelected(sel: seq<nat>, posts: seq<Post>, k: nat)
    requires |sel| == |posts| && PostsIn(sel, posts, k) == []
    ensures k !in sel
  {
    if sel != [] { NotSelected(sel[..|sel| - 1], posts[..|sel| - 1], k); }
  }

  /** In every run a row is delivered if and only if its last post succeeded and those before
      it failed, given up if and only if five posts failed, and waiting if and only if at most
      four were made and failed; a waiting row is due from its creation, or 1, 2, 4 or 8
      minutes after the write of its first, second, third or fourth failed post; and five
      failures took at least fifteen minutes. */
  lemma RowsInEveryRun(events: seq<Event>, k: nat)
    requires Proper(events) && k < |After(events)|
    ensures var d, posts := After(events)[k], PostsTo(events, k);
            && d.attemptCount == |posts| <= 5
            && (d.status.Delivered? <==>
                  posts != [] && posts[|posts| - 1].success
                  && forall j :: 0 <= j < |posts| - 1 ==> !posts[j].success)
            && (d.status.Abandoned? <==> |posts| == 5 && forall j :: 0 <= j < |posts| ==> !posts[j].success)
            && (d.status.Waiting? <==> |posts| <= 4 && forall j :: 0 <= j < |posts| ==> !posts[j].success)
            && (d.status.Waiting? ==>
                  d.nextRetryAt == if posts == [] then CreatedAt(events, k)
                                   else posts[|posts| - 1].writtenAt + 60_000 * [1, 2, 4, 8][|posts| - 1])
            && (d.status.Abandoned? ==> posts[4].sentAt - posts[0].writtenAt >= 15 * 60_000)
  {
    RunOk(events);
    HistoryIsPosts(events, k);
    var d := After(events)[k];
    assert RowOk(d);
    FirstPowers();
    if d.posts == [] { DueFromCreation(events, k); }
    if d.status.Abandoned? { AbandonedSpan(d); }
    EndsInSuccessMeans(d.posts);
  }

  lemma EndsInSuccessMeans(posts: seq<Post>)
    ensures EndsInSuccess(posts) <==>
              posts != [] && posts[|posts| - 1].success
              && forall j :: 0 <= j < |posts| - 1 ==> !posts[j].success
  {
    if posts != [] {
      var before := posts[..|posts| - 1];
      forall j | 0 <= j < |posts| - 1 ensures before[j] == posts[j] { }
    }
  }

  // ----- the program -----

  class Outbox {
    var rows: seq<Delivery>

    constructor ()
      ensures rows == []
    {
      rows := [];
    }

    /** One row for each active endpoint. */
    method Dispatch(endpoints: nat, now: int)
      modifies this
      ensures rows == AfterDispatch(old(rows), endpoints, now)
    {
      for k := 0 to endpoints
        invariant rows == AfterDispatch(old(rows), k, now)
      {
        rows := rows + [NewRow(now)];
      }
    }

    /** Record the outcome of one post. */
    method Deliver(id: nat, p: Post)
      requires id < |rows|
      modifies this
      ensures rows == old(rows)[id := AfterPost(old(rows)[id], p)]
      ensures rows[id].status == if p.success then Delivered
                                 else if old(rows)[id].attemptCount < 4 then Waiting else Abandoned
    {
      var d := rows[id];
      if p.success {
        rows := rows[id := d.(status := Delivered, attemptCount := d.attemptCount + 1, posts := d.posts + [p])];
      } else {
        var status := if d.attemptCount >= 4 then Abandoned else Waiting;
        rows := rows[id := Delivery(status, d.attemptCount + 1,
                                    p.writtenAt + MINUTE_MS * Pow2(d.attemptCount), d.posts + [p])];
      }
    }

    /** The query of a pass: due rows, at most ten. */
    method SelectDue(now: int) returns (sel: seq<nat>)
      ensures Selection(rows, now, sel)
    {
      sel := [];
      for k := 0 to |rows|
        invariant |sel| <= MAX_PASS
        invariant forall j :: 0 <= j < |sel| ==> sel[j] < k && Due(rows[sel[j]], now)
        invariant forall i, j :: 0 <= i < j < |sel| ==> sel[i] != sel[j]
        invariant |sel| < MAX_PASS ==> forall i :: 0 <= i < k && Due(rows[i], now) ==> i in sel
      {
        if |sel| < MAX_PASS && Due(rows[k], now) { sel := sel + [k]; }
      }
    }

    /** One pass of the worker. The i-th selected row is posted with outcome `reply(i)`. */
    method ProcessPending(now: int, reply: nat -> Post) returns (sel: seq<nat>, posts: seq<Post>)
      requires TableOk(rows)
      requires forall i: nat :: now <= reply(i).sentAt <= reply(i).writtenAt
      modifies this
      ensures Selection(old(rows), now, sel) && |posts| == |sel| && Timely(posts, now)
      ensures rows == AfterPass(old(rows), sel, posts)
      ensures TableOk(rows)
      ensures TotalLeft(rows) + |sel| <= TotalLeft(old(rows))
    {
      sel := SelectDue(now);
      posts := PostAll(sel, now, reply);
      PassProgress(old(rows), now, sel, posts);
    }

    /** Deliver the selected rows one after the other. */
    method PostAll(sel: seq<nat>, now: int, reply: nat -> Post) returns (posts: seq<Post>)
      requires forall j :: 0 <= j < |sel| ==> sel[j] < |rows|
      requires forall i: nat :: now <= reply(i).sentAt <= reply(i).writtenAt
      modifies this
      ensures |posts| == |sel| && Timely(posts, now)
      ensures rows == AfterPass(old(rows), sel, posts)
    {
      posts := [];
      ghost var done: seq<nat> := [];
      for i := 0 to |sel|
        invariant |posts| == i && Timely(posts, now)
        invariant done == sel[..i]
        invariant rows == AfterPass(old(rows), done, posts)
      {
        var p := reply(i);
        PassExtends(old(rows), done, posts, sel[i], p);
        Deliver(sel[i], p);
        done := done + [sel[i]];
        posts := posts + [p];
      }
      assert done == sel;
    }
  }
}
