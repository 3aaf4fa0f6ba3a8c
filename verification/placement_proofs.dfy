/** Properties of the placement endpoints of app/marketplace.py: the shared
    loop against its closed-form reference, the commit point of each
    variant, the summaries they report, and the schema invariant they keep. */
module PlacementProofs {
  import opened Models
  import opened Results
  import opened Schemas
  import opened Marketplace

  lemma {:induction false} TotalConcat(a: seq<OrderBase>, b: seq<OrderBase>)
    ensures Total(a + b) == Total(a) + Total(b)
    decreases |a|
  {
    if |a| == 0 {
      assert a + b == b;
    } else {
      TotalConcat(a[1..], b);
      assert (a + b)[1..] == a[1..] + b;
    }
  }

  /** Two consecutive batches are one batch of the concatenated lines. */
  lemma BatchConcat(start: Id, uid: Id, a: seq<OrderBase>, b: seq<OrderBase>, now: Timestamp)
    ensures Batch(start, uid, a, now) + Batch(start + |a|, uid, b, now) == Batch(start, uid, a + b, now)
  {
  }

  /** A batch of `n` lines takes exactly `n` fresh ids. */
  lemma {:induction false} BatchSize(start: Id, uid: Id, lines: seq<OrderBase>, now: Timestamp)
    ensures |Batch(start, uid, lines, now).Keys| == |lines|
    decreases |lines|
  {
    if |lines| == 0 {
      assert Batch(start, uid, lines, now).Keys == {};
    } else {
      var init := lines[..|lines| - 1];
      var last := [lines[|lines| - 1]];
      assert init + last == lines;
      BatchConcat(start, uid, init, last, now);
      BatchSize(start, uid, init, now);
      var m1 := Batch(start, uid, init, now);
      var m2 := Batch(start + |init|, uid, last, now);
      assert m2.Keys == {start + |init|};
      assert (m1 + m2).Keys == m1.Keys + m2.Keys;
    }
  }

  /** Staging no line leaves the store as it is. */
  lemma AppendedNothing(s: Store, uid: Id, now: Timestamp)
    requires uid in s.users
    ensures Appended(s, uid, [], now) == s
  {
  }

  /** Staging `a` and then `b` is staging `a + b`. */
  lemma AppendedCompose(s: Store, uid: Id, a: seq<OrderBase>, b: seq<OrderBase>, now: Timestamp)
    requires uid in s.users
    ensures uid in Appended(s, uid, a, now).users
    ensures Appended(Appended(s, uid, a, now), uid, b, now) == Appended(s, uid, a + b, now)
  {
    TotalConcat(a, b);
    BatchConcat(s.nextId, uid, a, b, now);
    var s1 := Appended(s, uid, a, now);
    assert (s.orders + Batch(s.nextId, uid, a, now)) + Batch(s1.nextId, uid, b, now)
        == s.orders + (Batch(s.nextId, uid, a, now) + Batch(s.nextId + |a|, uid, b, now));
  }

  /** Dropping the first line shifts the rejection test by one line and
      the starting balance by that line's amount. */
  lemma RejectsShift(balance: int, lines: seq<OrderBase>, j: nat)
    requires j + 1 < |lines|
    ensures Rejects(balance - lines[0].amount, lines[1..], j) <==> Rejects(balance, lines, j + 1)
  {
    assert lines[1..][j] == lines[j + 1];
    assert lines[..j + 2][1..] == lines[1..][..j + 1];
  }

  /** The loop against its reference: it stages exactly the lines before
      the first rejected one, in input order, and stops with that line's
      error; with no rejected line it stages them all. */
  lemma {:induction false} PlaceLinesSpec(s: Store, uid: Id, lines: seq<OrderBase>, now: Timestamp)
    requires uid in s.users
    ensures var w := PlaceLines(s, uid, lines, now);
      var b := s.users[uid].balance;
      && w.staged == Appended(s, uid, lines[..w.done], now)
      && (forall j :: 0 <= j < w.done ==> !Rejects(b, lines, j))
      && (w.done < |lines| ==> Rejects(b, lines, w.done) && w.failure == Some(LineError(lines[w.done])))
    decreases |lines|
  {
    var b := s.users[uid].balance;
    var w := PlaceLines(s, uid, lines, now);
    if |lines| == 0 || lines[0].amount <= 0 {
      AppendedNothing(s, uid, now);
      assert lines[..0] == [];
    } else {
      assert lines[..1] == [lines[0]];
      assert Total(lines[..1]) == lines[0].amount;
      match StageLine(s, uid, lines[0], now)
      case Err(e) =>
        AppendedNothing(s, uid, now);
        assert lines[..0] == [];
      case Ok(s1) =>
        PlaceLinesSpec(s1, uid, lines[1..], now);
        var w1 := PlaceLines(s1, uid, lines[1..], now);
        assert w.done == w1.done + 1;
        assert s1.users[uid].balance == b - lines[0].amount;
        AppendedCompose(s, uid, [lines[0]], lines[1..][..w1.done], now);
        assert [lines[0]] + lines[1..][..w1.done] == lines[..w.done];
        forall j | 0 <= j < w.done
          ensures !Rejects(b, lines, j)
        {
          if j > 0 {
            RejectsShift(b, lines, j - 1);
          }
        }
        if w.done < |lines| {
          RejectsShift(b, lines, w1.done);
          assert lines[1..][w1.done] == lines[w.done];
        }
    }
  }

  /** When line `k` is the first rejected one, the loop stops at it. */
  lemma StopsAtFirstRejected(s: Store, uid: Id, lines: seq<OrderBase>, now: Timestamp, k: nat)
    requires uid in s.users
    requires FirstRejected(s.users[uid].balance, lines, k)
    ensures PlaceLines(s, uid, lines, now).done == k
  {
    PlaceLinesSpec(s, uid, lines, now);
  }

  /** The loop finishes without error exactly when every line is accepted. */
  lemma CompletesIffAllAccepted(s: Store, uid: Id, lines: seq<OrderBase>, now: Timestamp)
    requires uid in s.users
    ensures PlaceLines(s, uid, lines, now).failure.None? <==> AllAccepted(s.users[uid].balance, lines)
    ensures AllAccepted(s.users[uid].balance, lines) ==>
      PlaceLines(s, uid, lines, now).staged == Appended(s, uid, lines, now)
  {
    PlaceLinesSpec(s, uid, lines, now);
    assert lines[..|lines|] == lines;
  }

  /** v1 commits line by line: a fully accepted batch is all staged, and a
      batch rejected at line `k` keeps the `k` lines before it, debits
      included, while reporting that line's error. */
  lemma PlaceOrderV1Outcome(s: Store, req: PlacementRequest, now: Timestamp)
    requires req.userId in s.users
    ensures var r := PlaceOrderV1(s, req, now);
      var b := s.users[req.userId].balance;
      && (r.result.Ok? <==> AllAccepted(b, req.orders))
      && (r.result.Ok? ==> r.after == Appended(s, req.userId, req.orders, now))
      && (forall k: nat :: FirstRejected(b, req.orders, k) ==>
            && r.result == Err(LineError(req.orders[k]))
            && r.after == Appended(s, req.userId, req.orders[..k], now))
  {
    PlaceLinesSpec(s, req.userId, req.orders, now);
    CompletesIffAllAccepted(s, req.userId, req.orders, now);
    forall k | FirstRejected(s.users[req.userId].balance, req.orders, k)
      ensures PlaceLines(s, req.userId, req.orders, now).done == k
    {
      StopsAtFirstRejected(s, req.userId, req.orders, now, k);
    }
  }

  /** The single commit of v2 to v5: a fully accepted batch is all staged,
      and a batch rejected at line `k` reports that line's error and leaves
      the store exactly as it was. */
  lemma CommitAtEndOutcome(s: Store, uid: Id, lines: seq<OrderBase>, now: Timestamp, read: SummaryRead)
    requires uid in s.users
    ensures var r := CommitAtEnd(s, uid, lines, now, read);
      var b := s.users[uid].balance;
      && (r.result.Ok? <==> AllAccepted(b, lines))
      && (r.result.Ok? ==> r.after == Appended(s, uid, lines, now))
      && (forall k: nat :: FirstRejected(b, lines, k) ==> r == Step(Err(LineError(lines[k])), s))
  {
    PlaceLinesSpec(s, uid, lines, now);
    CompletesIffAllAccepted(s, uid, lines, now);
    forall k | FirstRejected(s.users[uid].balance, lines, k)
      ensures PlaceLines(s, uid, lines, now).done == k
    {
      StopsAtFirstRejected(s, uid, lines, now, k);
    }
  }

  /** v2 (and, by the same loop, v3 and v4) is all-or-nothing. */
  lemma PlaceOrderV2Outcome(s: Store, req: PlacementRequest, now: Timestamp)
    requires req.userId in s.users
    ensures var b := s.users[req.userId].balance;
      forall r :: r in {PlaceOrderV2(s, req, now), PlaceOrderV3(s, req, now), PlaceOrderV4(s, req, now)} ==>
        && (r.result.Ok? <==> AllAccepted(b, req.orders))
        && (r.result.Ok? ==> r.after == Appended(s, req.userId, req.orders, now))
        && (forall k: nat :: FirstRejected(b, req.orders, k) ==> r == Step(Err(LineError(req.orders[k])), s))
  {
    CommitAtEndOutcome(s, req.userId, req.orders, now, Refresh);
    CommitAtEndOutcome(s, req.userId, req.orders, now, QueryAsWritten);
  }

  /** v5 past its `balance > 0` filter is all-or-nothing too; the filter is
      applied once, so later lines may take the balance to zero or below. */
  lemma PlaceOrderV5Outcome(s: Store, req: PlacementRequest, now: Timestamp)
    requires req.userId in s.users && s.users[req.userId].balance > 0
    ensures var r := PlaceOrderV5(s, req, now);
      var b := s.users[req.userId].balance;
      && (r.result.Ok? <==> AllAccepted(b, req.orders))
      && (r.result.Ok? ==> r.after == Appended(s, req.userId, req.orders, now))
      && (forall k: nat :: FirstRejected(b, req.orders, k) ==> r == Step(Err(LineError(req.orders[k])), s))
  {
    CommitAtEndOutcome(s, req.userId, req.orders, now, QueryAsWritten);
  }

  /** What a staged batch does to the users: `uid`'s balance goes down by
      the total of the amounts, with no floor, and nothing else changes. */
  lemma BatchUsers(s: Store, uid: Id, lines: seq<OrderBase>, now: Timestamp)
    requires uid in s.users
    ensures var t := Appended(s, uid, lines, now);
      && t.users.Keys == s.users.Keys
      && t.users[uid] == s.users[uid].(balance := s.users[uid].balance - Total(lines))
      && (forall u :: u in s.users && u != uid ==> t.users[u] == s.users[u])
  {
  }

  /** What a staged batch does to the orders of a valid store: existing
      orders stay as they are, and line `i` becomes a new order under a
      fresh id, owned by `uid` and carrying the line's amount. */
  lemma BatchOrders(s: Store, uid: Id, lines: seq<OrderBase>, now: Timestamp)
    requires Valid(s) && uid in s.users
    ensures var t := Appended(s, uid, lines, now);
      && (forall o :: o in s.orders ==> o in t.orders && t.orders[o] == s.orders[o])
      && (forall i :: 0 <= i < |lines| ==>
            && s.nextId + i !in s.orders
            && s.nextId + i in t.orders
            && t.orders[s.nextId + i] == Order(lines[i].amount, uid, now))
  {
    var t := Appended(s, uid, lines, now);
    assert s.orders.Keys !! Batch(s.nextId, uid, lines, now).Keys;
    forall i | 0 <= i < |lines|
      ensures t.orders[s.nextId + i] == Order(lines[i].amount, uid, now)
    {
      assert AmountFor(lines, s.nextId, s.nextId + i) == lines[i].amount;
    }
  }

  /** A staged batch of a valid store adds exactly `|lines|` orders, all of
      them to `uid`'s `user_orders`; every other user's list is unchanged. */
  lemma BatchCounts(s: Store, uid: Id, lines: seq<OrderBase>, now: Timestamp)
    requires Valid(s) && uid in s.users
    ensures var t := Appended(s, uid, lines, now);
      && |t.orders| == |s.orders| + |lines|
      && |OrdersOf(t, uid)| == |OrdersOf(s, uid)| + |lines|
      && (forall u :: u != uid ==> OrdersOf(t, u) == OrdersOf(s, u))
  {
    var t := Appended(s, uid, lines, now);
    var batch := Batch(s.nextId, uid, lines, now);
    BatchSize(s.nextId, uid, lines, now);
    assert s.orders.Keys !! batch.Keys;
    assert t.orders.Keys == s.orders.Keys + batch.Keys;
    assert OrdersOf(t, uid) == OrdersOf(s, uid) + batch.Keys;
    assert OrdersOf(s, uid) !! batch.Keys;
  }

  /** A staged prefix of accepted lines keeps the store valid: amounts and
      the debited balance fit the int4 columns, and every new order's
      owner exists. */
  lemma AppendedValid(s: Store, uid: Id, lines: seq<OrderBase>, n: nat, now: Timestamp)
    requires Valid(s) && uid in s.users && n <= |lines|
    requires forall j :: 0 <= j < n ==> !Rejects(s.users[uid].balance, lines, j)
    ensures Valid(Appended(s, uid, lines[..n], now))
  {
    var prefix := lines[..n];
    var t := Appended(s, uid, prefix, now);
    if n > 0 {
      assert !Rejects(s.users[uid].balance, lines, n - 1);
    } else {
      assert Total(prefix) == 0;
    }
    forall id | id in Batch(s.nextId, uid, prefix, now)
      ensures IsInt4(t.orders[id].amount)
    {
      assert !Rejects(s.users[uid].balance, lines, id - s.nextId);
    }
  }

  /** Every placement variant keeps the schema invariant, whether it
      succeeds, fails after committing a prefix, or fails outright. */
  lemma PlacementPreservesValid(s: Store, req: PlacementRequest, now: Timestamp)
    requires Valid(s)
    ensures Valid(PlaceOrderV1(s, req, now).after)
    ensures Valid(PlaceOrderV2(s, req, now).after)
    ensures Valid(PlaceOrderV3(s, req, now).after)
    ensures Valid(PlaceOrderV4(s, req, now).after)
    ensures Valid(PlaceOrderV5(s, req, now).after)
  {
    if req.userId in s.users {
      var uid := req.userId;
      PlaceLinesSpec(s, uid, req.orders, now);
      var w := PlaceLines(s, uid, req.orders, now);
      AppendedValid(s, uid, req.orders, w.done, now);
    }
  }

  /** The summary read from a store with an accepted batch staged, in terms
      of the store before the batch. */
  lemma SummaryOfAppended(s: Store, uid: Id, lines: seq<OrderBase>, now: Timestamp, read: SummaryRead)
    requires Valid(s) && uid in s.users
    ensures var count := |OrdersOf(s, uid)| + |lines|;
      var balance := s.users[uid].balance - Total(lines);
      var t := Appended(s, uid, lines, now);
      && uid in t.users
      && Summarize(read, t, uid) == match read
           case Refresh => PlacementResponse(count, balance)
           case QueryAsWritten => PlacementResponse(balance, count)
           case QueryCorrected => PlacementResponse(count, balance)
  {
    BatchCounts(s, uid, lines, now);
  }

  /** A fully accepted batch commits and reports the summary of the store
      it commits. */
  lemma CommitAtEndSuccess(s: Store, uid: Id, lines: seq<OrderBase>, now: Timestamp, read: SummaryRead)
    requires uid in s.users && AllAccepted(s.users[uid].balance, lines)
    ensures var t := Appended(s, uid, lines, now);
      uid in t.users && CommitAtEnd(s, uid, lines, now, read) == Step(Ok(Summarize(read, t, uid)), t)
  {
    CommitAtEndOutcome(s, uid, lines, now, read);
  }

  /** The summary a successful placement reports, in terms of the store
      before the call: v1 and v2 put the order count in `total_orders` and
      the balance in `available_balance`; v3, v4 and v5 put them the other
      way round. */
  lemma SummaryOnSuccess(s: Store, req: PlacementRequest, now: Timestamp)
    requires Valid(s) && req.userId in s.users
    requires AllAccepted(s.users[req.userId].balance, req.orders)
    ensures var count := |OrdersOf(s, req.userId)| + |req.orders|;
      var balance := s.users[req.userId].balance - Total(req.orders);
      && PlaceOrderV1(s, req, now).result == Ok(PlacementResponse(count, balance))
      && PlaceOrderV2(s, req, now).result == Ok(PlacementResponse(count, balance))
      && PlaceOrderV3(s, req, now).result == Ok(PlacementResponse(balance, count))
      && PlaceOrderV4(s, req, now).result == Ok(PlacementResponse(balance, count))
      && (s.users[req.userId].balance > 0 ==>
            PlaceOrderV5(s, req, now).result == Ok(PlacementResponse(balance, count)))
  {
    var uid := req.userId;
    PlaceOrderV1Outcome(s, req, now);
    SummaryOfAppended(s, uid, req.orders, now, Refresh);
    SummaryOfAppended(s, uid, req.orders, now, QueryAsWritten);
    CommitAtEndSuccess(s, uid, req.orders, now, Refresh);
    CommitAtEndSuccess(s, uid, req.orders, now, QueryAsWritten);
  }

  /** The corrected reading of the v3 query reports what v1 and v2 report. */
  lemma CorrectedSummaryOnSuccess(s: Store, req: PlacementRequest, now: Timestamp)
    requires Valid(s) && req.userId in s.users
    requires AllAccepted(s.users[req.userId].balance, req.orders)
    ensures PlaceOrderV3Corrected(s, req, now).result
         == Ok(PlacementResponse(|OrdersOf(s, req.userId)| + |req.orders|,
                                 s.users[req.userId].balance - Total(req.orders)))
    ensures PlaceOrderV3Corrected(s, req, now) == PlaceOrderV2(s, req, now)
  {
    var uid := req.userId;
    SummaryOfAppended(s, uid, req.orders, now, Refresh);
    SummaryOfAppended(s, uid, req.orders, now, QueryCorrected);
    CommitAtEndSuccess(s, uid, req.orders, now, Refresh);
    CommitAtEndSuccess(s, uid, req.orders, now, QueryCorrected);
  }

  /** An empty batch changes nothing, in every variant. */
  lemma EmptyBatchIsNoop(s: Store, uid: Id, now: Timestamp)
    requires uid in s.users
    ensures var req := PlacementRequest(uid, []);
      && PlaceOrderV1(s, req, now) == Step(Ok(Summarize(Refresh, s, uid)), s)
      && PlaceOrderV2(s, req, now) == Step(Ok(Summarize(Refresh, s, uid)), s)
      && PlaceOrderV3(s, req, now).after == s
      && PlaceOrderV4(s, req, now).after == s
      && PlaceOrderV5(s, req, now).after == s
  {
  }
}
