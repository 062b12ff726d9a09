/** What every call on requisitions asks of its caller and its payload, and exactly what it leaves in the tables. */
module RequisitionCalls {
  import opened Sums
  import opened Money
  import opened Tables
  import opened Requisitions
  import opened RequisitionRules
  import opened Validity
  import ChainLaws
  import CountRules
  import Inventory
  import LedgerRules
  import OrderRules
  import ReceiptRules

  // ---------------------------------------------------------------------------------------------
  // The payload alone
  // ---------------------------------------------------------------------------------------------

  // The last request that names line l: it is the one whose values the line is left with.
  function Latest(reqs: seq<LineRequest>, l: nat): (r: Option<LineRequest>)
    ensures r.Some? ==> exists k :: 0 <= k < |reqs| && reqs[k] == r.value && reqs[k].id == Some(l)
                                   && forall j :: k < j < |reqs| ==> reqs[j].id != Some(l)
    ensures r.None? ==> forall k :: 0 <= k < |reqs| ==> reqs[k].id != Some(l)
  {
    if reqs == [] then None
    else if reqs[|reqs| - 1].id == Some(l) then Some(reqs[|reqs| - 1])
    else Latest(reqs[..|reqs| - 1], l)
  }

  function WithoutId(): LineRequest -> bool {
    (r: LineRequest) => r.id.None?
  }

  // The requests for new lines, in payload order.
  function NewOnes(reqs: seq<LineRequest>): seq<LineRequest> {
    Select(reqs, WithoutId())
  }

  function Named(reqs: seq<LineRequest>): nat -> bool {
    (l: nat) => Latest(reqs, l).Some?
  }

  function From(next: nat, count: nat): (r: seq<nat>)
    ensures |r| == count && forall j :: 0 <= j < count ==> r[j] == next + j
  {
    seq(count, j requires 0 <= j < count => next + j)
  }

  // The line a request asks for, its amount rounded by the server.
  function Asked(p: nat, req: LineRequest, converted: int): PrLine {
    PrLine(p, req.material, req.requested, converted, req.price, LineAmount(req.requested, req.price))
  }

  predicate Positive(req: LineRequest) {
    req.requested > 0 && req.price >= 0
  }

  // ---------------------------------------------------------------------------------------------
  // Syncing the payload, request by request
  // ---------------------------------------------------------------------------------------------

  predicate RequestOk(m: Master, existing: seq<nat>, req: LineRequest) {
    (req.id.Some? ==> req.id.value in existing) && IsActive(m.materials, req.material)
  }

  // Why a single request is refused.
  predicate Refusal(m: Master, existing: seq<nat>, req: LineRequest, e: ErrorCode) {
    if (req.id.Some? && req.id.value !in existing) || req.material !in m.materials then e == PrItemNotFound
    else !m.materials[req.material] && e == MasterDataDisabled
  }

  // The first request that is refused decides the error.
  predicate FirstRefusal(m: Master, existing: seq<nat>, reqs: seq<LineRequest>, e: ErrorCode) {
    exists k :: 0 <= k < |reqs| && Refusal(m, existing, reqs[k], e) && forall j :: 0 <= j < k ==>
      RequestOk(m, existing, reqs[j])
  }

  lemma {:induction false} SyncKeepsExisting(m: Master, p: nat, existing: seq<nat>, st: Synced, reqs: seq<LineRequest>)
    requires forall i :: i in existing ==> i in st.lines
    requires SyncLines(m, p, existing, st, reqs).Ok?
    ensures forall i :: i in existing ==> i in SyncLines(m, p, existing, st, reqs).value.lines
    decreases |reqs|
  {
    if reqs != [] { SyncKeepsExisting(m, p, existing, SyncLine(m, p, existing, st, reqs[0]).value, reqs[1..]); }
  }

  lemma {:induction false} SyncSnoc(m: Master, p: nat, existing: seq<nat>, st: Synced, reqs: seq<LineRequest>,
          req: LineRequest)
    requires forall i :: i in existing ==> i in st.lines
    ensures SyncLines(m, p, existing, st, reqs).Ok? ==>
      forall i :: i in existing ==> i in SyncLines(m, p, existing, st, reqs).value.lines
    ensures SyncLines(m, p, existing, st, reqs + [req])
      == match SyncLines(m, p, existing, st, reqs)
         case Ok(now) => SyncLine(m, p, existing, now, req)
         case Err(e) => Err(e)
    decreases |reqs|
  {
    if reqs == [] {
      assert ([] + [req])[1..] == [] && ([] + [req])[0] == req;
    } else {
      assert (reqs + [req])[0] == reqs[0] && (reqs + [req])[1..] == reqs[1..] + [req];
      var next := SyncLine(m, p, existing, st, reqs[0]);
      if next.Ok? { SyncSnoc(m, p, existing, next.value, reqs[1..], req); }
    }
  }

  // Line l of the requisition after the payload: what its last request asks for, its conversion as it was.
  predicate LineSynced(was: map<nat, PrLine>, existing: seq<nat>, reqs: seq<LineRequest>, lines: map<nat, PrLine>,
          l: nat)
    requires l in was
  {
    && l in lines
    && match Latest(reqs, l)
       case Some(r) => lines[l] == if l !in existing then was[l]
                                   else was[l].(material := r.material, requested := r.requested, price := r.price)
       case None => lines[l] == was[l]
  }

  predicate NewSynced(p: nat, next: nat, reqs: seq<LineRequest>, lines: map<nat, PrLine>, j: nat)
    requires j < |NewOnes(reqs)|
  {
    next + j in lines && lines[next + j] == Asked(p, NewOnes(reqs)[j], 0).(amount := 0)
  }

  ghost predicate SyncedAs(was: map<nat, PrLine>, next: nat, p: nat, existing: seq<nat>, reqs: seq<LineRequest>,
          st: Synced) {
    && st.next == next + |NewOnes(reqs)| && st.added == From(next, |NewOnes(reqs)|)
    && (forall l: nat :: l in st.seen <==> Latest(reqs, l).Some?)
    && (forall l :: l in st.lines ==> l in was || next <= l < st.next)
    && (forall l :: l in was ==> LineSynced(was, existing, reqs, st.lines, l))
    && (forall j :: 0 <= j < |NewOnes(reqs)| ==> NewSynced(p, next, reqs, st.lines, j))
  }

  lemma {:induction false} LatestSnoc(reqs: seq<LineRequest>, req: LineRequest, l: nat)
    ensures Latest(reqs + [req], l) == if req.id == Some(l) then Some(req) else Latest(reqs, l)
    ensures NewOnes(reqs + [req]) == NewOnes(reqs) + if req.id.None? then [req] else []
  {
    assert (reqs + [req])[..|reqs|] == reqs;
  }

  // What one request does.
  lemma {:induction false} SyncLineDoes(m: Master, p: nat, existing: seq<nat>, st: Synced, req: LineRequest)
    requires (forall i :: i in existing ==> i in st.lines) && SyncLine(m, p, existing, st, req).Ok?
    ensures var st2 := SyncLine(m, p, existing, st, req).value;
      if req.id.Some? then
        && req.id.value in existing && st2.next == st.next && st2.added == st.added
        && st2.seen == st.seen + {req.id.value}
        && st2.lines == st.lines[req.id.value := st.lines[req.id.value].(material := req.material,
                                                     requested := req.requested, price := req.price)]
      else
        && st2.next == st.next + 1 && st2.added == st.added + [st.next] && st2.seen == st.seen
        && st2.lines == st.lines[st.next := Asked(p, req, 0).(amount := 0)]
  {
  }

  lemma {:induction false} LineStaysSynced(was: map<nat, PrLine>, existing: seq<nat>, reqs: seq<LineRequest>,
          lines: map<nat, PrLine>, lines2: map<nat, PrLine>, req: LineRequest, l: nat)
    requires l in was && LineSynced(was, existing, reqs, lines, l) && l in lines2
    requires if req.id == Some(l)
      then l in existing && lines2[l] == lines[l].(material := req.material, requested := req.requested,
                                                   price := req.price)
      else lines2[l] == lines[l]
    ensures LineSynced(was, existing, reqs + [req], lines2, l)
  {
    LatestSnoc(reqs, req, l);
  }

  lemma {:induction false} NewStaysSynced(p: nat, next: nat, reqs: seq<LineRequest>, lines: map<nat, PrLine>,
          lines2: map<nat, PrLine>, req: LineRequest, j: nat)
    requires j < |NewOnes(reqs + [req])| && next + j in lines2
    requires j < |NewOnes(reqs)| ==> NewSynced(p, next, reqs, lines, j) && lines2[next + j] == lines[next + j]
    requires j == |NewOnes(reqs)| ==> lines2[next + j] == Asked(p, req, 0).(amount := 0)
    ensures NewSynced(p, next, reqs + [req], lines2, j)
  {
    LatestSnoc(reqs, req, 0);
  }

  lemma {:induction false} LinesStaySynced(m: Master, was: map<nat, PrLine>, next: nat, p: nat, existing: seq<nat>,
          reqs: seq<LineRequest>, st: Synced, req: LineRequest)
    requires forall l :: l in was ==> l < next
    requires SyncedAs(was, next, p, existing, reqs, st) && forall i :: i in existing ==> i in st.lines
    requires SyncLine(m, p, existing, st, req).Ok?
    ensures forall l :: l in was ==>
      LineSynced(was, existing, reqs + [req], SyncLine(m, p, existing, st, req).value.lines, l)
  {
    hide Latest, NewOnes, SyncLine, NewSynced;
    var st2 := SyncLine(m, p, existing, st, req).value;
    SyncLineDoes(m, p, existing, st, req);
    forall l | l in was ensures LineSynced(was, existing, reqs + [req], st2.lines, l) {
      assert LineSynced(was, existing, reqs, st.lines, l);
      LineStaysSynced(was, existing, reqs, st.lines, st2.lines, req, l);
    }
  }

  lemma {:induction false} NewsStaySynced(m: Master, was: map<nat, PrLine>, next: nat, p: nat, existing: seq<nat>,
          reqs: seq<LineRequest>, st: Synced, req: LineRequest)
    requires forall i :: i in existing ==> i in was
    requires forall l :: l in was ==> l < next
    requires SyncedAs(was, next, p, existing, reqs, st) && forall i :: i in existing ==> i in st.lines
    requires SyncLine(m, p, existing, st, req).Ok?
    ensures forall j :: 0 <= j < |NewOnes(reqs + [req])| ==>
      NewSynced(p, next, reqs + [req], SyncLine(m, p, existing, st, req).value.lines, j)
  {
    hide Latest, NewOnes, SyncLine, LineSynced;
    var st2 := SyncLine(m, p, existing, st, req).value;
    SyncLineDoes(m, p, existing, st, req);
    LatestSnoc(reqs, req, 0);
    forall j | 0 <= j < |NewOnes(reqs + [req])| ensures NewSynced(p, next, reqs + [req], st2.lines, j) {
      if j < |NewOnes(reqs)| { assert NewSynced(p, next, reqs, st.lines, j); }
      NewStaysSynced(p, next, reqs, st.lines, st2.lines, req, j);
    }
  }

  lemma {:induction false} SyncOneMore(m: Master, was: map<nat, PrLine>, next: nat, p: nat, existing: seq<nat>,
          reqs: seq<LineRequest>, st: Synced, req: LineRequest)
    requires forall i :: i in existing ==> i in was
    requires forall l :: l in was ==> l < next
    requires SyncedAs(was, next, p, existing, reqs, st) && forall i :: i in existing ==> i in st.lines
    requires SyncLine(m, p, existing, st, req).Ok?
    ensures SyncedAs(was, next, p, existing, reqs + [req], SyncLine(m, p, existing, st, req).value)
  {
    hide Latest, NewOnes, SyncLine, LineSynced, NewSynced;
    SyncLineDoes(m, p, existing, st, req);
    LinesStaySynced(m, was, next, p, existing, reqs, st, req);
    NewsStaySynced(m, was, next, p, existing, reqs, st, req);
    forall l: nat
      ensures Latest(reqs + [req], l) == if req.id == Some(l) then Some(req) else Latest(reqs, l)
    {
      LatestSnoc(reqs, req, l);
    }
    LatestSnoc(reqs, req, 0);
  }

  // The payload is synced exactly when every request is in order by itself.
  lemma {:induction false} SyncedIs(m: Master, was: map<nat, PrLine>, next: nat, p: nat, existing: seq<nat>,
          reqs: seq<LineRequest>)
    requires forall i :: i in existing ==> i in was
    requires forall l :: l in was ==> l < next
    ensures var r := SyncLines(m, p, existing, Synced(was, next, [], {}), reqs);
      && (r.Ok? <==> forall k :: 0 <= k < |reqs| ==> RequestOk(m, existing, reqs[k]))
      && (r.Ok? ==> SyncedAs(was, next, p, existing, reqs, r.value))
      && (r.Err? ==> FirstRefusal(m, existing, reqs, r.error))
    decreases |reqs|
  {
    var start := Synced(was, next, [], {});
    if reqs != [] {
      var n := |reqs| - 1;
      var init, req := reqs[..n], reqs[n];
      assert reqs == init + [req];
      SyncedIs(m, was, next, p, existing, init);
      SyncSnoc(m, p, existing, start, init, req);
      hide SyncLines, SyncLine, SyncedAs, RequestOk, Refusal;
      var r := SyncLines(m, p, existing, start, init);
      if r.Ok? {
        SyncLineIff(m, p, existing, r.value, req);
        if SyncLine(m, p, existing, r.value, req).Ok? {
          SyncOneMore(m, was, next, p, existing, init, r.value, req);
        } else {
          LastRefused(m, existing, init, req, SyncLine(m, p, existing, r.value, req).error);
        }
      } else {
        EarlierRefused(m, existing, init, req, r.error);
      }
    }
  }

  lemma {:induction false} SyncLineIff(m: Master, p: nat, existing: seq<nat>, st: Synced, req: LineRequest)
    requires forall i :: i in existing ==> i in st.lines
    ensures SyncLine(m, p, existing, st, req).Ok? <==> RequestOk(m, existing, req)
    ensures SyncLine(m, p, existing, st, req).Err? ==>
      Refusal(m, existing, req, SyncLine(m, p, existing, st, req).error)
  {
  }

  lemma {:induction false} LastRefused(m: Master, existing: seq<nat>, init: seq<LineRequest>, req: LineRequest,
          e: ErrorCode)
    requires (forall k :: 0 <= k < |init| ==> RequestOk(m, existing, init[k])) && Refusal(m, existing, req, e)
    ensures FirstRefusal(m, existing, init + [req], e)
  {
    hide RequestOk, Refusal;
    var reqs := init + [req];
    assert Refusal(m, existing, reqs[|init|], e);
    forall j | 0 <= j < |init| ensures RequestOk(m, existing, reqs[j]) { assert reqs[j] == init[j]; }
  }

  lemma {:induction false} EarlierRefused(m: Master, existing: seq<nat>, init: seq<LineRequest>, req: LineRequest,
          e: ErrorCode)
    requires FirstRefusal(m, existing, init, e)
    ensures FirstRefusal(m, existing, init + [req], e)
    ensures !forall k :: 0 <= k < |init| ==> RequestOk(m, existing, init[k])
  {
    var reqs := init + [req];
    var k :| 0 <= k < |init| && Refusal(m, existing, init[k], e) && forall j :: 0 <= j < k ==>
      RequestOk(m, existing, init[j]);
    assert !RequestOk(m, existing, init[k]);
    hide RequestOk, Refusal;
    assert Refusal(m, existing, reqs[k], e);
    forall j | 0 <= j < k ensures RequestOk(m, existing, reqs[j]) { assert reqs[j] == init[j]; }
  }

  // ---------------------------------------------------------------------------------------------
  // Replacing the lines of a requisition
  // ---------------------------------------------------------------------------------------------

  // Every line the payload leaves is positive: of a line named twice only the last request counts.
  predicate AllPositive(existing: seq<nat>, reqs: seq<LineRequest>) {
    && (forall l :: l in existing && Latest(reqs, l).Some? ==> Positive(Latest(reqs, l).value))
    && (forall j :: 0 <= j < |NewOnes(reqs)| ==> Positive(NewOnes(reqs)[j]))
  }

  predicate LineReplaced(was: map<nat, PrLine>, p: nat, existing: seq<nat>, reqs: seq<LineRequest>,
          lines: map<nat, PrLine>, l: nat)
    requires l in was
  {
    if l !in existing then l in lines && lines[l] == was[l]
    else match Latest(reqs, l)
         case Some(r) => l in lines && lines[l] == Asked(p, r, was[l].converted)
         case None => l !in lines
  }

  predicate NewAdded(p: nat, next: nat, reqs: seq<LineRequest>, lines: map<nat, PrLine>, j: nat)
    requires j < |NewOnes(reqs)|
  {
    next + j in lines && lines[next + j] == Asked(p, NewOnes(reqs)[j], 0)
  }

  // What a payload leaves of requisition p: lines of others stay, its named lines are what their last requests ask for
  // and keep their conversion, its other lines are gone, and the requests without id are new lines in payload order.
  ghost predicate Replaced(was: map<nat, PrLine>, next: nat, p: nat, existing: seq<nat>, reqs: seq<LineRequest>,
          e: Edit) {
    && e.next == next + |NewOnes(reqs)|
    && e.items == Select(existing, Named(reqs)) + From(next, |NewOnes(reqs)|)
    && (forall l :: l in e.lines ==> l in was || next <= l < e.next)
    && (forall l :: l in was ==> LineReplaced(was, p, existing, reqs, e.lines, l))
    && (forall j :: 0 <= j < |NewOnes(reqs)| ==> NewAdded(p, next, reqs, e.lines, j))
    && e.total == Sum(e.items, AmountIn(e.lines))
  }

  lemma {:induction false} ItemsAre(was: map<nat, PrLine>, next: nat, p: nat, existing: seq<nat>,
          reqs: seq<LineRequest>, st: Synced)
    requires SyncedAs(was, next, p, existing, reqs, st)
    ensures ItemsAfter(existing, st) == Select(existing, Named(reqs)) + From(next, |NewOnes(reqs)|)
    ensures forall l :: l in ItemsAfter(existing, st) <==>
      (l in existing && Latest(reqs, l).Some?) || next <= l < next + |NewOnes(reqs)|
  {
    SelectAlike<nat>(existing, Among(st.seen), Named(reqs));
    var added := From(next, |NewOnes(reqs)|);
    forall l: nat | next <= l < next + |added| ensures l in added { assert added[l - next] == l; }
  }

  lemma {:induction false} SyncedSells(was: map<nat, PrLine>, next: nat, p: nat, existing: seq<nat>,
          reqs: seq<LineRequest>, st: Synced)
    requires forall i :: i in existing ==> i in was
    requires forall l :: l in was ==> l < next
    requires SyncedAs(was, next, p, existing, reqs, st)
    requires forall l :: l in ItemsAfter(existing, st) <==>
      (l in existing && Latest(reqs, l).Some?) || next <= l < next + |NewOnes(reqs)|
    ensures forall l :: l in ItemsAfter(existing, st) ==> l in st.lines
    ensures (forall l :: l in ItemsAfter(existing, st) ==> Sellable(st.lines[l])) <==> AllPositive(existing, reqs)
  {
    hide NewOnes, Latest, ItemsAfter;
    var items := ItemsAfter(existing, st);
    forall l | l in items ensures l in st.lines {
      if l in was { assert LineSynced(was, existing, reqs, st.lines, l); }
      else { assert NewSynced(p, next, reqs, st.lines, l - next); }
    }
    forall l | l in existing && Latest(reqs, l).Some?
      ensures l in items && (Sellable(st.lines[l]) <==> Positive(Latest(reqs, l).value))
    {
      assert LineSynced(was, existing, reqs, st.lines, l);
    }
    forall j | 0 <= j < |NewOnes(reqs)|
      ensures next + j in items && (Sellable(st.lines[next + j]) <==> Positive(NewOnes(reqs)[j]))
    {
      assert NewSynced(p, next, reqs, st.lines, j);
    }
    if AllPositive(existing, reqs) {
      forall l | l in items ensures Sellable(st.lines[l]) {
        if !(l in existing && Latest(reqs, l).Some?) { assert Positive(NewOnes(reqs)[l - next]); }
      }
    }
  }

  lemma {:induction false} SyncedReplaces(was: map<nat, PrLine>, next: nat, p: nat, existing: seq<nat>,
          reqs: seq<LineRequest>, st: Synced, e: Edit)
    requires forall i :: i in existing ==> i in was && was[i].pr == p
    requires forall l :: l in was ==> l < next
    requires SyncedAs(was, next, p, existing, reqs, st)
    requires forall l :: l in e.items <==>
      (l in existing && Latest(reqs, l).Some?) || next <= l < next + |NewOnes(reqs)|
    requires e.lines == Repriced(LinesAfter(existing, st), e.items)
    ensures forall l :: l in e.lines ==> l in was || next <= l < st.next
    ensures forall l :: l in was ==> LineReplaced(was, p, existing, reqs, e.lines, l)
    ensures forall j :: 0 <= j < |NewOnes(reqs)| ==> NewAdded(p, next, reqs, e.lines, j)
  {
    hide NewOnes, Latest, LineAmount;
    forall l | l in was ensures LineReplaced(was, p, existing, reqs, e.lines, l) {
      assert LineSynced(was, existing, reqs, st.lines, l);
    }
    forall j | 0 <= j < |NewOnes(reqs)| ensures NewAdded(p, next, reqs, e.lines, j) {
      assert NewSynced(p, next, reqs, st.lines, j);
      assert next + j !in existing;
    }
  }

  // Why an edit is refused: for its first request not in order, or else for a line that is not positive.
  ghost predicate EditRefusal(m: Master, existing: seq<nat>, reqs: seq<LineRequest>, e: ErrorCode) {
    if forall k :: 0 <= k < |reqs| ==> RequestOk(m, existing, reqs[k])
    then e == ValidationError && !AllPositive(existing, reqs)
    else FirstRefusal(m, existing, reqs, e)
  }

  lemma {:induction false} RefusalCodes(m: Master, existing: seq<nat>, reqs: seq<LineRequest>, e: ErrorCode)
    requires EditRefusal(m, existing, reqs, e)
    ensures e in {PrItemNotFound, MasterDataDisabled, ValidationError}
  {
  }

  lemma {:induction false} RecomputedIff(existing: seq<nat>, st: Synced, items: seq<nat>)
    requires forall l :: l in items ==> l in st.lines && l in LinesAfter(existing, st)
    ensures var r := Recomputed(LinesAfter(existing, st), items);
      && (r.Ok? <==> forall l :: l in items ==> Sellable(st.lines[l]))
      && (r.Err? ==> r.error == ValidationError)
  {
  }

  lemma {:induction false} EditedUnfolds(m: Master, was: map<nat, PrLine>, next: nat, p: nat, existing: seq<nat>,
          reqs: seq<LineRequest>, st: Synced)
    requires forall i :: i in existing ==> i in was
    requires forall l :: l in was ==> l < next
    requires SyncLines(m, p, existing, Synced(was, next, [], {}), reqs) == Ok(st)
    ensures forall l :: l in ItemsAfter(existing, st) ==> l in LinesAfter(existing, st)
    ensures Edited(m, was, next, p, existing, reqs)
      == match Recomputed(LinesAfter(existing, st), ItemsAfter(existing, st))
         case Ok(r) => Ok(Edit(r.0, ItemsAfter(existing, st), st.next, r.1))
         case Err(e) => Err(e)
  {
    hide SyncLines, Recomputed;
    var start := Synced(was, next, [], {});
    SyncLinesProgress(m, p, existing, start, start, reqs);
    SyncedItems(p, existing, start, st);
  }

  lemma {:induction false} EditedLines(existing: seq<nat>, st: Synced)
    requires forall l :: l in ItemsAfter(existing, st) ==> l in LinesAfter(existing, st)
    requires Recomputed(LinesAfter(existing, st), ItemsAfter(existing, st)).Ok?
    ensures Recomputed(LinesAfter(existing, st), ItemsAfter(existing, st)).value.0
         == Repriced(LinesAfter(existing, st), ItemsAfter(existing, st))
  {
  }

  lemma {:induction false} RecomputedEdit(m: Master, was: map<nat, PrLine>, next: nat, p: nat, existing: seq<nat>,
          reqs: seq<LineRequest>, st: Synced)
    requires forall i :: i in existing ==> i in was && was[i].pr == p
    requires forall l :: l in was ==> l < next
    requires SyncLines(m, p, existing, Synced(was, next, [], {}), reqs) == Ok(st)
    requires SyncedAs(was, next, p, existing, reqs, st)
    ensures var r := Edited(m, was, next, p, existing, reqs);
      && (r.Ok? <==> AllPositive(existing, reqs))
      && (r.Ok? ==> Replaced(was, next, p, existing, reqs, r.value))
      && (r.Err? ==> r.error == ValidationError)
  {
    hide AllPositive, SyncLines, LineReplaced, NewAdded, LineSynced, NewSynced, Latest, NewOnes, Repriced, Recomputed,
         ItemsAfter, LinesAfter, Edited;
    EditedUnfolds(m, was, next, p, existing, reqs, st);
    ItemsAre(was, next, p, existing, reqs, st);
    SyncedSells(was, next, p, existing, reqs, st);
    RecomputedIff(existing, st, ItemsAfter(existing, st));
    if AllPositive(existing, reqs) {
      var e := Edited(m, was, next, p, existing, reqs).value;
      EditedLines(existing, st);
      SyncedReplaces(was, next, p, existing, reqs, st, e);
      RecomputedTotal(LinesAfter(existing, st), e.items);
    }
  }

  // An edit succeeds exactly when every request is in order by itself and every line it leaves is positive, and then
  // leaves exactly what the payload says; the first request not in order decides the error.
  lemma {:induction false} EditedIs(m: Master, was: map<nat, PrLine>, next: nat, p: nat, existing: seq<nat>,
          reqs: seq<LineRequest>)
    requires forall i :: i in existing ==> i in was && was[i].pr == p
    requires forall l :: l in was ==> l < next
    ensures var r := Edited(m, was, next, p, existing, reqs);
      && (r.Ok? <==> (forall k :: 0 <= k < |reqs| ==> RequestOk(m, existing, reqs[k])) && AllPositive(existing, reqs))
      && (r.Ok? ==> Replaced(was, next, p, existing, reqs, r.value))
      && (r.Err? ==> EditRefusal(m, existing, reqs, r.error))
  {
    hide RequestOk, AllPositive, FirstRefusal, SyncLines, SyncedAs, Replaced, Recomputed, ItemsAfter, LinesAfter;
    SyncedIs(m, was, next, p, existing, reqs);
    var synced := SyncLines(m, p, existing, Synced(was, next, [], {}), reqs);
    if synced.Ok? { RecomputedEdit(m, was, next, p, existing, reqs, synced.value); }
  }

  // ---------------------------------------------------------------------------------------------
  // create_pr and update_pr
  // ---------------------------------------------------------------------------------------------

  lemma {:induction false} AsNewNamesNothing(reqs: seq<LineRequest>)
    ensures NewOnes(AsNew(reqs)) == AsNew(reqs)
    ensures forall l :: Latest(AsNew(reqs), l).None?
  {
    SelectAll(AsNew(reqs), WithoutId());
  }

  predicate LineAdded(was: map<nat, PrLine>, next: nat, p: nat, reqs: seq<LineRequest>, lines: map<nat, PrLine>, k: nat)
    requires k < |reqs|
  {
    next + k in lines && lines[next + k] == Asked(p, reqs[k], 0)
  }

  // One new line for each request, in payload order; every other line stays.
  ghost predicate Added(was: map<nat, PrLine>, next: nat, p: nat, reqs: seq<LineRequest>, lines: map<nat, PrLine>) {
    && (forall l :: l in lines ==> l in was || next <= l < next + |reqs|)
    && (forall l :: l in was ==> l in lines && lines[l] == was[l])
    && (forall k :: 0 <= k < |reqs| ==> LineAdded(was, next, p, reqs, lines, k))
  }

  lemma {:induction false} ReplacedNothing(was: map<nat, PrLine>, next: nat, p: nat, reqs: seq<LineRequest>, e: Edit)
    requires Replaced(was, next, p, [], AsNew(reqs), e)
    ensures Added(was, next, p, reqs, e.lines) && e.next == next + |reqs| && e.items == From(next, |reqs|)
    ensures e.total == Sum(e.items, AmountIn(e.lines))
  {
    AsNewNamesNothing(reqs);
    var none: seq<nat> := [];
    assert Select(none, Named(AsNew(reqs))) == [];
    forall l | l in was ensures l in e.lines && e.lines[l] == was[l] {
      assert LineReplaced(was, p, [], AsNew(reqs), e.lines, l);
    }
    forall k | 0 <= k < |reqs| ensures LineAdded(was, next, p, reqs, e.lines, k) {
      assert NewAdded(p, next, AsNew(reqs), e.lines, k);
    }
  }

  predicate Belongs(user: User, m: Master) {
    user.department.Some? && IsActive(m.departments, user.department.value)
  }

  predicate Orderable(m: Master, req: LineRequest) {
    IsActive(m.materials, req.material) && Positive(req)
  }

  lemma {:induction false} AllNewOrderable(m: Master, reqs: seq<LineRequest>)
    ensures (forall k :: 0 <= k < |reqs| ==> RequestOk(m, [], AsNew(reqs)[k])) && AllPositive([], AsNew(reqs))
       <==> forall k :: 0 <= k < |reqs| ==> Orderable(m, reqs[k])
  {
    AsNewNamesNothing(reqs);
    if (forall k :: 0 <= k < |reqs| ==> RequestOk(m, [], AsNew(reqs)[k])) && AllPositive([], AsNew(reqs)) {
      forall k | 0 <= k < |reqs| ensures Orderable(m, reqs[k]) {
        assert RequestOk(m, [], AsNew(reqs)[k]) && Positive(NewOnes(AsNew(reqs))[k]);
      }
    }
    if forall k :: 0 <= k < |reqs| ==> Orderable(m, reqs[k]) {
      forall k | 0 <= k < |reqs| ensures RequestOk(m, [], AsNew(reqs)[k]) && Positive(AsNew(reqs)[k]) {
        assert Orderable(m, reqs[k]);
      }
    }
  }

  // create_pr succeeds exactly for a user of an active department who asks for positive quantities of active materials
  // at prices that are not negative, and adds a draft of one line for each request.
  lemma {:induction false} CreatedPrIs(db: Db, user: User, m: Master, reqs: seq<LineRequest>)
    requires RequisitionKeys(db.prs, db.prLines, db.nextPrLine)
    ensures var r, p, n := CreatedPr(db, user, m, reqs), |db.prs|, |reqs|;
      && (r.Ok? <==> Belongs(user, m) && forall k :: 0 <= k < n ==> Orderable(m, reqs[k]))
      && (r.Ok? ==>
            var after := r.value;
            && |after.prs| == p + 1 && after.prs[..p] == db.prs
            && after.prs[p] == Pr(user.id, user.department.value, PrDraft, From(db.nextPrLine, n),
                                  Sum(From(db.nextPrLine, n), AmountIn(after.prLines)), 1)
            && Added(db.prLines, db.nextPrLine, p, reqs, after.prLines)
            && after == db.(prs := after.prs, prLines := after.prLines, nextPrLine := db.nextPrLine + n,
                            audit := db.audit + [Audit(PrCreated, p)]))
      && (r.Err? ==> if Belongs(user, m) then EditRefusal(m, [], AsNew(reqs), r.error) else r.error == ValidationError)
  {
    hide RequestOk, AllPositive, Added, Orderable, EditRefusal, Edited, Replaced;
    EditedIs(m, db.prLines, db.nextPrLine, |db.prs|, [], AsNew(reqs));
    AllNewOrderable(m, reqs);
    var e := Edited(m, db.prLines, db.nextPrLine, |db.prs|, [], AsNew(reqs));
    if e.Ok? { ReplacedNothing(db.prLines, db.nextPrLine, |db.prs|, reqs, e.value); }
  }

  predicate Manages(user: User, pr: Pr) {
    user.isAdmin || user.id == pr.applicant
  }

  // update_pr succeeds exactly on a draft at the given version, for its applicant or an administrator, with a payload
  // in order; it replaces the lines by what the payload says, and changes no other requisition.
  lemma {:induction false} UpdatedPrIs(db: Db, user: User, m: Master, p: nat, version: nat, reqs: seq<LineRequest>)
    requires RequisitionKeys(db.prs, db.prLines, db.nextPrLine)
    ensures var r := UpdatedPr(db, user, m, p, version, reqs);
      && (r.Ok? <==>
            && p < |db.prs| && Manages(user, db.prs[p]) && db.prs[p].status == PrDraft && db.prs[p].version == version
            && (forall k :: 0 <= k < |reqs| ==> RequestOk(m, db.prs[p].items, reqs[k]))
            && AllPositive(db.prs[p].items, reqs))
      && (r.Ok? ==>
            var after := r.value;
            && |after.prs| == |db.prs|
            && var now := after.prs[p];
               && Replaced(db.prLines, db.nextPrLine, p, db.prs[p].items, reqs,
                           Edit(after.prLines, now.items, after.nextPrLine, now.total))
               && after == db.(prs := db.prs[p := db.prs[p].(items := now.items, total := now.total,
                                                             version := version + 1)],
                               prLines := after.prLines, nextPrLine := after.nextPrLine,
                               audit := db.audit + [Audit(PrUpdated, p)]))
      && (r.Err? ==> match r.error
            case PrNotFound => p >= |db.prs|
            case PrNotApplicant => p < |db.prs| && !Manages(user, db.prs[p])
            case PrNotEditable => p < |db.prs| && Manages(user, db.prs[p]) && db.prs[p].status != PrDraft
            case Conflict =>
              p < |db.prs| && Manages(user, db.prs[p]) && db.prs[p].status == PrDraft && db.prs[p].version != version
            case e =>
              && p < |db.prs| && Manages(user, db.prs[p]) && db.prs[p].status == PrDraft
              && db.prs[p].version == version && EditRefusal(m, db.prs[p].items, reqs, e))
  {
    hide RequestOk, AllPositive, EditRefusal, Edited, Replaced;
    if p < |db.prs| {
      var items := db.prs[p].items;
      EditedIs(m, db.prLines, db.nextPrLine, p, items, reqs);
      forall e | EditRefusal(m, items, reqs, e) ensures e in {PrItemNotFound, MasterDataDisabled, ValidationError} {
        RefusalCodes(m, items, reqs, e);
      }
    }
  }

  // ---------------------------------------------------------------------------------------------
  // The workflow
  // ---------------------------------------------------------------------------------------------

  predicate ActiveLine(m: Master, lines: map<nat, PrLine>, i: nat) {
    i in lines && IsActive(m.materials, lines[i].material)
  }

  predicate AllActive(m: Master, lines: map<nat, PrLine>, items: seq<nat>) {
    forall k :: 0 <= k < |items| ==> ActiveLine(m, lines, items[k])
  }

  // The first line whose material is missing or disabled decides the error.
  predicate FirstInactive(m: Master, lines: map<nat, PrLine>, items: seq<nat>, e: ErrorCode) {
    exists k :: 0 <= k < |items| && items[k] in lines && !ActiveLine(m, lines, items[k])
      && e == (if lines[items[k]].material in m.materials then MasterDataDisabled else PrItemNotFound)
      && forall j :: 0 <= j < k ==> ActiveLine(m, lines, items[j])
  }

  lemma {:induction false} InactiveLater(m: Master, lines: map<nat, PrLine>, items: seq<nat>, e: ErrorCode)
    requires items != [] && ActiveLine(m, lines, items[0]) && FirstInactive(m, lines, items[1..], e)
    ensures FirstInactive(m, lines, items, e)
  {
    var rest := items[1..];
    var k :| 0 <= k < |rest| && rest[k] in lines && !ActiveLine(m, lines, rest[k])
      && e == (if lines[rest[k]].material in m.materials then MasterDataDisabled else PrItemNotFound)
      && forall j :: 0 <= j < k ==> ActiveLine(m, lines, rest[j]);
    assert items[k + 1] == rest[k];
    forall j | 0 <= j < k + 1 ensures ActiveLine(m, lines, items[j]) {
      if j > 0 { assert items[j] == rest[j - 1]; }
    }
  }

  lemma {:induction false} MaterialsOkIs(m: Master, lines: map<nat, PrLine>, items: seq<nat>)
    requires forall i :: i in items ==> i in lines
    ensures MaterialsOk(m, lines, items).Ok? <==> AllActive(m, lines, items)
    ensures MaterialsOk(m, lines, items).Err? ==> FirstInactive(m, lines, items, MaterialsOk(m, lines, items).error)
  {
    if items != [] {
      MaterialsOkIs(m, lines, items[1..]);
      if MaterialOk(m, lines[items[0]].material).Ok? {
        forall k | 0 < k < |items| ensures items[k] == items[1..][k - 1] {}
        if MaterialsOk(m, lines, items).Err? {
          InactiveLater(m, lines, items, MaterialsOk(m, lines, items).error);
        }
      }
    }
  }

  // The approver's second look finds what the first one does: stored lines stay positive.
  lemma {:induction false} LinesStillOkIs(m: Master, lines: map<nat, PrLine>, items: seq<nat>)
    requires forall i :: i in items ==> i in lines && Sellable(lines[i])
    ensures LinesStillOk(m, lines, items) == MaterialsOk(m, lines, items)
  {
    if items != [] { LinesStillOkIs(m, lines, items[1..]); }
  }

  lemma {:induction false} StoredItems(db: Db, p: nat)
    requires Valid(db) && p < |db.prs|
    ensures forall i :: i in db.prs[p].items ==> i in db.prLines && Sellable(db.prLines[i])
    ensures Recomputed(db.prLines, db.prs[p].items) == Ok((db.prLines, db.prs[p].total))
  {
    hide OrderRules.OrdersOk, ReceiptRules.ReceiptsFit, Inventory.StockOk, LedgerRules.ImageFits, CountRules.CountsFit;
    RecomputeIsStable(db.prs, db.prLines, db.nextPrLine, p);
    forall i | i in db.prs[p].items ensures i in db.prLines && Sellable(db.prLines[i]) {
      assert HeaderFits(db.prs, db.prLines, p) && LineFits(db.prLines[i]);
    }
  }

  // In every reachable state submit_pr succeeds exactly on a draft with lines, all of active materials, for its
  // applicant or an administrator; nothing but the status moves, lines and total included.
  lemma {:induction false} SubmittedPrIs(db: Db, user: User, m: Master, p: nat)
    requires Valid(db) && RequisitionKeys(db.prs, db.prLines, db.nextPrLine)
    ensures var r := SubmittedPr(db, user, m, p);
      && (r.Ok? <==>
            && p < |db.prs| && Manages(user, db.prs[p]) && db.prs[p].status == PrDraft && db.prs[p].items != []
            && AllActive(m, db.prLines, db.prs[p].items))
      && (r.Ok? ==> OnlyTurns(db, r.value, p, PrPending, [], PrSubmitted))
      && (r.Err? ==> match r.error
            case PrNotFound => p >= |db.prs|
            case PrNotApplicant => p < |db.prs| && !Manages(user, db.prs[p])
            case PrInvalidStatusTransition => p < |db.prs| && Manages(user, db.prs[p]) && db.prs[p].status != PrDraft
            case PrEmptyItems =>
              p < |db.prs| && Manages(user, db.prs[p]) && db.prs[p].status == PrDraft && db.prs[p].items == []
            case e =>
              && p < |db.prs| && Manages(user, db.prs[p]) && db.prs[p].status == PrDraft
              && FirstInactive(m, db.prLines, db.prs[p].items, e))
  {
    hide Valid, MaterialsOk, AllActive, FirstInactive, Recomputed, RequisitionKeys;
    if p < |db.prs| {
      StoredItems(db, p);
      MaterialsOkIs(m, db.prLines, db.prs[p].items);
    }
  }

  // Who decides: an active manager of the requisition's active department, or an active administrator.
  predicate Decides(user: User, m: Master, department: int) {
    user.active && IsActive(m.departments, department) && (user.isAdmin || (department, user.id) in m.managers)
  }

  // Why somebody may not decide.
  predicate DecisionRefusal(user: User, m: Master, department: int, e: ErrorCode) {
    if !user.active then e == UserDisabled
    else if !IsActive(m.departments, department) then e == MasterDataDisabled
    else !user.isAdmin && (department, user.id) !in m.managers && e == PrNotApprover
  }

  predicate AwaitsDecision(db: Db, p: nat, version: nat) {
    p < |db.prs| && db.prs[p].status == PrPending && db.prs[p].version == version
  }

  function NotAwaiting(db: Db, p: nat): ErrorCode {
    if p >= |db.prs| then PrNotFound
    else if db.prs[p].status != PrPending then PrInvalidStatusTransition
    else PrVersionConflict
  }

  // In every reachable state approve_pr succeeds exactly on a pending requisition at the given version with lines, all
  // still of active materials, for who decides on it; it records the decision and moves nothing but the status.
  lemma {:induction false} ApprovedPrIs(db: Db, user: User, m: Master, p: nat, version: nat)
    requires Valid(db) && RequisitionKeys(db.prs, db.prLines, db.nextPrLine)
    ensures var r := ApprovedPr(db, user, m, p, version);
      && (r.Ok? <==>
            && AwaitsDecision(db, p, version) && Decides(user, m, db.prs[p].department) && db.prs[p].items != []
            && AllActive(m, db.prLines, db.prs[p].items))
      && (r.Ok? ==> OnlyTurns(db, r.value, p, PrApproved, [Approval(p, Approve, user.id, user.isAdmin)], PrWasApproved))
      && (r.Err? && !AwaitsDecision(db, p, version) ==> r.error == NotAwaiting(db, p))
      && (r.Err? && AwaitsDecision(db, p, version) ==>
            if !Decides(user, m, db.prs[p].department) then DecisionRefusal(user, m, db.prs[p].department, r.error)
            else if db.prs[p].items == [] then r.error == PrEmptyItems
            else FirstInactive(m, db.prLines, db.prs[p].items, r.error))
  {
    hide Valid, MaterialsOk, LinesStillOk, AllActive, FirstInactive, Recomputed, RequisitionKeys;
    if p < |db.prs| {
      StoredItems(db, p);
      MaterialsOkIs(m, db.prLines, db.prs[p].items);
      LinesStillOkIs(m, db.prLines, db.prs[p].items);
    }
  }

  // reject_pr asks for the same decision, but not for the lines.
  lemma {:induction false} RejectedPrIs(db: Db, user: User, m: Master, p: nat, version: nat)
    ensures var r := RejectedPr(db, user, m, p, version);
      && (r.Ok? <==> AwaitsDecision(db, p, version) && Decides(user, m, db.prs[p].department))
      && (r.Ok? ==> OnlyTurns(db, r.value, p, PrRejected, [Approval(p, Reject, user.id, user.isAdmin)], PrWasRejected))
      && (r.Err? && !AwaitsDecision(db, p, version) ==> r.error == NotAwaiting(db, p))
      && (r.Err? && AwaitsDecision(db, p, version) ==> DecisionRefusal(user, m, db.prs[p].department, r.error))
  {
  }

  // revise_pr takes a rejected requisition back to its draft.
  lemma {:induction false} RevisedPrIs(db: Db, user: User, p: nat, version: nat)
    ensures var r := RevisedPr(db, user, p, version);
      && (r.Ok? <==> p < |db.prs| && db.prs[p].status == PrRejected && Manages(user, db.prs[p])
                     && db.prs[p].version == version)
      && (r.Ok? ==> OnlyTurns(db, r.value, p, PrDraft, [], PrRevised))
      && (r.Err? ==> match r.error
            case PrNotFound => p >= |db.prs|
            case PrInvalidStatusTransition => p < |db.prs| && db.prs[p].status != PrRejected
            case PrNotApplicant => p < |db.prs| && db.prs[p].status == PrRejected && !Manages(user, db.prs[p])
            case PrVersionConflict => p < |db.prs| && db.prs[p].status == PrRejected && Manages(user, db.prs[p])
            case _ => false)
  {
  }

  // In every reachable state cancel_pr ends a draft, or an approved requisition of which nothing is converted.
  lemma {:induction false} CancelledPrIs(db: Db, user: User, p: nat)
    requires Valid(db)
    ensures var r := CancelledPr(db, user, p);
      && (r.Ok? <==>
            && p < |db.prs| && Manages(user, db.prs[p])
            && (db.prs[p].status == PrDraft || (db.prs[p].status == PrApproved && NothingConverted(db.prLines, p))))
      && (r.Ok? ==> OnlyTurns(db, r.value, p, PrCancelled, [], PrWasCancelled))
      && (r.Err? ==> match r.error
            case PrNotFound => p >= |db.prs|
            case PrNotApplicant => p < |db.prs| && !Manages(user, db.prs[p])
            case PrCancelHasActivePo => p < |db.prs| && Manages(user, db.prs[p]) && db.prs[p].status == PrApproved
            case PrInvalidStatusTransition =>
              p < |db.prs| && Manages(user, db.prs[p]) && db.prs[p].status !in {PrDraft, PrApproved}
            case _ => false)
  {
    hide Valid, HasActivePo;
    ChainLaws.CancelPrSucceedsIff(db, user, p);
  }
}
