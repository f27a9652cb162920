/**
 The asynchronous hand-off queue of the Claude bridge (crates/kaleido-adapter-claude/bridge/index.ts:158-195).
 A call that cannot be settled at once leaves its resolver in the queue. Calls are numbered in the order
 they are made, and `settled` records the order in which resolvers fire.
 */
module HandOff {
  import opened Prelude

  datatype Offer<T> = Offer(value: T, push: nat)

  datatype Settled<T> =
    | Pushed(push: nat, accepted: bool)
    | Received(next: nat, item: Option<T>)

  datatype Queue<T> = Queue(waiters: seq<nat>, offers: seq<Offer<T>>, ended: bool)

  datatype Call<T> = Push(value: T) | Next | Close

  datatype Stepped<T> = Stepped(queue: Queue<T>, settled: seq<Settled<T>>)

  function RefuseAll<T>(offers: seq<Offer<T>>): (out: seq<Settled<T>>)
    ensures |out| == |offers|
    ensures forall i | 0 <= i < |offers| :: out[i] == Pushed(offers[i].push, false)
  {
    seq(|offers|, i requires 0 <= i < |offers| => Pushed(offers[i].push, false))
  }

  function EndAll<T>(waiters: seq<nat>): (out: seq<Settled<T>>)
    ensures |out| == |waiters|
    ensures forall i | 0 <= i < |waiters| :: out[i] == Received(waiters[i], None)
  {
    seq(|waiters|, i requires 0 <= i < |waiters| => Received(waiters[i], None))
  }

  function Step<T>(q: Queue<T>, call: Call<T>, id: nat): Stepped<T> {
    match call
    case Push(v) =>
      if q.ended then Stepped(q, [Pushed(id, false)])
      else if q.waiters != [] then Stepped(q.(waiters := q.waiters[1..]),
        [Received(q.waiters[0], Some(v)), Pushed(id, true)])
      else Stepped(q.(offers := q.offers + [Offer(v, id)]), [])
    case Next =>
      if q.offers != [] then Stepped(q.(offers := q.offers[1..]),
        [Pushed(q.offers[0].push, true), Received(id, Some(q.offers[0].value))])
      else if q.ended then Stepped(q, [Received(id, None)])
      else Stepped(q.(waiters := q.waiters + [id]), [])
    case Close => Stepped(Queue([], [], true), RefuseAll(q.offers) + EndAll(q.waiters))
  }

  // ------------------------------------------------------------------ the object

  class AsyncQueue<T> {
    var waiters: seq<nat>
    var offers: seq<Offer<T>>
    var ended: bool

    function View(): Queue<T>
      reads this
    {
      Queue(waiters, offers, ended)
    }

    constructor ()
      ensures View() == Queue([], [], false)
    {
      waiters, offers, ended := [], [], false;
    }

    method Push(value: T, id: nat) returns (settled: seq<Settled<T>>)
      modifies this
      ensures Stepped(View(), settled) == Step(old(View()), Call.Push(value), id)
    {
      if ended {
        return [Pushed(id, false)];
      }
      if waiters != [] {
        var waiter := waiters[0];
        waiters := waiters[1..];
        return [Received(waiter, Some(value)), Pushed(id, true)];
      }
      offers := offers + [Offer(value, id)];
      settled := [];
    }

    method Next(id: nat) returns (settled: seq<Settled<T>>)
      modifies this
      ensures Stepped(View(), settled) == Step(old(View()), Call<T>.Next, id)
    {
      if offers != [] {
        var queued := offers[0];
        offers := offers[1..];
        return [Pushed(queued.push, true), Received(id, Some(queued.value))];
      }
      if ended {
        return [Received(id, None)];
      }
      waiters := waiters + [id];
      settled := [];
    }

    method Close() returns (settled: seq<Settled<T>>)
      modifies this
      ensures forall id: nat :: Stepped(View(), settled) == Step(old(View()), Call<T>.Close, id)
    {
      ended := true;
      ghost var was := View();
      settled := [];
      while offers != []
        invariant ended && waiters == was.waiters && |offers| <= |was.offers|
          && offers == was.offers[|was.offers| - |offers|..]
        invariant settled == RefuseAll(was.offers)[..|was.offers| - |offers|]
        decreases |offers|
      {
        settled := settled + [Pushed(offers[0].push, false)];
        offers := offers[1..];
      }
      ghost var refused := settled;
      while waiters != []
        invariant ended && offers == [] && |waiters| <= |was.waiters|
          && waiters == was.waiters[|was.waiters| - |waiters|..]
        invariant settled == refused + EndAll<T>(was.waiters)[..|was.waiters| - |waiters|]
        decreases |waiters|
      {
        settled := settled + [Received(waiters[0], None)];
        waiters := waiters[1..];
      }
      assert settled == RefuseAll(was.offers) + EndAll(was.waiters);
    }
  }

  // ------------------------------------------------------------------ whole runs

  datatype Run<T> = Run(queue: Queue<T>, settled: seq<Settled<T>>)

  /** Any interleaving of calls; the i-th call has number i. */
  function Execute<T>(calls: seq<Call<T>>): Run<T> {
    if calls == [] then Run(Queue([], [], false), [])
    else
      var n := |calls| - 1;
      var before := Execute(calls[..n]);
      var r := Step(before.queue, calls[n], n);
      Run(r.queue, before.settled + r.settled)
  }

  ghost predicate Ascending(ids: seq<nat>) { forall i, j | 0 <= i < j < |ids| :: ids[i] < ids[j] }

  function OfferIds<T>(offers: seq<Offer<T>>): (ids: seq<nat>)
    ensures |ids| == |offers| && forall i | 0 <= i < |offers| :: ids[i] == offers[i].push
  {
    seq(|offers|, i requires 0 <= i < |offers| => offers[i].push)
  }

  /** The pushes reported accepted, in the order they were. */
  function AcceptedIds<T>(settled: seq<Settled<T>>): seq<nat> {
    if settled == [] then []
    else
      var front, last := AcceptedIds(settled[..|settled| - 1]), settled[|settled| - 1];
      if last.Pushed? && last.accepted then front + [last.push] else front
  }

  /** The calls that received a value, and the values, in the order they did. */
  function ReceivedIds<T>(settled: seq<Settled<T>>): seq<nat> {
    if settled == [] then []
    else
      var front, last := ReceivedIds(settled[..|settled| - 1]), settled[|settled| - 1];
      if last.Received? && last.item.Some? then front + [last.next] else front
  }

  function ReceivedValues<T>(settled: seq<Settled<T>>): seq<T> {
    if settled == [] then []
    else
      var front, last := ReceivedValues(settled[..|settled| - 1]), settled[|settled| - 1];
      if last.Received? && last.item.Some? then front + [last.item.value] else front
  }

  lemma {:induction false} AcceptedAppend<T>(a: seq<Settled<T>>, b: seq<Settled<T>>)
    ensures AcceptedIds(a + b) == AcceptedIds(a) + AcceptedIds(b)
    ensures ReceivedIds(a + b) == ReceivedIds(a) + ReceivedIds(b)
    ensures ReceivedValues(a + b) == ReceivedValues(a) + ReceivedValues(b)
  {
    if b == [] {
      assert a + b == a;
    } else {
      var n := |b| - 1;
      assert (a + b)[..|a| + n] == a + b[..n];
      AcceptedAppend(a, b[..n]);
    }
  }

  function OneIf(b: bool): nat { if b then 1 else 0 }

  /** The call a settlement belongs to. */
  function Settles<T>(s: Settled<T>): nat { if s.Pushed? then s.push else s.next }

  /** How often a call has been settled. */
  function Times<T>(settled: seq<Settled<T>>, id: nat): nat {
    if settled == [] then 0
    else
      Times(settled[..|settled| - 1], id) + OneIf(Settles(settled[|settled| - 1]) == id)
  }

  lemma {:induction false} TimesAppend<T>(a: seq<Settled<T>>, b: seq<Settled<T>>, id: nat)
    ensures Times(a + b, id) == Times(a, id) + Times(b, id)
  {
    if b == [] {
      assert a + b == a;
    } else {
      var n := |b| - 1;
      assert (a + b)[..|a| + n] == a + b[..n];
      TimesAppend(a, b[..n], id);
    }
  }

  function WaitCount(ids: seq<nat>, id: nat): nat {
    if ids == [] then 0 else (if ids[0] == id then 1 else 0) + WaitCount(ids[1..], id)
  }

  /** The values of some pushes. */
  ghost predicate ValuesOf<T(!new)>(calls: seq<Call<T>>, ids: seq<nat>, values: seq<T>) {
    |ids| == |values| && forall i | 0 <= i < |ids| :: ids[i] < |calls| && calls[ids[i]] == Push(values[i])
  }

  ghost predicate OffersOf<T(!new)>(calls: seq<Call<T>>, offers: seq<Offer<T>>) {
    forall i | 0 <= i < |offers| :: offers[i].push < |calls| && calls[offers[i].push] == Push(offers[i].value)
  }

  /** The numbers of earlier calls. */
  ghost predicate Earlier(ids: seq<nat>, n: nat) { forall i | 0 <= i < |ids| :: ids[i] < n }

  /** What every run keeps. */
  ghost predicate Good<T(!new)>(calls: seq<Call<T>>, run: Run<T>) {
    var q := run.queue;
    && (q.waiters == [] || q.offers == [])
    && (q.ended ==> q.waiters == [] && q.offers == [])
    && Ascending(AcceptedIds(run.settled) + OfferIds(q.offers))
    && Ascending(ReceivedIds(run.settled) + q.waiters)
    && Earlier(q.waiters, |calls|) && Earlier(ReceivedIds(run.settled), |calls|)
    && OffersOf(calls, q.offers)
    && ValuesOf(calls, AcceptedIds(run.settled), ReceivedValues(run.settled))
    && |ReceivedIds(run.settled)| == |ReceivedValues(run.settled)|
  }

  // ------------------------------------------------------------------ every step keeps it

  lemma AscendingPrefix(a: seq<nat>, b: seq<nat>)
    requires Ascending(a + b)
    ensures Ascending(a)
  {
    assert forall i | 0 <= i < |a| :: (a + b)[i] == a[i];
  }

  lemma AscendingSnoc(ids: seq<nat>, n: nat)
    requires Ascending(ids) && Earlier(ids, n)
    ensures Ascending(ids + [n])
  {
  }

  lemma EarlierStill(ids: seq<nat>, n: nat)
    requires Earlier(ids, n)
    ensures Earlier(ids, n + 1) && Earlier(ids + [n], n + 1)
  {
  }

  lemma EarlierAppend(a: seq<nat>, b: seq<nat>, n: nat)
    ensures Earlier(a + b, n) <==> Earlier(a, n) && Earlier(b, n)
  {
    assert forall i | 0 <= i < |a| :: (a + b)[i] == a[i];
    assert forall i | 0 <= i < |b| :: (a + b)[|a| + i] == b[i];
  }

  lemma AllEarlier<T(!new)>(calls: seq<Call<T>>, offers: seq<Offer<T>>, ids: seq<nat>, values: seq<T>)
    requires OffersOf(calls, offers) && ValuesOf(calls, ids, values)
    ensures Earlier(ids, |calls|) && Earlier(OfferIds(offers), |calls|)
  {
  }

  lemma OneMoreValue<T(!new)>(calls: seq<Call<T>>, ids: seq<nat>, values: seq<T>, id: nat, value: T)
    requires ValuesOf(calls, ids, values) && id < |calls| && calls[id] == Push(value)
    ensures ValuesOf(calls, ids + [id], values + [value])
  {
  }

  lemma OneMoreOffer<T(!new)>(calls: seq<Call<T>>, offers: seq<Offer<T>>, o: Offer<T>)
    requires OffersOf(calls, offers) && o.push < |calls| && calls[o.push] == Push(o.value)
    ensures OffersOf(calls, offers + [o]) && OfferIds(offers + [o]) == OfferIds(offers) + [o.push]
  {
  }

  lemma OneOfferLess<T(!new)>(calls: seq<Call<T>>, offers: seq<Offer<T>>)
    requires OffersOf(calls, offers) && offers != []
    ensures OffersOf(calls, offers[1..]) && OfferIds(offers) == [offers[0].push] + OfferIds(offers[1..])
    ensures offers[0].push < |calls| && calls[offers[0].push] == Push(offers[0].value)
  {
  }

  lemma NoneSettled<T>(settled: seq<Settled<T>>)
    requires forall i | 0 <= i < |settled| ::
      (settled[i].Pushed? && !settled[i].accepted) || (settled[i].Received? && settled[i].item.None?)
    ensures AcceptedIds(settled) == [] && ReceivedIds(settled) == [] && ReceivedValues(settled) == []
  {
  }

  lemma OneHandOff<T>(push: nat, next: nat, value: T)
    ensures
      var a: seq<Settled<T>>, b: seq<Settled<T>> := [Received(next, Some(value)), Pushed(push, true)],
        [Pushed(push, true), Received(next, Some(value))];
      && AcceptedIds(a) == [push] && ReceivedIds(a) == [next] && ReceivedValues(a) == [value]
      && AcceptedIds(b) == [push] && ReceivedIds(b) == [next] && ReceivedValues(b) == [value]
  {
    var x, y := Settled<T>.Received(next, Some(value)), Settled<T>.Pushed(push, true);
    assert [x, y][..1] == [x] && [y, x][..1] == [y] && [x][..0] == [] && [y][..0] == [];
    assert AcceptedIds([x]) == [] && AcceptedIds([y]) == [push];
    assert ReceivedIds([x]) == [next] && ReceivedIds([y]) == [];
    assert ReceivedValues([x]) == [value] && ReceivedValues([y]) == [];
  }

  lemma MoreCalls<T(!new)>(calls: seq<Call<T>>, call: Call<T>, offers: seq<Offer<T>>, ids: seq<nat>, values: seq<T>)
    requires OffersOf(calls, offers) && ValuesOf(calls, ids, values)
    ensures OffersOf(calls + [call], offers) && ValuesOf(calls + [call], ids, values)
  {
  }

  /** A hand-over happens. */
  predicate HandsOver<T>(q: Queue<T>, call: Call<T>) {
    (call.Push? && !q.ended && q.waiters != []) || (call.Next? && q.offers != [])
  }

  /** Nothing is handed over: the queue may only lose or gain waiting calls. */
  lemma QuietKeepsGood<T(!new)>(calls: seq<Call<T>>, call: Call<T>, run: Run<T>, r: Stepped<T>)
    requires Good(calls, run) && r == Step(run.queue, call, |calls|) && !HandsOver(run.queue, call)
    requires AcceptedIds(r.settled) == [] && ReceivedIds(r.settled) == [] && ReceivedValues(r.settled) == []
    ensures Good(calls + [call], Run(r.queue, run.settled + r.settled))
  {
    hide AcceptedIds, ReceivedIds, ReceivedValues, Ascending, Earlier, OffersOf, ValuesOf, OfferIds;
    var q, n, all := run.queue, |calls|, calls + [call];
    AcceptedAppend(run.settled, r.settled);
    var a, b, values := AcceptedIds(run.settled), ReceivedIds(run.settled), ReceivedValues(run.settled);
    assert a + [] == a && b + [] == b && values + [] == values;
    MoreCalls(calls, call, q.offers, a, values);
    AllEarlier(calls, q.offers, a, values);
    EarlierStill(b, n);
    EarlierStill(q.waiters, n);
    EarlierAppend(a, OfferIds(q.offers), n);
    EarlierAppend(b, q.waiters, n);
    AscendingPrefix(a, OfferIds(q.offers));
    AscendingPrefix(b, q.waiters);
    NothingOffered(all);
    if call.Push? && !q.ended {
      OneMoreOffer(all, q.offers, Offer(call.value, n));
      assert a + (OfferIds(q.offers) + [n]) == (a + OfferIds(q.offers)) + [n];
      AscendingSnoc(a + OfferIds(q.offers), n);
    }
    if call.Next? && !q.ended {
      assert b + (q.waiters + [n]) == (b + q.waiters) + [n];
      AscendingSnoc(b + q.waiters, n);
    }
  }

  lemma NothingOffered<T(!new)>(calls: seq<Call<T>>)
    ensures OfferIds<T>([]) == [] && OffersOf(calls, []) && Earlier([], |calls|)
  {
  }

  /** A value goes to the call that has waited longest. */
  lemma PushKeepsGood<T(!new)>(calls: seq<Call<T>>, call: Call<T>, run: Run<T>, r: Stepped<T>)
    requires Good(calls, run) && r == Step(run.queue, call, |calls|) && HandsOver(run.queue, call) && call.Push?
    ensures Good(calls + [call], Run(r.queue, run.settled + r.settled))
  {
    hide AcceptedIds, ReceivedIds, ReceivedValues, Ascending, Earlier, OffersOf, ValuesOf, OfferIds;
    var q, n, all := run.queue, |calls|, calls + [call];
    var w := q.waiters[0];
    AcceptedAppend(run.settled, r.settled);
    OneHandOff(n, w, call.value);
    var a, b, values := AcceptedIds(run.settled), ReceivedIds(run.settled), ReceivedValues(run.settled);
    MoreCalls(calls, call, q.offers, a, values);
    AllEarlier(calls, q.offers, a, values);
    OneMoreValue(all, a, values, n, call.value);
    EarlierStill(b, n);
    EarlierStill(q.waiters, n);
    NothingOffered(all);
    assert a + [] == a && (a + [n]) + [] == a + [n];
    AscendingSnoc(a, n);
    assert q.waiters == [w] + q.waiters[1..];
    assert (b + [w]) + q.waiters[1..] == b + q.waiters;
    EarlierAppend([w], q.waiters[1..], n + 1);
    EarlierAppend(b, [w], n + 1);
  }

  /** A call gets the value that has been offered longest. */
  lemma NextKeepsGood<T(!new)>(calls: seq<Call<T>>, call: Call<T>, run: Run<T>, r: Stepped<T>)
    requires Good(calls, run) && r == Step(run.queue, call, |calls|) && HandsOver(run.queue, call) && call.Next?
    ensures Good(calls + [call], Run(r.queue, run.settled + r.settled))
  {
    hide AcceptedIds, ReceivedIds, ReceivedValues, Ascending, Earlier, OffersOf, ValuesOf, OfferIds;
    var q, n, all := run.queue, |calls|, calls + [call];
    var o := q.offers[0];
    AcceptedAppend(run.settled, r.settled);
    OneHandOff(o.push, n, o.value);
    var a, b, values := AcceptedIds(run.settled), ReceivedIds(run.settled), ReceivedValues(run.settled);
    MoreCalls(calls, call, q.offers, a, values);
    OneOfferLess(all, q.offers);
    OneMoreValue(all, a, values, o.push, o.value);
    assert (a + [o.push]) + OfferIds(q.offers[1..]) == a + ([o.push] + OfferIds(q.offers[1..]));
    assert b + [] == b && (b + [n]) + [] == b + [n];
    AscendingSnoc(b, n);
    EarlierStill(b, n);
    NothingOffered(all);
  }

  lemma StepKeepsGood<T(!new)>(calls: seq<Call<T>>, call: Call<T>, run: Run<T>)
    requires Good(calls, run)
    ensures var r := Step(run.queue, call, |calls|); Good(calls + [call], Run(r.queue, run.settled + r.settled))
  {
    hide Good, AcceptedIds, ReceivedIds, ReceivedValues;
    var q, r := run.queue, Step(run.queue, call, |calls|);
    if HandsOver(q, call) {
      if call.Push? { PushKeepsGood(calls, call, run, r); } else { NextKeepsGood(calls, call, run, r); }
    } else {
      NoneSettled(r.settled);
      QuietKeepsGood(calls, call, run, r);
    }
  }

  lemma {:induction false} RunIsGood<T(!new)>(calls: seq<Call<T>>)
    ensures Good(calls, Execute(calls))
  {
    if calls != [] {
      var n := |calls| - 1;
      RunIsGood(calls[..n]);
      StepKeepsGood(calls[..n], calls[n], Execute(calls[..n]));
      assert calls == calls[..n] + [calls[n]];
    }
  }

  // ------------------------------------------------------------------ every call is settled once

  lemma {:induction false} CountAppend(a: seq<nat>, b: seq<nat>, id: nat)
    ensures WaitCount(a + b, id) == WaitCount(a, id) + WaitCount(b, id)
  {
    if a == [] {
      assert a + b == b;
    } else {
      assert (a + b)[1..] == a[1..] + b;
      CountAppend(a[1..], b, id);
    }
  }

  lemma {:induction false} RefusedTimes<T>(offers: seq<Offer<T>>, id: nat)
    ensures Times(RefuseAll(offers), id) == WaitCount(OfferIds(offers), id)
  {
    if offers != [] {
      var n := |offers| - 1;
      assert RefuseAll(offers)[..n] == RefuseAll(offers[..n]);
      assert OfferIds(offers) == OfferIds(offers[..n]) + [offers[n].push];
      CountAppend(OfferIds(offers[..n]), [offers[n].push], id);
      RefusedTimes(offers[..n], id);
    }
  }

  lemma {:induction false} EndedTimes<T>(waiters: seq<nat>, id: nat)
    ensures Times<T>(EndAll(waiters), id) == WaitCount(waiters, id)
  {
    if waiters != [] {
      var n := |waiters| - 1;
      assert EndAll<T>(waiters)[..n] == EndAll<T>(waiters[..n]);
      assert waiters == waiters[..n] + [waiters[n]];
      CountAppend(waiters[..n], [waiters[n]], id);
      EndedTimes<T>(waiters[..n], id);
    }
  }

  function Held<T>(q: Queue<T>, id: nat): nat { WaitCount(q.waiters, id) + WaitCount(OfferIds(q.offers), id) }

  /** A step settles or keeps what was waiting and its own call, each once. */
  lemma StepConserves<T>(q: Queue<T>, call: Call<T>, n: nat, id: nat)
    ensures
      var r := Step(q, call, n);
      Times(r.settled, id) + Held(r.queue, id) == Held(q, id) + OneIf(!call.Close? && id == n)
  {
    match call
    case Push(v) =>
      if q.ended {
        OneTime(Settled<T>.Pushed(n, false), id);
      } else if q.waiters != [] {
        TwoTimes(Settled<T>.Received(q.waiters[0], Some(v)), Pushed(n, true), id);
      } else {
        assert OfferIds(q.offers + [Offer(v, n)]) == OfferIds(q.offers) + [n];
        CountAppend(OfferIds(q.offers), [n], id);
      }
    case Next =>
      if q.offers != [] {
        TwoTimes(Settled<T>.Pushed(q.offers[0].push, true), Received(n, Some(q.offers[0].value)), id);
        assert OfferIds(q.offers)[1..] == OfferIds(q.offers[1..]);
      } else if q.ended {
        OneTime(Settled<T>.Received(n, None), id);
      } else {
        CountAppend(q.waiters, [n], id);
      }
    case Close =>
      RefusedTimes(q.offers, id);
      EndedTimes<T>(q.waiters, id);
      TimesAppend(RefuseAll(q.offers), EndAll(q.waiters), id);
  }

  lemma OneTime<T>(s: Settled<T>, id: nat)
    ensures Times([s], id) == OneIf(Settles(s) == id)
  {
    assert [s][..0] == [];
  }

  lemma TwoTimes<T>(s: Settled<T>, t: Settled<T>, id: nat)
    ensures Times([s, t], id) == OneIf(Settles(s) == id) + OneIf(Settles(t) == id)
  {
    assert [s, t][..1] == [s];
    OneTime(s, id);
  }

  /** A push is settled as a push and a next as a next. */
  ghost predicate SettledInKind<T>(calls: seq<Call<T>>, s: Settled<T>) {
    Settles(s) < |calls| && if s.Pushed? then calls[s.push].Push? else calls[s.next].Next?
  }

  /** What was settled and what is held, each belongs to a call of its kind. */
  ghost predicate InKind<T(!new)>(calls: seq<Call<T>>, run: Run<T>) {
    && (forall i | 0 <= i < |run.settled| :: SettledInKind(calls, run.settled[i]))
    && (forall i | 0 <= i < |run.queue.waiters| :: run.queue.waiters[i] < |calls| && calls[run.queue.waiters[i]].Next?)
    && OffersOf(calls, run.queue.offers)
  }

  lemma StepInKind<T(!new)>(calls: seq<Call<T>>, call: Call<T>, run: Run<T>)
    requires InKind(calls, run)
    ensures var r := Step(run.queue, call, |calls|); InKind(calls + [call], Run(r.queue, run.settled + r.settled))
  {
    var all, q, r := calls + [call], run.queue, Step(run.queue, call, |calls|);
    assert forall k | 0 <= k < |calls| :: all[k] == calls[k];
    forall i | 0 <= i < |r.settled| ensures SettledInKind(all, r.settled[i]) {
    }
    forall i | 0 <= i < |run.settled| ensures SettledInKind(all, run.settled[i]) {
      assert SettledInKind(calls, run.settled[i]);
    }
  }

  lemma {:induction false} RunInKind<T(!new)>(calls: seq<Call<T>>)
    ensures InKind(calls, Execute(calls))
  {
    hide Step, InKind;
    if calls == [] {
      NothingInKind(calls);
    } else {
      var n := |calls| - 1;
      RunInKind(calls[..n]);
      StepInKind(calls[..n], calls[n], Execute(calls[..n]));
      assert calls == calls[..n] + [calls[n]];
    }
  }

  lemma NothingInKind<T(!new)>(calls: seq<Call<T>>)
    ensures InKind(calls, Run(Queue([], [], false), []))
  {
  }

  /**
   Each push is settled once as a push, and each next once as a next, or is still held by the queue once;
   nothing else ever is.
   */
  lemma SettledOrHeldOnce<T(!new)>(calls: seq<Call<T>>, id: nat)
    ensures
      var run := Execute(calls);
      && InKind(calls, run)
      && Times(run.settled, id) + Held(run.queue, id) == OneIf(id < |calls| && !calls[id].Close?)
  {
    hide Times, Held, Execute, InKind;
    RunInKind(calls);
    CountedOnce(calls, id);
  }

  lemma {:induction false} CountedOnce<T(!new)>(calls: seq<Call<T>>, id: nat)
    ensures
      var run := Execute(calls);
      Times(run.settled, id) + Held(run.queue, id) == OneIf(id < |calls| && !calls[id].Close?)
  {
    hide Times, Held, Step;
    if calls == [] {
      assert Execute(calls).settled == [];
      NothingYet<T>(id);
    } else {
      var n := |calls| - 1;
      var before := Execute(calls[..n]);
      CountedOnce(calls[..n], id);
      StepConserves(before.queue, calls[n], n, id);
      TimesAppend(before.settled, Step(before.queue, calls[n], n).settled, id);
      assert id < n ==> calls[..n][id] == calls[id];
    }
  }

  lemma NothingYet<T>(id: nat)
    ensures Times<T>([], id) == 0 && Held<T>(Queue([], [], false), id) == 0
  {
  }

  // ------------------------------------------------------------------ what a run guarantees

  /**
   In any interleaving: the queue never holds both waiting calls and waiting values; the i-th call to
   receive a value receives the value of the i-th push reported accepted, both in the order the calls
   were made; and once closed the queue holds nothing.
   */
  lemma FirstInFirstOut<T(!new)>(calls: seq<Call<T>>)
    ensures
      var run := Execute(calls);
      && (run.queue.waiters == [] || run.queue.offers == [])
      && (run.queue.ended ==> run.queue.waiters == [] && run.queue.offers == [])
      && Ascending(AcceptedIds(run.settled)) && Ascending(ReceivedIds(run.settled))
      && |ReceivedIds(run.settled)| == |AcceptedIds(run.settled)|
      && ValuesOf(calls, AcceptedIds(run.settled), ReceivedValues(run.settled))
  {
    hide AcceptedIds, ReceivedIds, ReceivedValues, Execute;
    var run := Execute(calls);
    RunIsGood(calls);
    AscendingPrefix(AcceptedIds(run.settled), OfferIds(run.queue.offers));
    AscendingPrefix(ReceivedIds(run.settled), run.queue.waiters);
  }

  lemma {:induction false} ClosedStaysClosed<T(!new)>(calls: seq<Call<T>>, k: nat)
    requires k < |calls| && calls[k].Close?
    ensures Execute(calls).queue.ended
  {
    var n := |calls| - 1;
    if k < n { ClosedStaysClosed(calls[..n], k); }
  }

  /** After a close, every push and every next ever made, before it or since, has been settled exactly once. */
  lemma AllSettledAfterClose<T(!new)>(calls: seq<Call<T>>, k: nat, id: nat)
    requires k < |calls| && calls[k].Close? && id < |calls| && !calls[id].Close?
    ensures Times(Execute(calls).settled, id) == 1
  {
    hide Times, Execute;
    ClosedStaysClosed(calls, k);
    FirstInFirstOut(calls);
    SettledOrHeldOnce(calls, id);
    assert OfferIds<T>([]) == [];
  }

  /** Making the calls on the object, in any order, gives the queue and the settlements of the run. */
  method Replay<T>(calls: seq<Call<T>>) returns (queue: AsyncQueue<T>, settled: seq<Settled<T>>)
    ensures fresh(queue) && Run(queue.View(), settled) == Execute(calls)
  {
    queue := new AsyncQueue<T>();
    settled := [];
    for n := 0 to |calls|
      invariant fresh(queue) && Run(queue.View(), settled) == Execute(calls[..n])
    {
      assert calls[..n + 1][..n] == calls[..n];
      var now: seq<Settled<T>>;
      match calls[n] {
        case Push(value) => now := queue.Push(value, n);
        case Next => now := queue.Next(n);
        case Close => now := queue.Close();
      }
      settled := settled + now;
    }
    assert calls[..|calls|] == calls;
  }
}
