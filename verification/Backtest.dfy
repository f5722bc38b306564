/** The day and clock sweep of scripts/run_backtest.py against a remote API: every
    document falls in one half-open window and goes into one upload body. */
module Backtest {
  import opened Wrappers
  import opened Groups

  /** Microseconds since the initial bound of the sweep, 2025-12-31 00:00. */
  type Time = int

  const SECOND: int := 1_000_000
  const DAY: int := 86_400_000_000

  // ---- the clocks

  function BuildClocks(buildsPerDay: int): (clocks: seq<nat>)
    ensures |clocks| == Max(buildsPerDay, 1)
  {
    if buildsPerDay <= 1 then [17]
    else if buildsPerDay == 2 then [12, 17]
    else if buildsPerDay == 3 then [9, 13, 17]
    else
      var step := Max(1, 8 / (buildsPerDay - 1));
      seq(buildsPerDay, i => 9 + step * i)
  }

  predicate Increasing(xs: seq<int>) {
    forall i, j :: 0 <= i < j < |xs| ==> xs[i] < xs[j]
  }

  /** The clocks go up through the day; they are hours of the day for up to fifteen
      builds, and within working hours for up to nine. */
  lemma ClocksOfDay(buildsPerDay: int)
    ensures var clocks := BuildClocks(buildsPerDay);
      Increasing(clocks) && (forall i :: 0 <= i < |clocks| ==> 9 <= clocks[i]) &&
      ((forall i :: 0 <= i < |clocks| ==> clocks[i] <= 23) <==> buildsPerDay <= 15) &&
      ((forall i :: 0 <= i < |clocks| ==> clocks[i] <= 17) <==> buildsPerDay <= 9)
  {
    var n, clocks := buildsPerDay, BuildClocks(buildsPerDay);
    if n >= 4 {
      var step := Max(1, 8 / (n - 1));
      StepOf(n);
      assert clocks[n-1] == 9 + step * (n - 1);
      forall i, j | 0 <= i < j < n
        ensures clocks[i] < clocks[j] <= clocks[n-1]
      {
        if step == 2 {
        } else {
          assert step == 1;
        }
      }
    }
  }

  /** The hours of the windows of a day, from the first to the last. */
  function FirstHour(buildsPerDay: int): nat {
    if buildsPerDay <= 1 then 17 else if buildsPerDay == 2 then 12 else 9
  }

  function LastHour(buildsPerDay: int): nat {
    if buildsPerDay <= 3 || buildsPerDay == 5 then 17 else if buildsPerDay == 4 then 15 else 8 + buildsPerDay
  }

  /** Evenly spread: noon between 12 and 17, 13 between 9 and 17, every second hour for
      four and five builds, every hour for more. */
  lemma ClocksSpread(buildsPerDay: int)
    ensures var n, clocks := buildsPerDay, BuildClocks(buildsPerDay);
      clocks[0] == FirstHour(n) && clocks[|clocks|-1] == LastHour(n) && (n == 3 ==> clocks[1] == 13) &&
      (n >= 4 ==> forall i :: 0 < i < n ==> clocks[i] - clocks[i-1] == if n <= 5 then 2 else 1)
  {
    if buildsPerDay >= 4 {
      StepOf(buildsPerDay);
    }
  }

  lemma StepOf(n: int)
    requires n >= 4
    ensures Max(1, 8 / (n - 1)) == if n <= 5 then 2 else 1
  {
    if n > 9 {
      assert 8 / (n - 1) == 0;
    } else if n == 4 {
    } else if n == 5 {
    } else if n == 6 {
    } else if n == 7 {
    } else if n == 8 {
    } else {
    }
  }

  /** The last second of the hour. */
  function WindowEnd(day: int, hour: int): Time {
    day * DAY + (hour * 3600 + 59 * 60 + 59) * SECOND
  }

  function DayEnds(day: int, clocks: seq<nat>): (r: seq<Time>)
    ensures |r| == |clocks| && forall i :: 0 <= i < |r| ==> r[i] == WindowEnd(day, clocks[i])
  {
    seq(|clocks|, i requires 0 <= i < |clocks| => WindowEnd(day, clocks[i]))
  }

  /** The ends of the windows of days `from` to `to`, in the order swept. */
  function WindowEnds(from: int, to: int, clocks: seq<nat>): seq<Time>
    decreases 0 + to - from
  {
    if from > to then [] else WindowEnds(from, to - 1, clocks) + DayEnds(to, clocks)
  }

  lemma {:induction false} WindowEndsIncrease(from: int, to: int, buildsPerDay: int)
    requires buildsPerDay <= 15
    ensures var ends := WindowEnds(from, to, BuildClocks(buildsPerDay));
      Increasing(ends) && (from <= to ==> Between(ends, from * DAY, (to + 1) * DAY)) && (from > to ==> ends == [])
    decreases 0 + to - from
  {
    if from <= to {
      var clocks := BuildClocks(buildsPerDay);
      var earlier, today := WindowEnds(from, to - 1, clocks), DayEnds(to, clocks);
      ClocksOfDay(buildsPerDay);
      WindowEndsIncrease(from, to - 1, buildsPerDay);
      EndsOfDay(to, clocks);
      Chained(earlier, today, from * DAY, to * DAY, (to + 1) * DAY);
    }
  }

  lemma EndsOfDay(day: int, clocks: seq<nat>)
    requires Increasing(clocks) && forall i :: 0 <= i < |clocks| ==> clocks[i] <= 23
    ensures Increasing(DayEnds(day, clocks)) && Between(DayEnds(day, clocks), day * DAY, (day + 1) * DAY)
  {
  }

  predicate Between(xs: seq<int>, low: int, high: int) {
    forall i :: 0 <= i < |xs| ==> low < xs[i] < high
  }

  lemma Chained(xs: seq<int>, ys: seq<int>, low: int, middle: int, high: int)
    requires Increasing(xs) && Increasing(ys) && Between(xs, low, middle) && Between(ys, middle, high)
    requires low <= middle <= high
    ensures Increasing(xs + ys) && Between(xs + ys, low, high)
  {
  }

  // ---- documents

  /** A document: when it was received, if that parses, and its loan, if it has one. */
  datatype Doc = Doc(id: string, received: Option<Time>, loan: Option<string>)

  /** An upload body: the documents of one loan, and whether it was accepted. */
  datatype Body = Body(loan: string, docs: seq<Doc>, accepted: bool)

  predicate InWindow(d: Doc, start: Time, end: Time) {
    d.received.Some? && start < d.received.value <= end
  }

  predicate Known(d: Doc, loans: set<string>) {
    d.loan.Some? && d.loan.value != "" && d.loan.value in loans
  }

  /** The documents of a list that lie in a window and have a known loan. */
  function Eligible(docs: seq<Doc>, start: Time, end: Time, loans: set<string>): multiset<Doc> {
    if docs == [] then multiset{}
    else
      var d, earlier := docs[|docs|-1], Eligible(docs[..|docs|-1], start, end, loans);
      if InWindow(d, start, end) && Known(d, loans) then earlier + multiset{d} else earlier
  }

  /** Of the documents in the window with a known loan, every one as often as it is
      listed; of the others none. */
  ghost predicate HoldsExactly(held: multiset<Doc>, docs: seq<Doc>, start: Time, end: Time, loans: set<string>) {
    forall d :: held[d] ==
      if d.received.Some? && start < d.received.value <= end && d.loan.Some? && d.loan.value != "" && d.loan.value in loans
      then multiset(docs)[d] else 0
  }

  lemma {:induction false} EligibleHoldsExactly(docs: seq<Doc>, start: Time, end: Time, loans: set<string>)
    ensures HoldsExactly(Eligible(docs, start, end, loans), docs, start, end, loans)
  {
    if docs != [] {
      EligibleHoldsExactly(docs[..|docs|-1], start, end, loans);
      assert docs == docs[..|docs|-1] + [docs[|docs|-1]];
    }
  }

  /** Two windows that meet share nothing and miss nothing. */
  lemma {:induction false} WindowsMeet(docs: seq<Doc>, a: Time, b: Time, c: Time, loans: set<string>)
    requires a <= b <= c
    ensures Eligible(docs, a, c, loans) == Eligible(docs, a, b, loans) + Eligible(docs, b, c, loans)
  {
    if docs != [] {
      WindowsMeet(docs[..|docs|-1], a, b, c, loans);
    }
  }

  lemma {:induction false} EmptyWindow(docs: seq<Doc>, a: Time, loans: set<string>)
    ensures Eligible(docs, a, a, loans) == multiset{}
  {
    if docs != [] {
      EmptyWindow(docs[..|docs|-1], a, loans);
    }
  }

  /** `out` holds every document of the window, with a loan or without, as often as it
      is listed, and no other. */
  ghost predicate Selects(out: seq<Doc>, docs: seq<Doc>, start: Time, end: Time) {
    forall d :: multiset(out)[d] == if InWindow(d, start, end) then multiset(docs)[d] else 0
  }

  lemma SelectsNext(out: seq<Doc>, docs: seq<Doc>, d: Doc, start: Time, end: Time)
    requires Selects(out, docs, start, end)
    ensures Selects(if InWindow(d, start, end) then out + [d] else out, docs + [d], start, end)
  {
  }

  lemma EligibleNext(out: seq<Doc>, docs: seq<Doc>, d: Doc, start: Time, end: Time, loans: set<string>)
    requires KnownOf(out, loans) == Eligible(docs, start, end, loans)
    ensures KnownOf(if InWindow(d, start, end) then out + [d] else out, loans) == Eligible(docs + [d], start, end, loans)
  {
    assert (docs + [d])[..|docs|] == docs && (out + [d])[..|out|] == out;
  }

  method DocsInWindow(docs: seq<Doc>, start: Time, end: Time) returns (out: seq<Doc>)
    ensures Selects(out, docs, start, end)
    ensures forall loans :: KnownOf(out, loans) == Eligible(docs, start, end, loans)
  {
    out := [];
    for k := 0 to |docs|
      invariant Selects(out, docs[..k], start, end)
      invariant forall loans :: KnownOf(out, loans) == Eligible(docs[..k], start, end, loans)
    {
      var d := docs[k];
      SelectsNext(out, docs[..k], d, start, end);
      forall loans {
        EligibleNext(out, docs[..k], d, start, end, loans);
      }
      assert docs[..k+1] == docs[..k] + [d];
      if d.received.Some? && start < d.received.value && d.received.value <= end {
        out := out + [d];
      }
    }
    assert docs[..|docs|] == docs;
  }

  /** The documents of a list with a known loan. */
  function KnownOf(docs: seq<Doc>, loans: set<string>): multiset<Doc> {
    if docs == [] then multiset{}
    else
      var d, earlier := docs[|docs|-1], KnownOf(docs[..|docs|-1], loans);
      if Known(d, loans) then earlier + multiset{d} else earlier
  }

  // ---- one window's uploads

  function AllDocs(bodies: seq<Body>): multiset<Doc> {
    if bodies == [] then multiset{} else AllDocs(bodies[..|bodies|-1]) + multiset(bodies[|bodies|-1].docs)
  }

  lemma {:induction false} AllDocsAppend(xs: seq<Body>, ys: seq<Body>)
    ensures AllDocs(xs + ys) == AllDocs(xs) + AllDocs(ys)
  {
    if ys == [] {
      assert xs + ys == xs;
    } else {
      var init := ys[..|ys|-1];
      assert (xs + ys)[..|xs + ys|-1] == xs + init;
      AllDocsAppend(xs, init);
    }
  }

  type Group = (string, seq<Doc>)

  /** A group holds documents of its own loan, at least one. */
  predicate OfOneLoan(g: Group, loans: set<string>) {
    g.0 in loans && g.1 != [] && forall j :: 0 <= j < |g.1| ==> g.1[j].loan == Some(g.0)
  }

  /** The groups are of different loans. */
  predicate Grouped(groups: Grouping<string, Doc>, loans: set<string>) {
    (forall i :: 0 <= i < |groups| ==> OfOneLoan(groups[i], loans)) &&
    (forall i, j :: 0 <= i < j < |groups| ==> groups[i].0 != groups[j].0)
  }

  lemma AddDocGroups(groups: Grouping<string, Doc>, loan: string, d: Doc, loans: set<string>)
    requires Grouped(groups, loans) && loan in loans && d.loan == Some(loan)
    ensures Grouped(Add(groups, loan, d), loans)
  {
    var i := Position(groups, loan);
    if i < |groups| {
      assert OfOneLoan(groups[i], loans);
      assert OfOneLoan((loan, groups[i].1 + [d]), loans);
    } else {
      assert OfOneLoan((loan, [d]), loans);
    }
  }

  method GroupByLoan(docs: seq<Doc>, loans: set<string>) returns (groups: Grouping<string, Doc>)
    ensures Grouped(groups, loans) && Contents(groups) == KnownOf(docs, loans)
  {
    groups := [];
    for k := 0 to |docs|
      invariant Grouped(groups, loans) && Contents(groups) == KnownOf(docs[..k], loans)
    {
      var d := docs[k];
      assert docs[..k+1][..k] == docs[..k];
      if d.loan.None? || d.loan.value == "" || d.loan.value !in loans {
        continue;
      }
      AddDocGroups(groups, d.loan.value, d, loans);
      AddAdds(groups, d.loan.value, d);
      groups := Add(groups, d.loan.value, d);
    }
    assert docs[..|docs|] == docs;
  }

  /** How many documents went into accepted, or refused, bodies. */
  function Count(bodies: seq<Body>, accepted: bool): nat {
    if bodies == [] then 0
    else
      var b := bodies[|bodies|-1];
      Count(bodies[..|bodies|-1], accepted) + if b.accepted == accepted then |b.docs| else 0
  }

  lemma {:induction false} CountsAddUp(bodies: seq<Body>)
    ensures Count(bodies, true) + Count(bodies, false) == |AllDocs(bodies)|
  {
    if bodies != [] {
      CountsAddUp(bodies[..|bodies|-1]);
    }
  }

  lemma {:induction false} CountAppend(xs: seq<Body>, ys: seq<Body>, accepted: bool)
    ensures Count(xs + ys, accepted) == Count(xs, accepted) + Count(ys, accepted)
  {
    if ys == [] {
      assert xs + ys == xs;
    } else {
      assert (xs + ys)[..|xs + ys|-1] == xs + ys[..|ys|-1];
      CountAppend(xs, ys[..|ys|-1], accepted);
    }
  }

  /** The bodies posted for the groups, in order. */
  function Posts(groups: Grouping<string, Doc>, posted: nat, accept: nat -> bool): (r: seq<Body>)
    ensures |r| == |groups|
    ensures forall i :: 0 <= i < |r| ==> r[i] == Body(groups[i].0, groups[i].1, accept(posted + i))
  {
    seq(|groups|, i requires 0 <= i < |groups| => Body(groups[i].0, groups[i].1, accept(posted + i)))
  }

  lemma PostsNext(groups: Grouping<string, Doc>, k: nat, posted: nat, accept: nat -> bool)
    requires k < |groups|
    ensures Posts(groups[..k+1], posted, accept) ==
      Posts(groups[..k], posted, accept) + [Body(groups[k].0, groups[k].1, accept(posted + k))]
  {
  }

  lemma {:induction false} PostsHoldAll(groups: Grouping<string, Doc>, posted: nat, accept: nat -> bool)
    ensures AllDocs(Posts(groups, posted, accept)) == Contents(groups)
  {
    if groups != [] {
      var n := |groups| - 1;
      assert Posts(groups, posted, accept)[..n] == Posts(groups[..n], posted, accept);
      PostsHoldAll(groups[..n], posted, accept);
    }
  }

  lemma BodySnoc(bodies: seq<Body>, b: Body)
    ensures AllDocs(bodies + [b]) == AllDocs(bodies) + multiset(b.docs)
    ensures Count(bodies + [b], true) == Count(bodies, true) + if b.accepted then |b.docs| else 0
    ensures Count(bodies + [b], false) == Count(bodies, false) + if b.accepted then 0 else |b.docs|
  {
    assert (bodies + [b])[..|bodies|] == bodies;
  }

  /** A body holds documents of its own loan only, and that loan is known. */
  predicate OneLoan(b: Body, loans: set<string>) {
    OfOneLoan((b.loan, b.docs), loans)
  }

  /** After `posted` others, each body was accepted or refused as its answer says. */
  predicate Answered(bodies: seq<Body>, posted: nat, accept: nat -> bool) {
    forall i :: 0 <= i < |bodies| ==> bodies[i].accepted == accept(posted + i)
  }

  /** One POST a loan; `accept(i)` is the answer to the i-th. */
  method UploadWindow(docs: seq<Doc>, loans: set<string>, posted: nat, accept: nat -> bool)
    returns (bodies: seq<Body>, uploaded: nat, failed: nat)
    ensures AllDocs(bodies) == KnownOf(docs, loans)
    ensures Answered(bodies, posted, accept) && forall i :: 0 <= i < |bodies| ==> OneLoan(bodies[i], loans)
    ensures forall i, j :: 0 <= i < j < |bodies| ==> bodies[i].loan != bodies[j].loan
    ensures uploaded == Count(bodies, true) && failed == Count(bodies, false)
  {
    var groups := GroupByLoan(docs, loans);
    bodies, uploaded, failed := [], 0, 0;
    for k := 0 to |groups|
      invariant bodies == Posts(groups[..k], posted, accept)
      invariant uploaded == Count(bodies, true) && failed == Count(bodies, false)
    {
      var (loan, batch) := groups[k];
      var body := Body(loan, batch, accept(posted + k));
      BodySnoc(bodies, body);
      PostsNext(groups, k, posted, accept);
      if body.accepted {
        uploaded := uploaded + |batch|;
      } else {
        failed := failed + |batch|;
      }
      bodies := bodies + [body];
    }
    assert groups[..|groups|] == groups;
    PostsHoldAll(groups, posted, accept);
    forall i | 0 <= i < |bodies|
      ensures OneLoan(bodies[i], loans)
    {
      assert OfOneLoan(groups[i], loans);
    }
  }

  // ---- the sweep

  /** The lower bound of what is swept: the initial bound, or the first window end
      when the sweep starts before it. */
  function Lower(ends: seq<Time>): Time {
    if ends == [] then 0 else Min(0, ends[0])
  }

  function LastEnd(ends: seq<Time>): Time {
    if ends == [] then 0 else ends[|ends|-1]
  }

  /** What the bodies hold after the windows with the given ends. */
  predicate Swept(docs: seq<Doc>, loans: set<string>, ends: seq<Time>, bodies: seq<Body>) {
    AllDocs(bodies) == Eligible(docs, Lower(ends), LastEnd(ends), loans) &&
    forall i :: 0 <= i < |bodies| ==> OneLoan(bodies[i], loans)
  }

  lemma SweptNext(docs: seq<Doc>, loans: set<string>, ends: seq<Time>, bodies: seq<Body>, end: Time, more: seq<Body>)
    requires Swept(docs, loans, ends, bodies) && Increasing(ends + [end])
    requires AllDocs(more) == Eligible(docs, LastEnd(ends), end, loans)
    requires forall i :: 0 <= i < |more| ==> OneLoan(more[i], loans)
    ensures Swept(docs, loans, ends + [end], bodies + more)
  {
    AllDocsAppend(bodies, more);
    if ends == [] {
      FirstWindow(docs, end, loans);
    } else {
      EndsOrdered(ends, end);
      WindowsMeet(docs, Lower(ends), LastEnd(ends), end, loans);
    }
  }

  lemma EndsOrdered(ends: seq<Time>, end: Time)
    requires ends != [] && Increasing(ends + [end])
    ensures Lower(ends + [end]) == Lower(ends) <= LastEnd(ends) <= end == LastEnd(ends + [end])
  {
    var all := ends + [end];
    assert all[0] == ends[0] && all[|ends|-1] == ends[|ends|-1] && all[|ends|] == end;
    assert |ends| > 1 ==> all[0] < all[|ends|-1];
  }

  /** The first window, also when it ends before the initial bound. */
  lemma FirstWindow(docs: seq<Doc>, end: Time, loans: set<string>)
    ensures Eligible(docs, 0, 0, loans) == multiset{}
    ensures Eligible(docs, 0, end, loans) == Eligible(docs, Lower([end]), LastEnd([end]), loans)
  {
    EmptyWindow(docs, 0, loans);
    if end < 0 {
      BackwardWindow(docs, 0, end, loans);
      EmptyWindow(docs, end, loans);
    }
  }

  lemma {:induction false} BackwardWindow(docs: seq<Doc>, a: Time, b: Time, loans: set<string>)
    requires b <= a
    ensures Eligible(docs, a, b, loans) == multiset{}
  {
    if docs != [] {
      BackwardWindow(docs[..|docs|-1], a, b, loans);
    }
  }

  lemma AnsweredAppend(bodies: seq<Body>, more: seq<Body>, accept: nat -> bool)
    requires Answered(bodies, 0, accept) && Answered(more, |bodies|, accept)
    ensures Answered(bodies + more, 0, accept)
  {
    forall i | 0 <= i < |bodies + more|
      ensures (bodies + more)[i].accepted == accept(0 + i)
    {
      if i >= |bodies| {
        assert more[i - |bodies|].accepted == accept(|bodies| + (i - |bodies|));
      } else {
        assert bodies[i].accepted == accept(0 + i);
      }
    }
  }

  /** So many more documents have been uploaded, and so many more have failed. */
  predicate Tallied(before: seq<Body>, after: seq<Body>, uploaded: nat, failed: nat) {
    Count(after, true) == Count(before, true) + uploaded && Count(after, false) == Count(before, false) + failed
  }

  lemma TalliedAdds(a: seq<Body>, b: seq<Body>, c: seq<Body>, up: nat, down: nat, up': nat, down': nat)
    requires Tallied(a, b, up, down) && Tallied(b, c, up', down')
    ensures Tallied(a, c, up + up', down + down')
  {
  }

  /** One window: its documents, from the last window end on, are posted. */
  method SweepWindow(docs: seq<Doc>, loans: set<string>, windowEnd: Time, accept: nat -> bool,
                     bodies0: seq<Body>, ghost ends: seq<Time>, lastWindowEnd: Time)
    returns (bodies: seq<Body>, uploaded: nat, failed: nat)
    requires Swept(docs, loans, ends, bodies0) && Increasing(ends + [windowEnd]) && lastWindowEnd == LastEnd(ends)
    requires Answered(bodies0, 0, accept)
    ensures Answered(bodies, 0, accept)
    ensures Swept(docs, loans, ends + [windowEnd], bodies) && Tallied(bodies0, bodies, uploaded, failed)
  {
    var windowDocs := DocsInWindow(docs, lastWindowEnd, windowEnd);
    var more;
    more, uploaded, failed := UploadWindow(windowDocs, loans, |bodies0|, accept);
    SweptNext(docs, loans, ends, bodies0, windowEnd, more);
    AnsweredAppend(bodies0, more, accept);
    CountAppend(bodies0, more, true);
    CountAppend(bodies0, more, false);
    bodies := bodies0 + more;
  }

  /** The windows of one day, up to one with an hour past 23. */
  method SweepDay(docs: seq<Doc>, loans: set<string>, day: int, clocks: seq<nat>, accept: nat -> bool,
                  bodies0: seq<Body>, ends0: seq<Time>)
    returns (bodies: seq<Body>, ends: seq<Time>, uploaded: nat, failed: nat, done: nat)
    requires Swept(docs, loans, ends0, bodies0) && Increasing(ends0 + DayEnds(day, clocks)) && Answered(bodies0, 0, accept)
    ensures Answered(bodies, 0, accept)
    ensures done <= |clocks| && ends == ends0 + DayEnds(day, clocks[..done]) && Swept(docs, loans, ends, bodies)
    ensures (forall j :: 0 <= j < done ==> clocks[j] <= 23) && (done < |clocks| ==> clocks[done] > 23)
    ensures Tallied(bodies0, bodies, uploaded, failed)
  {
    bodies, ends, uploaded, failed, done := bodies0, ends0, 0, 0, 0;
    ghost var all := DayEnds(day, clocks);
    while done < |clocks| && clocks[done] <= 23
      invariant done <= |clocks| && ends == ends0 + all[..done]
      invariant Swept(docs, loans, ends, bodies)
      invariant forall j :: 0 <= j < done ==> clocks[j] <= 23
      invariant Tallied(bodies0, bodies, uploaded, failed) && Answered(bodies, 0, accept)
    {
      ghost var before := bodies;
      var windowEnd := WindowEnd(day, clocks[done]);
      EndsGo(ends0, all, done);
      var up, down;
      bodies, up, down := SweepWindow(docs, loans, windowEnd, accept, bodies, ends, LastEnd(ends));
      TalliedAdds(bodies0, before, bodies, uploaded, failed, up, down);
      ends := ends + [windowEnd];
      uploaded, failed := uploaded + up, failed + down;
      done := done + 1;
    }
    DayEndsPrefix(day, clocks, done);
  }

  lemma EndsGo(ends: seq<Time>, more: seq<Time>, i: nat)
    requires i < |more| && Increasing(ends + more)
    ensures ends + more[..i+1] == ends + more[..i] + [more[i]] && Increasing(ends + more[..i] + [more[i]])
  {
    var some := ends + more[..i] + [more[i]];
    assert forall j :: 0 <= j < |some| ==> some[j] == (ends + more)[j];
  }

  lemma DayEndsPrefix(day: int, clocks: seq<nat>, done: nat)
    requires done <= |clocks|
    ensures DayEnds(day, clocks)[..done] == DayEnds(day, clocks[..done])
  {
  }

  /** The windows of a whole sweep; an hour past 23 is no time of day and ends it. */
  method Sweep(docs: seq<Doc>, loans: set<string>, from: int, to: int, buildsPerDay: int, accept: nat -> bool)
    returns (bodies: seq<Body>, uploaded: nat, failed: nat, ends: seq<Time>, crashed: bool)
    ensures Swept(docs, loans, ends, bodies) && Answered(bodies, 0, accept)
    ensures uploaded == Count(bodies, true) && failed == Count(bodies, false)
    ensures uploaded + failed == |Eligible(docs, Lower(ends), LastEnd(ends), loans)|
    ensures crashed <==> from <= to && buildsPerDay > 15
    ensures !crashed ==> ends == WindowEnds(from, to, BuildClocks(buildsPerDay))
    ensures !crashed && from <= to ==>
      HoldsExactly(AllDocs(bodies), docs, Min(0, HourEnd(from, FirstHour(buildsPerDay))),
                   HourEnd(to, LastHour(buildsPerDay)), loans)
    ensures crashed ==> ends == DayEnds(from, BuildClocks(buildsPerDay)[..15])
  {
    var clocks := BuildClocks(buildsPerDay);
    bodies, uploaded, failed, ends, crashed := [], 0, 0, [], false;
    EmptyWindow(docs, 0, loans);
    var day := from;
    while day <= to
      invariant from <= day && ends == WindowEnds(from, day - 1, clocks)
      invariant day > from ==> day <= to + 1 && buildsPerDay <= 15
      invariant Swept(docs, loans, ends, bodies) && Answered(bodies, 0, accept)
      invariant uploaded == Count(bodies, true) && failed == Count(bodies, false)
      decreases 1 + to - day
    {
      EndsGrow(from, day, buildsPerDay, ends);
      var up, down, done;
      bodies, ends, up, down, done := SweepDay(docs, loans, day, clocks, accept, bodies, ends);
      uploaded, failed := uploaded + up, failed + down;
      HoursOfDay(buildsPerDay, done);
      if done < |clocks| {
        crashed := true;
        CountsAddUp(bodies);
        return;
      }
      assert clocks[..done] == clocks;
      day := day + 1;
    }
    CountsAddUp(bodies);
    if from <= to {
      SweepCovers(docs, loans, from, to, buildsPerDay, bodies);
    }
  }

  /** The last second of an hour of a day. */
  function HourEnd(day: int, hour: int): Time {
    day * 86_400_000_000 + hour * 3_600_000_000 + 3_599_000_000
  }

  /** What a whole sweep covers: from the initial bound, or the end of its first window
      if that is earlier, to the last second of its last clock's hour. */
  lemma SweepCovers(docs: seq<Doc>, loans: set<string>, from: int, to: int, buildsPerDay: int, bodies: seq<Body>)
    requires from <= to && buildsPerDay <= 15
    requires Swept(docs, loans, WindowEnds(from, to, BuildClocks(buildsPerDay)), bodies)
    ensures HoldsExactly(AllDocs(bodies), docs, Min(0, HourEnd(from, FirstHour(buildsPerDay))),
                         HourEnd(to, LastHour(buildsPerDay)), loans)
  {
    var clocks := BuildClocks(buildsPerDay);
    var ends := WindowEnds(from, to, clocks);
    ClocksSpread(buildsPerDay);
    FirstEnd(from, to, clocks);
    EligibleHoldsExactly(docs, Lower(ends), LastEnd(ends), loans);
  }

  lemma {:induction false} FirstEnd(from: int, to: int, clocks: seq<nat>)
    requires from <= to && clocks != []
    ensures var ends := WindowEnds(from, to, clocks);
      ends != [] && ends[0] == HourEnd(from, clocks[0]) && ends[|ends|-1] == HourEnd(to, clocks[|clocks|-1])
    decreases 0 + to - from
  {
    if from < to {
      FirstEnd(from, to - 1, clocks);
    }
  }

  /** The first hour that is no hour of the day, if any, is the sixteenth. */
  lemma HoursOfDay(buildsPerDay: int, done: nat)
    requires var clocks := BuildClocks(buildsPerDay);
      done <= |clocks| && (forall j :: 0 <= j < done ==> clocks[j] <= 23) && (done < |clocks| ==> clocks[done] > 23)
    ensures var clocks := BuildClocks(buildsPerDay);
      (done < |clocks| <==> buildsPerDay > 15) && (done < |clocks| ==> done == 15)
  {
    var clocks := BuildClocks(buildsPerDay);
    ClocksOfDay(buildsPerDay);
    if buildsPerDay > 15 {
      StepOf(buildsPerDay);
      assert clocks[15] == 24 && clocks[14] == 23;
      assert forall j :: 0 <= j < |clocks| ==> clocks[j] == 9 + j;
    }
  }

  /** The ends so far, with those of the next day, increase. */
  lemma EndsGrow(from: int, day: int, buildsPerDay: int, earlier: seq<Time>)
    requires from <= day && earlier == WindowEnds(from, day - 1, BuildClocks(buildsPerDay))
    requires day > from ==> buildsPerDay <= 15
    ensures Increasing(earlier + DayEnds(day, BuildClocks(buildsPerDay)))
  {
    var clocks := BuildClocks(buildsPerDay);
    ClocksOfDay(buildsPerDay);
    if day > from {
      WindowEndsIncrease(from, day - 1, buildsPerDay);
    } else {
      assert earlier == [];
    }
  }
}
