/** The availability search: one query per search window, the results
    gathered in window order with the first failure aborting everything, and
    the gathered slots sorted by start time and then by room code. */
module Availability {
  import opened Wrappers
  import opened Clock
  import opened Garoon
  import opened Planner

  /** The room-match mode: any one of the candidate rooms will do. */
  const AnyFacility := "OR"

  /** The queries for a meeting: one per planned window, each carrying only
      that window, the meeting's length in minutes, its attendees, the
      candidate rooms and the "OR" room-match mode. */
  function Queries(ev: Event, facilities: seq<Facility>, nowHour: Hour): (qs: seq<AvailableTimeParameter>)
    ensures var ranges := Plan(Day(ev.end), nowHour, LastOffset + 1);
      && |qs| == |ranges|
      && forall k :: 0 <= k < |qs| ==>
           && qs[k].timeRanges == [ranges[k]]
           && qs[k].timeInterval == ev.end - ev.start
           && qs[k].attendees == ev.attendees
           && qs[k].facilities == facilities
           && qs[k].facilitySearchCondition == AnyFacility
  {
    var ranges := Plan(Day(ev.end), nowHour, LastOffset + 1);
    seq(|ranges|, k requires 0 <= k < |ranges| =>
      AvailableTimeParameter([ranges[k]], ev.end - ev.start, ev.attendees, facilities, AnyFacility))
  }

  /** buildAvailableTimeParameters. */
  method BuildAvailableTimeParameters(ev: Event, facilities: seq<Facility>, nowHour: Hour)
    returns (params: seq<AvailableTimeParameter>)
    ensures params == Queries(ev, facilities, nowHour)
  {
    var ranges := BuildTimeRanges(ev.end, nowHour);
    var interval := ev.end - ev.start;
    params := [];
    for k := 0 to |ranges|
      invariant params == Queries(ev, facilities, nowHour)[..k]
    {
      var param := AvailableTimeParameter([ranges[k]], interval, ev.attendees, facilities, AnyFacility);
      params := params + [param];
    }
  }

  // ---------------------------------------------------------------------
  // Fan-out

  /** What running the queries in order yields: the concatenation of their
      results, or the error of the first query that fails. */
  function Gather(queries: seq<AvailableTimeParameter>,
                  search: AvailableTimeParameter -> Result<seq<AvailableTime>>): (r: Result<seq<AvailableTime>>)
    ensures r.Err? ==> exists k :: 0 <= k < |queries| && search(queries[k]) == Err(r.error)
                                  && forall j :: 0 <= j < k ==> search(queries[j]).Ok?
  {
    if queries == [] then Ok([])
    else match search(queries[0])
      case Err(e) => Err(e)
      case Ok(ts) =>
        match Gather(queries[1..], search)
        case Err(e) => Err(e)
        case Ok(rest) => Ok(ts + rest)
  }

  /** The gathered result succeeds exactly when every query does, and then
      every slot comes from some query's answer and every answered slot is
      there. */
  lemma {:induction false} GatherFacts(queries: seq<AvailableTimeParameter>,
                                       search: AvailableTimeParameter -> Result<seq<AvailableTime>>)
    ensures Gather(queries, search).Ok? <==> forall k :: 0 <= k < |queries| ==> search(queries[k]).Ok?
    ensures Gather(queries, search).Ok? ==>
      forall t :: t in Gather(queries, search).value <==>
        exists k :: 0 <= k < |queries| && t in search(queries[k]).value
  {
    if queries != [] {
      GatherFacts(queries[1..], search);
      var g := Gather(queries, search);
      if g.Ok? {
        var ts := search(queries[0]).value;
        var rest := Gather(queries[1..], search).value;
        assert g.value == ts + rest;
        forall t | t in g.value
          ensures exists k :: 0 <= k < |queries| && t in search(queries[k]).value
        {
          if t !in ts {
            var k :| 0 <= k < |queries[1..]| && t in search(queries[1..][k]).value;
            assert t in search(queries[k + 1]).value;
          }
        }
        forall t, k | 0 <= k < |queries| && t in search(queries[k]).value
          ensures t in g.value
        {
          if k > 0 {
            assert queries[k] == queries[1..][k - 1];
          }
        }
      } else {
        if search(queries[0]).Ok? {
          var k :| 0 <= k < |queries[1..]| && !search(queries[1..][k]).Ok?;
          assert !search(queries[k + 1]).Ok?;
        }
      }
    }
  }

  /** One step of the query loop: a successful query moves its answer from
      the rest of the run into the accumulated prefix. */
  lemma GatherStep(queries: seq<AvailableTimeParameter>,
                   search: AvailableTimeParameter -> Result<seq<AvailableTime>>,
                   i: nat, acc: seq<AvailableTime>)
    requires i < |queries| && search(queries[i]).Ok?
    requires Gather(queries, search) == Prefixed(acc, Gather(queries[i..], search))
    ensures Gather(queries, search) == Prefixed(acc + search(queries[i]).value, Gather(queries[i + 1..], search))
  {
    var here := queries[i..];
    var ts := search(queries[i]).value;
    assert here[0] == queries[i] && here[1..] == queries[i + 1..];
    GatherUnfold(here, search);
    PrefixedTwice(acc, ts, Gather(queries[i + 1..], search));
  }

  /** Gather of a run whose first query succeeds: that answer, then the rest. */
  lemma GatherUnfold(queries: seq<AvailableTimeParameter>,
                     search: AvailableTimeParameter -> Result<seq<AvailableTime>>)
    requires queries != [] && search(queries[0]).Ok?
    ensures Gather(queries, search) == Prefixed(search(queries[0]).value, Gather(queries[1..], search))
  {
  }

  lemma PrefixedTwice(acc: seq<AvailableTime>, ts: seq<AvailableTime>, r: Result<seq<AvailableTime>>)
    ensures Prefixed(acc, Prefixed(ts, r)) == Prefixed(acc + ts, r)
  {
    if r.Ok? {
      assert acc + (ts + r.value) == (acc + ts) + r.value;
    }
  }

  /** `r` with `acc` put in front of its slots. */
  function Prefixed(acc: seq<AvailableTime>, r: Result<seq<AvailableTime>>): Result<seq<AvailableTime>>
  {
    match r
    case Err(e) => Err(e)
    case Ok(ts) => Ok(acc + ts)
  }

  /** The query loop of searchAvailableTimes: one call per query, in order,
      stopping at the first failure. `issued` lists the calls made. */
  method SearchEach(queries: seq<AvailableTimeParameter>,
                    search: AvailableTimeParameter -> Result<seq<AvailableTime>>)
    returns (r: Result<seq<AvailableTime>>, issued: seq<AvailableTimeParameter>)
    ensures r == Gather(queries, search)
    ensures issued <= queries
    ensures r.Ok? ==> issued == queries
    ensures r.Err? ==>
      && |issued| > 0
      && search(issued[|issued| - 1]) == Err(r.error)
      && forall k :: 0 <= k < |issued| - 1 ==> search(issued[k]).Ok?
  {
    var found: seq<AvailableTime> := [];
    issued := [];
    var i := 0;
    assert queries[i..] == queries;
    match Gather(queries, search) {
      case Err(e) =>
      case Ok(ts) => assert found + ts == ts;
    }
    while i < |queries|
      invariant 0 <= i <= |queries|
      invariant issued == queries[..i]
      invariant forall k :: 0 <= k < i ==> search(queries[k]).Ok?
      invariant Gather(queries, search) == Prefixed(found, Gather(queries[i..], search))
    {
      var page := search(queries[i]);
      issued := issued + [queries[i]];
      if page.Err? {
        r := Err(page.error);
        return;
      }
      GatherStep(queries, search, i, found);
      found := found + page.value;
      i := i + 1;
    }
    r := Ok(found);
    assert found + [] == found;
  }

  // ---------------------------------------------------------------------
  // Ordering

  /** Go's `<` on strings. Go compares the UTF-8 bytes, and UTF-8 byte order
      is code-point order, so comparing characters as numbers agrees. */
  predicate LexLess(a: string, b: string)
    ensures LexLess(a, b) ==> a != b
    ensures a < b ==> LexLess(a, b)
  {
    if a == [] then b != []
    else if b == [] then false
    else if a[0] != b[0] then (a[0] as int) < (b[0] as int)
    else LexLess(a[1..], b[1..])
  }

  lemma {:induction false} LexLessIrreflexive(a: string)
    ensures !LexLess(a, a)
  {
    if a != [] {
      LexLessIrreflexive(a[1..]);
    }
  }

  lemma {:induction false} LexLessTransitive(a: string, b: string, c: string)
    requires LexLess(a, b) && LexLess(b, c)
    ensures LexLess(a, c)
  {
    if a != [] && b != [] && c != [] && a[0] == b[0] == c[0] {
      LexLessTransitive(a[1..], b[1..], c[1..]);
    }
  }

  lemma {:induction false} LexLessTotal(a: string, b: string)
    requires a != b
    ensures LexLess(a, b) || LexLess(b, a)
  {
    if a != [] && b != [] && a[0] == b[0] {
      assert a == [a[0]] + a[1..] && b == [b[0]] + b[1..];
      LexLessTotal(a[1..], b[1..]);
    }
  }

  /** AvailableTimes.Less: earlier start first, equal starts by room code. */
  predicate Less(x: AvailableTime, y: AvailableTime)
    ensures x.start < y.start ==> Less(x, y)
    ensures Less(x, y) ==> x.start <= y.start
    ensures Less(x, y) ==> x.start < y.start || x.facility.code != y.facility.code
  {
    if x.start == y.start then LexLess(x.facility.code, y.facility.code) else x.start < y.start
  }

  /** `x` may stand before `y` in sorted order. */
  predicate NotAfter(x: AvailableTime, y: AvailableTime)
  {
    !Less(y, x)
  }

  lemma LessAsymmetric(x: AvailableTime, y: AvailableTime)
    requires Less(x, y)
    ensures NotAfter(x, y)
  {
    if x.start == y.start && LexLess(y.facility.code, x.facility.code) {
      LexLessTransitive(x.facility.code, y.facility.code, x.facility.code);
      LexLessIrreflexive(x.facility.code);
    }
  }

  lemma NotAfterTransitive(x: AvailableTime, y: AvailableTime, z: AvailableTime)
    requires NotAfter(x, y) && NotAfter(y, z)
    ensures NotAfter(x, z)
  {
    if x.start == y.start == z.start {
      var a, b, c := x.facility.code, y.facility.code, z.facility.code;
      if LexLess(c, a) && a != b {
        LexLessTotal(a, b);
        LexLessTransitive(c, a, b);
      }
    }
  }

  /** Sorted as sort.Sort leaves an AvailableTimes: no slot is Less than one
      before it. */
  ghost predicate Sorted(ts: seq<AvailableTime>)
  {
    forall i, j :: 0 <= i < j < |ts| ==> NotAfter(ts[i], ts[j])
  }

  /** In a sorted list each neighbour starts later, or at the same time with
      a room code that is not smaller. */
  lemma SortedNeighbours(ts: seq<AvailableTime>)
    requires Sorted(ts)
    ensures forall k :: 0 <= k < |ts| - 1 ==>
      || ts[k].start < ts[k + 1].start
      || (ts[k].start == ts[k + 1].start
          && (ts[k].facility.code == ts[k + 1].facility.code
              || LexLess(ts[k].facility.code, ts[k + 1].facility.code)))
  {
    forall k | 0 <= k < |ts| - 1
      ensures || ts[k].start < ts[k + 1].start
              || (ts[k].start == ts[k + 1].start
                  && (ts[k].facility.code == ts[k + 1].facility.code
                      || LexLess(ts[k].facility.code, ts[k + 1].facility.code)))
    {
      assert NotAfter(ts[k], ts[k + 1]);
      if ts[k].facility.code != ts[k + 1].facility.code {
        LexLessTotal(ts[k].facility.code, ts[k + 1].facility.code);
      }
    }
  }

  /** Exchanges two elements of the array (AvailableTimes.Swap). */
  method Swap(a: array<AvailableTime>, i: nat, j: nat)
    requires i < a.Length && j < a.Length
    modifies a
    ensures a[..] == old(a[..])[i := old(a[j])][j := old(a[i])]
    ensures multiset(a[..]) == old(multiset(a[..]))
  {
    a[i], a[j] := a[j], a[i];
  }

  /** sort.Sort(availableTimes): sorts the slots in place. Go's sort.Sort is
      not stable; what it promises, and what is proved here, is a sorted
      permutation. */
  method SortAvailableTimes(a: array<AvailableTime>)
    modifies a
    ensures Sorted(a[..])
    ensures multiset(a[..]) == old(multiset(a[..]))
  {
    for i := 0 to a.Length
      invariant Sorted(a[..i])
      invariant multiset(a[..]) == old(multiset(a[..]))
    {
      var j := i;
      while j > 0 && Less(a[j], a[j - 1])
        invariant 0 <= j <= i
        invariant multiset(a[..]) == old(multiset(a[..]))
        invariant forall p, q :: 0 <= p < q <= i && p != j && q != j ==> NotAfter(a[p], a[q])
        invariant forall q :: j < q <= i ==> Less(a[j], a[q])
      {
        Swap(a, j - 1, j);
        j := j - 1;
      }
      forall p, q | 0 <= p < q <= i
        ensures NotAfter(a[p], a[q])
      {
        if q == j {
          if p < j - 1 {
            NotAfterTransitive(a[p], a[j - 1], a[j]);
          }
        } else if p == j {
          LessAsymmetric(a[j], a[q]);
        }
      }
    }
  }
}
