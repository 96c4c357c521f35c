/** Ordering of timed events by relative time, as done by
    `sorted { $0.relativeTime < $1.relativeTime }`. It is modelled as a
    stable sort: events with equal times keep their relative order. */
module EventOrder {
  import opened HapticxEvent

  predicate SortedByTime(s: seq<Event>)
    requires AllTimed(s)
  {
    forall i, j :: 0 <= i < j < |s| ==> s[i].RelativeTime() <= s[j].RelativeTime()
  }

  /** Every element of `s` is scheduled no earlier than `t`. */
  predicate NotBefore(s: seq<Event>, t: real)
    requires AllTimed(s)
  {
    forall x :: x in s ==> t <= x.RelativeTime()
  }

  lemma SortedCons(x: Event, s: seq<Event>)
    requires !x.Wait? && AllTimed(s) && SortedByTime(s) && NotBefore(s, x.RelativeTime())
    ensures AllTimed([x] + s) && SortedByTime([x] + s)
  {
    var r := [x] + s;
    forall i, j | 0 <= i < j < |r| ensures r[i].RelativeTime() <= r[j].RelativeTime() {
      assert r[j] == s[j - 1];
      if i > 0 { assert r[i] == s[i - 1]; }
    }
  }

  /** Inserts `e` before the first element that is not earlier than it. */
  function InsertByTime(e: Event, s: seq<Event>): (r: seq<Event>)
    requires !e.Wait? && AllTimed(s)
    ensures multiset(r) == multiset(s) + multiset{e}
    ensures |r| == |s| + 1
    ensures forall x :: x in r ==> x == e || x in s
    ensures AllTimed(r)
    ensures SortedByTime(s) ==> SortedByTime(r)
  {
    if s == [] || e.RelativeTime() <= s[0].RelativeTime() then
      var r := [e] + s;
      assert SortedByTime(s) ==> NotBefore(s, e.RelativeTime()) by {
        if SortedByTime(s) && s != [] {
          forall x | x in s ensures e.RelativeTime() <= x.RelativeTime() {
            var k :| 0 <= k < |s| && s[k] == x;
            assert s[0].RelativeTime() <= s[k].RelativeTime();
          }
        }
      }
      if SortedByTime(s) then SortedCons(e, s); r else r
    else
      var rest := InsertByTime(e, s[1..]);
      assert s == [s[0]] + s[1..];
      var r := [s[0]] + rest;
      assert SortedByTime(s) ==> SortedByTime(r) by {
        if SortedByTime(s) {
          assert SortedByTime(s[1..]);
          forall x | x in rest ensures s[0].RelativeTime() <= x.RelativeTime() {
            if x != e {
              var k :| 0 <= k < |s[1..]| && s[1..][k] == x;
              assert s[k + 1] == x;
            }
          }
          SortedCons(s[0], rest);
        }
      }
      r
  }

  /** Insertion sort by relative time. */
  function SortByTime(s: seq<Event>): (r: seq<Event>)
    requires AllTimed(s)
    ensures multiset(r) == multiset(s)
    ensures |r| == |s|
    ensures AllTimed(r)
    ensures SortedByTime(r)
  {
    if s == [] then []
    else
      assert s == [s[0]] + s[1..];
      var r := InsertByTime(s[0], SortByTime(s[1..]));
      assert |r| == |multiset(r)|;
      r
  }

  /** The events of `s` scheduled at time `t`, in order. */
  function AtTime(s: seq<Event>, t: real): seq<Event>
    requires AllTimed(s)
  {
    if s == [] then []
    else (if s[0].RelativeTime() == t then [s[0]] else []) + AtTime(s[1..], t)
  }

  lemma {:induction false} InsertStable(e: Event, s: seq<Event>, t: real)
    requires !e.Wait? && AllTimed(s)
    ensures AtTime(InsertByTime(e, s), t) == (if e.RelativeTime() == t then [e] else []) + AtTime(s, t)
  {
    if s == [] || e.RelativeTime() <= s[0].RelativeTime() {
      assert ([e] + s)[1..] == s;
    } else {
      var r := InsertByTime(e, s);
      assert r[0] == s[0] && r[1..] == InsertByTime(e, s[1..]);
      InsertStable(e, s[1..], t);
    }
  }

  /** Stability: for every time, the events at that time come out in the
      order they went in. */
  lemma {:induction false} SortStable(s: seq<Event>, t: real)
    requires AllTimed(s)
    ensures AtTime(SortByTime(s), t) == AtTime(s, t)
  {
    if s != [] {
      SortStable(s[1..], t);
      InsertStable(s[0], SortByTime(s[1..]), t);
    }
  }

  /** A list that is already in time order is left exactly as it is. */
  lemma {:induction false} SortOfSorted(s: seq<Event>)
    requires AllTimed(s) && SortedByTime(s)
    ensures SortByTime(s) == s
  {
    if s != [] {
      var tail := s[1..];
      assert s == [s[0]] + tail;
      assert AllTimed(tail) by {
        forall e | e in tail ensures !e.Wait? { assert e in s; }
      }
      assert SortedByTime(tail) by {
        forall i, j | 0 <= i < j < |tail| ensures tail[i].RelativeTime() <= tail[j].RelativeTime() {
          assert tail[i] == s[i + 1] && tail[j] == s[j + 1];
        }
      }
      SortOfSorted(tail);
      if tail != [] {
        assert tail[0] == s[1] && s[0].RelativeTime() <= s[1].RelativeTime();
      }
      assert InsertByTime(s[0], tail) == [s[0]] + tail;
    }
  }

  lemma SortIdempotent(s: seq<Event>)
    requires AllTimed(s)
    ensures SortByTime(SortByTime(s)) == SortByTime(s)
  {
    SortOfSorted(SortByTime(s));
  }
}
