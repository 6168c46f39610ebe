/** The one-buffer-in-flight release protocol shared by both back-ends, as a specification:
    every successful Show(fd) first hands the previously shown fd (when it is >= 0) to the
    producer's done callback and then remembers fd as the one on screen. Reset forgets the
    remembered fd without releasing it. Also: the ascending key order in which the back-ends
    walk their `std::map` caches. */
module Reclaim {

  /** The fd remembered after showing `shown` starting from `last`. */
  function LastOf(last: int, shown: seq<int>): int
  {
    if shown == [] then last else shown[|shown| - 1]
  }

  /** `last_fd_` after showing `shown` from the idle state (-1: nothing is owed). */
  function LastShown(shown: seq<int>): int
  {
    LastOf(-1, shown)
  }

  /** The done-callback calls made while the fds of `shown` are shown one after another,
      starting with `last` remembered. */
  function Run(last: int, shown: seq<int>): seq<int>
    decreases |shown|
  {
    if shown == [] then []
    else (if last >= 0 then [last] else []) + Run(shown[0], shown[1..])
  }

  /** The done-callback calls made by showing `shown` from the idle state. */
  function ReleasesOf(shown: seq<int>): seq<int>
  {
    Run(-1, shown)
  }

  /** The fds of `s` that are >= 0, in order. */
  function NonNegative(s: seq<int>): seq<int>
  {
    if s == [] then []
    else (if s[0] >= 0 then [s[0]] else []) + NonNegative(s[1..])
  }

  lemma {:induction false} NonNegativeAppend(a: seq<int>, b: seq<int>)
    ensures NonNegative(a + b) == NonNegative(a) + NonNegative(b)
  {
    if a == [] {
      assert a + b == b;
    } else {
      assert (a + b)[1..] == a[1..] + b;
      NonNegativeAppend(a[1..], b);
    }
  }

  /** One more Show releases exactly the fd that was on screen before it, if any. */
  lemma {:induction false} RunStep(last: int, shown: seq<int>, fd: int)
    ensures Run(last, shown + [fd]) ==
            Run(last, shown) + (if LastOf(last, shown) >= 0 then [LastOf(last, shown)] else [])
    decreases |shown|
  {
    if shown != [] {
      assert (shown + [fd])[1..] == shown[1..] + [fd];
      RunStep(shown[0], shown[1..], fd);
    }
  }

  lemma ReleaseStep(shown: seq<int>, fd: int)
    ensures ReleasesOf(shown + [fd]) ==
            ReleasesOf(shown) + (if LastShown(shown) >= 0 then [LastShown(shown)] else [])
    ensures LastShown(shown + [fd]) == fd
  {
    RunStep(-1, shown, fd);
  }

  /** The releases are exactly the non-negative fds of every Show but the latest, in the
      order they were shown: a buffer is handed back only once a later Show has completed. */
  lemma {:induction false} ReleasesAreEarlierShows(shown: seq<int>)
    requires shown != []
    ensures ReleasesOf(shown) == NonNegative(shown[..|shown| - 1])
  {
    RunIsShifted(-1, shown);
    assert ([-1] + shown)[..|shown|] == [-1] + shown[..|shown| - 1];
  }

  lemma {:induction false} RunIsShifted(last: int, shown: seq<int>)
    ensures Run(last, shown) == NonNegative(([last] + shown)[..|shown|])
    decreases |shown|
  {
    if shown != [] {
      RunIsShifted(shown[0], shown[1..]);
      assert ([last] + shown)[..|shown|] == [last] + ([shown[0]] + shown[1..])[..|shown| - 1];
    }
  }

  /** Counting form: together with the fd still on screen, the releases are exactly the
      non-negative fds ever shown, each as many times as it was shown. */
  lemma ReleasedOncePerShow(shown: seq<int>)
    ensures multiset(ReleasesOf(shown)) + multiset(NonNegative([LastShown(shown)])) ==
            multiset(NonNegative(shown))
  {
    if shown != [] {
      var n := |shown| - 1;
      ReleasesAreEarlierShows(shown);
      assert shown == shown[..n] + [shown[n]];
      NonNegativeAppend(shown[..n], [shown[n]]);
    }
  }

  /** The fd is not compared with the one on screen: showing the same fd twice in a row hands
      it back to the producer while it is still the one displayed. */
  lemma SameFdTwice(shown: seq<int>, fd: int)
    requires fd >= 0 && LastShown(shown) == fd
    ensures ReleasesOf(shown + [fd]) == ReleasesOf(shown) + [fd]
    ensures LastShown(shown + [fd]) == fd
  {
    ReleaseStep(shown, fd);
  }

  /** A smallest element of a non-empty set of integers. */
  lemma {:induction false} MinExists(s: set<int>)
    requires s != {}
    ensures exists m :: m in s && forall k :: k in s ==> m <= k
    decreases |s|
  {
    if forall y :: y !in s { assert false; }
    var x :| x in s;
    if s != {x} {
      var rest := s - {x};
      MinExists(rest);
      var m :| m in rest && forall k :: k in rest ==> m <= k;
      var least := if x < m then x else m;
      forall k | k in s
        ensures least <= k
      {
        if k != x { assert k in rest; }
      }
    } else {
      assert forall k :: k in s ==> x <= k;
    }
  }

  /** The keys of a `std::map<int, ...>` in its iteration order: smallest first. */
  ghost function KeysAscending(s: set<int>): seq<int>
    decreases |s|
  {
    if s == {} then []
    else
      MinExists(s);
      var m :| m in s && forall k :: k in s ==> m <= k;
      [m] + KeysAscending(s - {m})
  }

  /** The iteration visits every key of the map, and nothing else, once. */
  lemma {:induction false} KeysAscendingMembers(s: set<int>)
    ensures |KeysAscending(s)| == |s|
    ensures forall i :: 0 <= i < |KeysAscending(s)| ==> KeysAscending(s)[i] in s
    ensures forall k :: k in s ==> k in KeysAscending(s)
    decreases |s|
  {
    if s != {} {
      var r := KeysAscending(s);
      var m := r[0];
      var rest := KeysAscending(s - {m});
      assert m in s && r == [m] + rest;
      KeysAscendingMembers(s - {m});
      assert |s - {m}| == |s| - 1;
      forall i | 0 <= i < |r|
        ensures r[i] in s
      {
        if i > 0 {
          assert r[i] == rest[i - 1];
        }
      }
      forall k | k in s
        ensures k in r
      {
        if k != m {
          assert k in s - {m};
          var j :| 0 <= j < |rest| && rest[j] == k;
          assert r[j + 1] == k;
        }
      }
    }
  }

  /** The keys come out in strictly increasing order. */
  lemma {:induction false} KeysAscendingSorted(s: set<int>)
    ensures forall i, j :: 0 <= i < j < |KeysAscending(s)| ==> KeysAscending(s)[i] < KeysAscending(s)[j]
    decreases |s|
  {
    if s != {} {
      var r := KeysAscending(s);
      var m := r[0];
      var rest := KeysAscending(s - {m});
      assert m in s && (forall k :: k in s ==> m <= k) && r == [m] + rest;
      KeysAscendingSorted(s - {m});
      KeysAscendingMembers(s - {m});
      forall i, j | 0 <= i < j < |r|
        ensures r[i] < r[j]
      {
        if i == 0 {
          assert r[j] == rest[j - 1] && rest[j - 1] in s - {m};
        } else {
          assert r[i] == rest[i - 1] && r[j] == rest[j - 1];
        }
      }
    }
  }
}
