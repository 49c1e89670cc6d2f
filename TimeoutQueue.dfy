/** The manager's priority queue of deadlines (java.util.PriorityQueue of Long),
    kept as a sequence sorted in ascending order: its head is the queue's peek(). */
module TimeoutQueue {

  predicate Sorted(s: seq<int>) {
    forall i, j :: 0 <= i < j < |s| ==> s[i] <= s[j]
  }

  /** add(x). */
  function Insert(s: seq<int>, x: int): (r: seq<int>)
    ensures multiset(r) == multiset(s) + multiset{x}
    ensures |r| == |s| + 1
  {
    if s == [] || x <= s[0] then [x] + s
    else
      assert s == [s[0]] + s[1..];
      [s[0]] + Insert(s[1..], x)
  }

  lemma {:induction false} InsertSorted(s: seq<int>, x: int)
    requires Sorted(s)
    ensures Sorted(Insert(s, x))
    decreases |s|
  {
    if s != [] && x > s[0] {
      InsertSorted(s[1..], x);
      var r := Insert(s, x);
      var t := Insert(s[1..], x);
      forall k | 0 <= k < |t| ensures s[0] <= t[k] {
        assert t[k] in multiset(t);
        assert t[k] in multiset(s[1..]) || t[k] == x;
        if t[k] != x {
          var m :| 0 <= m < |s[1..]| && s[1..][m] == t[k];
          assert s[m + 1] == t[k];
        }
      }
    }
  }

  /** remove(x): takes out one occurrence of x, if there is one. */
  function RemoveOne(s: seq<int>, x: int): (r: seq<int>)
    ensures multiset(r) == multiset(s) - multiset{x}
  {
    if s == [] then []
    else if s[0] == x then
      assert s == [s[0]] + s[1..];
      s[1..]
    else
      assert s == [s[0]] + s[1..];
      [s[0]] + RemoveOne(s[1..], x)
  }

  lemma {:induction false} RemoveOneSorted(s: seq<int>, x: int)
    requires Sorted(s)
    ensures Sorted(RemoveOne(s, x))
    decreases |s|
  {
    if s != [] && s[0] != x {
      RemoveOneSorted(s[1..], x);
      var t := RemoveOne(s[1..], x);
      forall k | 0 <= k < |t| ensures s[0] <= t[k] {
        assert t[k] in multiset(t);
        var m :| 0 <= m < |s[1..]| && s[1..][m] == t[k];
        assert s[m + 1] == t[k];
      }
    }
  }

  /** The deadlines nextTimeout discards: it polls the head while it is not in the future. */
  function DropDue(s: seq<int>, now: int): (r: seq<int>)
    ensures |r| <= |s|
  {
    if s == [] || s[0] > now then s else DropDue(s[1..], now)
  }

  /** What DropDue keeps is a suffix of the queue. */
  lemma {:induction false} DropDueSuffix(s: seq<int>, now: int)
    ensures DropDue(s, now) == s[|s| - |DropDue(s, now)|..]
    decreases |s|
  {
    if s != [] && s[0] <= now {
      DropDueSuffix(s[1..], now);
      assert s[1..][|s| - 1 - |DropDue(s, now)|..] == s[|s| - |DropDue(s, now)|..];
    }
  }

  lemma SortedTail(s: seq<int>)
    requires Sorted(s) && s != []
    ensures Sorted(s[1..])
  {
    forall i, j | 0 <= i < j < |s| - 1 ensures s[1..][i] <= s[1..][j] {
      assert s[1..][i] == s[i + 1] && s[1..][j] == s[j + 1];
    }
  }

  /** What nextTimeout leaves is still a sorted queue: a suffix of one. */
  lemma DropDueSorted(s: seq<int>, now: int)
    requires Sorted(s)
    ensures Sorted(DropDue(s, now))
  {
    var r := DropDue(s, now);
    var d := |s| - |r|;
    DropDueSuffix(s, now);
    forall i, j | 0 <= i < j < |r| ensures r[i] <= r[j] {
      assert r[i] == s[d + i] && r[j] == s[d + j];
    }
  }

  /** On a sorted queue, dropping the due head keeps exactly the deadlines after now. */
  lemma {:induction false} DropDueCount(s: seq<int>, now: int, t: int)
    requires Sorted(s)
    ensures multiset(DropDue(s, now))[t] == if t > now then multiset(s)[t] else 0
    decreases |s|
  {
    if s == [] {
    } else if s[0] > now {
    } else {
      SortedTail(s);
      DropDueCount(s[1..], now, t);
      assert s == [s[0]] + s[1..];
      assert multiset(s)[t] == multiset{s[0]}[t] + multiset(s[1..])[t];
    }
  }

  lemma DropDueKeepsFuture(s: seq<int>, now: int)
    requires Sorted(s)
    ensures Sorted(DropDue(s, now))
    ensures forall t :: multiset(DropDue(s, now))[t] == if t > now then multiset(s)[t] else 0
  {
    DropDueSorted(s, now);
    forall t ensures multiset(DropDue(s, now))[t] == if t > now then multiset(s)[t] else 0 {
      DropDueCount(s, now, t);
    }
  }
}
