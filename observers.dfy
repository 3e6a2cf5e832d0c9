/**
 * The observer list of a RequestManager: an ordered sequence of observer
 * identities, changed by attach (append unless present) and detach (remove
 * every occurrence, keeping the order of the rest).
 */
module Observers {
  import opened Effects

  /** No observer appears twice. */
  predicate NoDup(s: seq<ObserverId>) {
    forall i, j :: 0 <= i < j < |s| ==> s[i] != s[j]
  }

  /** The list after attach(o). */
  function Attached(s: seq<ObserverId>, o: ObserverId): (r: seq<ObserverId>) {
    if o in s then s else s + [o]
  }

  /** The list after detach(o): the erase-remove idiom. */
  function Detached(s: seq<ObserverId>, o: ObserverId): (r: seq<ObserverId>) {
    if s == [] then []
    else (if s[0] == o then [] else [s[0]]) + Detached(s[1..], o)
  }

  /** Attaching an observer that is present changes nothing, so attaching twice is attaching once. */
  lemma AttachIdempotent(s: seq<ObserverId>, o: ObserverId)
    ensures o in s ==> Attached(s, o) == s
    ensures Attached(Attached(s, o), o) == Attached(s, o)
  {
  }

  /** A new observer goes at the end, after the existing ones in their order. */
  lemma AttachAppends(s: seq<ObserverId>, o: ObserverId)
    ensures o !in s ==> Attached(s, o) == s + [o]
    ensures o in Attached(s, o)
  {
  }

  lemma AttachKeepsNoDup(s: seq<ObserverId>, o: ObserverId)
    requires NoDup(s)
    ensures NoDup(Attached(s, o))
  {
  }

  /** Detach works element by element: it distributes over concatenation. */
  lemma {:induction false} DetachedConcat(a: seq<ObserverId>, b: seq<ObserverId>, o: ObserverId)
    ensures Detached(a + b, o) == Detached(a, o) + Detached(b, o)
  {
    if a == [] {
      assert a + b == b;
    } else {
      assert (a + b)[1..] == a[1..] + b;
      DetachedConcat(a[1..], b, o);
    }
  }

  /** Detach removes exactly the occurrences of `o` and keeps every other observer as often as it was there. */
  lemma {:induction false} DetachedCounts(s: seq<ObserverId>, o: ObserverId)
    ensures multiset(Detached(s, o))[o] == 0
    ensures forall x :: x != o ==> multiset(Detached(s, o))[x] == multiset(s)[x]
  {
    if s != [] {
      DetachedCounts(s[1..], o);
      assert s == [s[0]] + s[1..];
    }
  }

  /** Detach keeps the observers other than `o` and nothing else. */
  lemma DetachedMembers(s: seq<ObserverId>, o: ObserverId)
    ensures forall x :: x in Detached(s, o) <==> x in s && x != o
  {
  }

  /** Detaching an absent observer is a no-op. */
  lemma {:induction false} DetachAbsent(s: seq<ObserverId>, o: ObserverId)
    requires o !in s
    ensures Detached(s, o) == s
  {
    if s != [] {
      DetachAbsent(s[1..], o);
      assert s == [s[0]] + s[1..];
    }
  }

  lemma {:induction false} DetachKeepsNoDup(s: seq<ObserverId>, o: ObserverId)
    requires NoDup(s)
    ensures NoDup(Detached(s, o))
  {
    if s != [] {
      DetachKeepsNoDup(s[1..], o);
      DetachedMembers(s[1..], o);
      assert s[0] !in s[1..] by {
        forall j | 0 <= j < |s[1..]| ensures s[1..][j] != s[0] {
          assert s[1..][j] == s[j + 1];
        }
      }
      var t := Detached(s, o);
      if s[0] != o {
        assert t == [s[0]] + Detached(s[1..], o);
        forall i, j | 0 <= i < j < |t| ensures t[i] != t[j] {
          if i == 0 {
            assert t[j] in Detached(s[1..], o) by {
              assert t[j] == Detached(s[1..], o)[j - 1];
            }
          } else {
            assert t[i] == Detached(s[1..], o)[i - 1];
            assert t[j] == Detached(s[1..], o)[j - 1];
          }
        }
      }
    }
  }

  /** In a list without duplicates, detaching a present observer removes exactly one entry. */
  lemma DetachRemovesOne(s: seq<ObserverId>, o: ObserverId)
    requires NoDup(s) && o in s
    ensures |Detached(s, o)| == |s| - 1
  {
    NoDupCount(s, o);
    DetachedCounts(s, o);
    var d := multiset(Detached(s, o));
    assert multiset(s) == d + multiset{o} by {
      forall x ensures multiset(s)[x] == (d + multiset{o})[x] {
      }
    }
  }

  /** Detach undoes the attach of a new observer. */
  lemma AttachDetachRoundTrip(s: seq<ObserverId>, o: ObserverId)
    requires o !in s
    ensures Detached(Attached(s, o), o) == s
  {
    DetachedConcat(s, [o], o);
    DetachAbsent(s, o);
    assert Detached([o], o) == [];
  }

  /** Detaching twice is detaching once. */
  lemma DetachIdempotent(s: seq<ObserverId>, o: ObserverId)
    ensures Detached(Detached(s, o), o) == Detached(s, o)
  {
    DetachedMembers(s, o);
    DetachAbsent(Detached(s, o), o);
  }

  /** In a list without duplicates every member occurs exactly once. */
  lemma {:induction false} NoDupCount(s: seq<ObserverId>, o: ObserverId)
    requires NoDup(s)
    ensures multiset(s)[o] == if o in s then 1 else 0
  {
    if s != [] {
      assert s == [s[0]] + s[1..];
      assert NoDup(s[1..]) by {
        forall i, j | 0 <= i < j < |s[1..]| ensures s[1..][i] != s[1..][j] {
          assert s[1..][i] == s[i + 1] && s[1..][j] == s[j + 1];
        }
      }
      NoDupCount(s[1..], o);
      if s[0] == o {
        assert o !in s[1..] by {
          forall j | 0 <= j < |s[1..]| ensures s[1..][j] != o {
            assert s[1..][j] == s[j + 1];
          }
        }
      }
    }
  }
}
