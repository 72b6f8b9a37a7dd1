/**
 * The observer registry of screen_animator: an insertion-ordered table of
 * observers, each present at most once, all of which are notified in turn.
 */
module Observers {

  /** An observer; objects are told apart by identity, as dictionary keys are. */
  class Observer {
    constructor ()
    {
    }
  }

  /** No element occurs twice: the keys of a dictionary. */
  ghost predicate NoDuplicates<T>(s: seq<T>)
  {
    forall i, j :: 0 <= i < j < |s| ==> s[i] != s[j]
  }

  /** `d[o] = 1` on the keys in insertion order: a new key goes last, an existing one keeps its place. */
  function Added<T(==)>(s: seq<T>, o: T): seq<T>
  {
    if o in s then s else s + [o]
  }

  /** `del d[o]` if present: the keys without o, in the same order. */
  function Removed<T(==)>(s: seq<T>, o: T): seq<T>
  {
    if s == [] then []
    else Removed(s[..|s| - 1], o) + (if s[|s| - 1] == o then [] else [s[|s| - 1]])
  }

  class Observable {
    /** The keys of `_observers`, oldest first. */
    var observers: seq<Observer>

    ghost predicate Valid()
      reads this
    {
      NoDuplicates(observers)
    }

    constructor ()
      ensures Valid() && observers == []
    {
      observers := [];
    }

    method AddObserver(observer: Observer)
      requires Valid()
      modifies this
      ensures Valid()
      ensures observers == Added(old(observers), observer)
    {
      if observer !in observers {
        observers := observers + [observer];
      }
    }

    method RemoveObserver(observer: Observer)
      requires Valid()
      modifies this
      ensures Valid()
      ensures observers == Removed(old(observers), observer)
    {
      if observer in observers {
        RemovedKeepsOthers(observers, observer);
        var kept: seq<Observer> := [];
        var i := 0;
        while i < |observers|
          invariant 0 <= i <= |observers|
          invariant kept == Removed(observers[..i], observer)
        {
          assert observers[..i + 1][..i] == observers[..i];
          if observers[i] != observer {
            kept := kept + [observers[i]];
          }
          i := i + 1;
        }
        assert observers[..|observers|] == observers;
        observers := kept;
      } else {
        RemovedAbsent(observers, observer);
      }
    }

    /**
     * Call `notify` on every registered observer; `notified` lists the
     * observers told, in the order they were told.
     */
    method NotifyObservers() returns (notified: seq<Observer>)
      requires Valid()
      ensures notified == observers
      ensures forall o :: multiset(notified)[o] == if o in observers then 1 else 0
    {
      notified := [];
      var i := 0;
      while i < |observers|
        invariant 0 <= i <= |observers|
        invariant notified == observers[..i]
      {
        notified := notified + [observers[i]];
        i := i + 1;
      }
      assert observers[..|observers|] == observers;
      forall o
        ensures multiset(notified)[o] == if o in observers then 1 else 0
      {
        OccursOnce(observers, o);
      }
    }
  }

  /** Adding makes the observer a member, keeps every other member, and adds nothing twice. */
  lemma AddedExactly<T>(s: seq<T>, o: T, x: T)
    requires NoDuplicates(s)
    ensures NoDuplicates(Added(s, o))
    ensures x in Added(s, o) <==> x in s || x == o
    ensures |Added(s, o)| == if o in s then |s| else |s| + 1
    ensures Added(Added(s, o), o) == Added(s, o)
  {
  }

  /** Removing drops exactly that observer and keeps the others, in order and without duplicates. */
  lemma {:induction false} RemovedKeepsOthers<T>(s: seq<T>, o: T)
    ensures forall x :: x in Removed(s, o) <==> x in s && x != o
    ensures NoDuplicates(s) ==> NoDuplicates(Removed(s, o))
  {
    if s != [] {
      var init, last := s[..|s| - 1], s[|s| - 1];
      RemovedKeepsOthers(init, o);
      assert s == init + [last];
      if NoDuplicates(s) {
        assert NoDuplicates(init);
        assert last !in init;
      }
    }
  }

  /** Removing an observer that is not registered changes nothing. */
  lemma {:induction false} RemovedAbsent<T>(s: seq<T>, o: T)
    requires o !in s
    ensures Removed(s, o) == s
  {
    if s != [] {
      RemovedAbsent(s[..|s| - 1], o);
      assert s == s[..|s| - 1] + [s[|s| - 1]];
    }
  }

  /** Removing a registered observer shortens the table by one. */
  lemma {:induction false} RemovedShrinks<T>(s: seq<T>, o: T)
    requires NoDuplicates(s) && o in s
    ensures |Removed(s, o)| == |s| - 1
  {
    var init, last := s[..|s| - 1], s[|s| - 1];
    assert s == init + [last];
    if last == o {
      assert o !in init;
      RemovedAbsent(init, o);
    } else {
      RemovedShrinks(init, o);
    }
  }

  /** In a table without duplicates every member occurs exactly once. */
  lemma {:induction false} OccursOnce<T>(s: seq<T>, x: T)
    requires NoDuplicates(s)
    ensures multiset(s)[x] == if x in s then 1 else 0
  {
    if s != [] {
      var init, last := s[..|s| - 1], s[|s| - 1];
      assert s == init + [last];
      OccursOnce(init, x);
      assert last !in init;
    }
  }

  /** The scenario of the tests: three observers, the same one added twice, the middle one removed. */
  method RegisterAndRemove()
  {
    var observable := new Observable();
    var first := new Observer();
    var second := new Observer();
    var third := new Observer();
    observable.AddObserver(first);
    observable.AddObserver(first);
    assert observable.observers == [first];
    observable.AddObserver(second);
    observable.AddObserver(third);
    assert observable.observers == [first, second, third];
    observable.RemoveObserver(second);
    RemovedKeepsOthers([first, second, third], second);
    RemovedShrinks([first, second, third], second);
    assert second !in observable.observers && |observable.observers| == 2;
  }
}
