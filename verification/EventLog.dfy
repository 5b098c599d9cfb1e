/**
 The log as every component above the file sees it: a sequence of events with strictly
 increasing ids, where an append under a key that is already present adds nothing.
 */
module EventLog {
  import opened Wrappers

  datatype Event<+K, +P> = Event(id: nat, key: Option<K>, payload: P)

  function NextId<K, P>(log: seq<Event<K, P>>): nat {
    if log == [] then 1 else log[|log| - 1].id + 1
  }

  predicate HasKey<K(==), P>(log: seq<Event<K, P>>, key: K) {
    log != [] && (log[|log| - 1].key == Some(key) || HasKey(log[..|log| - 1], key))
  }

  /** Every event has a larger id than those before it, and a key of its own. */
  ghost predicate Ordered<K, P>(log: seq<Event<K, P>>) {
    log == [] ||
    var front, e := log[..|log| - 1], log[|log| - 1];
    Ordered(front) && NextId(front) <= e.id && (e.key.Some? ==> !HasKey(front, e.key.value))
  }

  lemma {:induction false} HasKeyAt<K, P>(log: seq<Event<K, P>>, key: K, i: nat)
    requires i < |log| && log[i].key == Some(key)
    ensures HasKey(log, key)
  {
    if i < |log| - 1 {
      assert log[..|log| - 1][i] == log[i];
      HasKeyAt(log[..|log| - 1], key, i);
    }
  }

  lemma {:induction false} KeyPosition<K, P>(log: seq<Event<K, P>>, key: K) returns (i: nat)
    requires HasKey(log, key)
    ensures i < |log| && log[i].key == Some(key)
  {
    i := |log| - 1;
    if log[i].key != Some(key) {
      i := KeyPosition(log[..|log| - 1], key);
    }
  }

  /** In an ordered log ids ascend and no two events share a key. */
  lemma {:induction false} OrderedPairs<K, P>(log: seq<Event<K, P>>, i: nat, j: nat)
    requires Ordered(log) && i < j < |log|
    ensures log[i].id < log[j].id
    ensures log[i].key.Some? ==> log[i].key != log[j].key
  {
    var front := log[..|log| - 1];
    assert front[i] == log[i];
    if j < |log| - 1 {
      OrderedPairs(front, i, j);
    } else {
      IdsBelowNext(front, i);
      if log[i].key.Some? {
        HasKeyAt(front, log[i].key.value, i);
      }
    }
  }

  lemma {:induction false} IdsBelowNext<K, P>(log: seq<Event<K, P>>, i: nat)
    requires Ordered(log) && i < |log|
    ensures log[i].id < NextId(log)
  {
    if i < |log| - 1 {
      assert log[..|log| - 1][i] == log[i];
      IdsBelowNext(log[..|log| - 1], i);
    }
  }

  /** The event stored under a key: the last one, as an index built in file order finds it. */
  function Find<K(==), P>(log: seq<Event<K, P>>, key: K): (r: Option<Event<K, P>>)
    ensures r.Some? <==> HasKey(log, key)
    ensures r.Some? ==> r.value in log && r.value.key == Some(key)
  {
    if log == [] then None
    else
      var last := log[|log| - 1];
      if last.key == Some(key) then
        assert log[|log| - 1] in log; Some(last)
      else
        assert forall e :: e in log[..|log| - 1] ==> e in log;
        Find(log[..|log| - 1], key)
  }

  /** The log after an append: unchanged when the key is taken, one event longer otherwise. */
  function Appended<K(==), P>(log: seq<Event<K, P>>, key: Option<K>, payload: P): seq<Event<K, P>> {
    if key.Some? && HasKey(log, key.value) then log
    else log + [Event(NextId(log), key, payload)]
  }

  lemma AppendedKeepsOrder<K, P>(log: seq<Event<K, P>>, key: Option<K>, payload: P)
    requires Ordered(log)
    ensures Ordered(Appended(log, key, payload))
    ensures log <= Appended(log, key, payload)
    ensures key.Some? ==> HasKey(Appended(log, key, payload), key.value)
  {
    var out := Appended(log, key, payload);
    if out != log {
      assert out[..|log|] == log;
    }
  }

  /** Ids count the events from one. */
  ghost predicate Numbered<K, P>(log: seq<Event<K, P>>) {
    forall i :: 0 <= i < |log| ==> log[i].id == i + 1
  }

  /** A log that only appends have made is numbered from one, without a gap. */
  lemma AppendedNumbers<K, P>(log: seq<Event<K, P>>, key: Option<K>, payload: P)
    requires Numbered(log)
    ensures Numbered(Appended(log, key, payload)) && NextId(log) == |log| + 1
  {
  }

  lemma {:induction false} PrefixKeepsOrder<K, P>(log: seq<Event<K, P>>, n: nat)
    requires Ordered(log) && n <= |log|
    ensures Ordered(log[..n])
    decreases |log|
  {
    if n == |log| {
      assert log[..n] == log;
    } else {
      assert log[..|log| - 1][..n] == log[..n];
      PrefixKeepsOrder(log[..|log| - 1], n);
    }
  }

  lemma LastIsNext<K, P>(log: seq<Event<K, P>>)
    requires Ordered(log) && log != []
    ensures NextId(log[..|log| - 1]) <= log[|log| - 1].id
  {
  }

  /** Walking an ordered log front to back. */
  lemma NextEvent<K, P>(log: seq<Event<K, P>>, i: nat)
    requires Ordered(log) && i < |log|
    ensures log[..i + 1] == log[..i] + [log[i]] && NextId(log[..i]) <= log[i].id
  {
    var upTo := log[..i + 1];
    PrefixKeepsOrder(log, i + 1);
    hide Ordered, NextId;
    LastIsNext(upTo);
    assert upTo[..|upTo| - 1] == log[..i] && upTo[|upTo| - 1] == log[i];
  }

  /** A key stays taken when the log grows. */
  lemma {:induction false} KeyStays<K, P>(log: seq<Event<K, P>>, longer: seq<Event<K, P>>, key: K)
    requires log <= longer && HasKey(log, key)
    ensures HasKey(longer, key)
  {
    var i := KeyPosition(log, key);
    HasKeyAt(longer, key, i);
  }

  /** Where keys are unique, the lookup finds the only event that carries the key. */
  lemma FindIsUnique<K, P>(log: seq<Event<K, P>>, e: Event<K, P>)
    requires Ordered(log) && e in log && e.key.Some?
    ensures Find(log, e.key.value) == Some(e)
  {
    var i :| 0 <= i < |log| && log[i] == e;
    HasKeyAt(log, e.key.value, i);
    var found := Find(log, e.key.value).value;
    var j :| 0 <= j < |log| && log[j] == found;
    if i < j {
      OrderedPairs(log, i, j);
    } else if j < i {
      OrderedPairs(log, j, i);
    }
  }

  /** The log shared by every component of one engine. */
  class SharedLog<K(==), P> {
    var events: seq<Event<K, P>>

    constructor ()
      ensures events == []
    {
      events := [];
    }

    /** Appends an event, or returns the one already stored under the key. */
    method Append(key: Option<K>, payload: P) returns (e: Event<K, P>)
      modifies this
      ensures events == Appended(old(events), key, payload)
      ensures e in events && e.key == key
      ensures events == old(events) ==> key.Some? && Find(old(events), key.value) == Some(e)
      ensures events != old(events) ==> e == Event(NextId(old(events)), key, payload)
    {
      if key.Some? {
        var found := Find(events, key.value);
        if found.Some? { return found.value; }
      }
      e := Event(NextId(events), key, payload);
      events := events + [e];
    }
  }
}
