/**
 * `createStore`: a mutable current state and a set of subscribers that are
 * called, in subscription order, each time a new state object is stored.
 * A subscriber that throws is skipped over; the others are still called.
 */
module Stores {
  import opened Js
  import opened Updates

  /** The arguments a subscriber is called with: the new state and `meta || {}`. */
  datatype Notice = Notice(state: State, meta: Value)

  /** `meta || {}`. */
  function MetaOrEmpty(meta: Value): (r: Value)
    ensures Truthy(r)
    ensures Truthy(meta) ==> r == meta
  {
    if Truthy(meta) then meta else Obj(map[])
  }

  /** A subscriber callback; `fails` says whether it throws once it has been called. */
  class Subscriber {
    const fails: bool
    var received: seq<Notice>

    constructor(fails: bool)
      ensures this.fails == fails && received == []
    {
      this.fails := fails;
      received := [];
    }

    /** `fn(state, meta)`: the call is recorded; `threw` reports the exception it raises. */
    method Call(n: Notice) returns (threw: bool)
      modifies this
      ensures received == old(received) + [n]
      ensures threw == fails
    {
      received := received + [n];
      threw := fails;
    }
  }

  /** `subs` without `fn`. */
  function Without(subs: seq<Subscriber>, fn: Subscriber): (r: seq<Subscriber>)
    ensures forall i :: 0 <= i < |r| ==> r[i] in subs && r[i] != fn
    ensures forall i :: 0 <= i < |subs| && subs[i] != fn ==> subs[i] in r
    ensures |r| <= |subs|
    ensures fn !in subs ==> r == subs
  {
    if subs == [] then []
    else if subs[0] == fn then Without(subs[1..], fn)
    else [subs[0]] + Without(subs[1..], fn)
  }

  /** No subscriber occurs twice: `subs` models a JavaScript `Set`. */
  predicate Distinct(subs: seq<Subscriber>)
  {
    forall i, j :: 0 <= i < j < |subs| ==> subs[i] != subs[j]
  }

  /** A distinct sequence's tail is distinct and lacks its head. */
  lemma DistinctTail(subs: seq<Subscriber>)
    requires Distinct(subs) && subs != []
    ensures Distinct(subs[1..]) && subs[0] !in subs[1..]
  {
    var tail := subs[1..];
    forall i, j | 0 <= i < j < |tail| ensures tail[i] != tail[j] {
      assert tail[i] == subs[i + 1] && tail[j] == subs[j + 1];
    }
    forall k | 0 <= k < |tail| ensures tail[k] != subs[0] {
      assert tail[k] == subs[k + 1];
    }
  }

  /** Putting a new subscriber in front of a distinct sequence keeps it distinct. */
  lemma DistinctCons(x: Subscriber, rest: seq<Subscriber>)
    requires Distinct(rest) && x !in rest
    ensures Distinct([x] + rest)
  {
    var r := [x] + rest;
    forall i, j | 0 <= i < j < |r| ensures r[i] != r[j] {
      assert r[j] == rest[j - 1];
      if i > 0 {
        assert r[i] == rest[i - 1];
      }
    }
  }

  /** Removing one subscriber keeps the others distinct. */
  lemma {:induction false} WithoutDistinct(subs: seq<Subscriber>, fn: Subscriber)
    requires Distinct(subs)
    ensures Distinct(Without(subs, fn))
    decreases |subs|
  {
    if subs != [] {
      DistinctTail(subs);
      WithoutDistinct(subs[1..], fn);
      if subs[0] != fn {
        var rest := Without(subs[1..], fn);
        assert subs[0] !in rest;
        DistinctCons(subs[0], rest);
      }
    }
  }

  /**
   * Removing one subscriber keeps the order of the others: `Without` is a
   * filter, so it can be applied to each part of a split separately.
   */
  lemma {:induction false} WithoutConcat(a: seq<Subscriber>, b: seq<Subscriber>, fn: Subscriber)
    ensures Without(a + b, fn) == Without(a, fn) + Without(b, fn)
    decreases |a|
  {
    if a == [] {
      assert a + b == b;
    } else {
      assert (a + b)[0] == a[0] && (a + b)[1..] == a[1..] + b;
      WithoutConcat(a[1..], b, fn);
    }
  }

  class Store {
    var state: State
    var subs: seq<Subscriber>
    /** Every notice sent so far, oldest first. */
    ghost var published: seq<Notice>
    /** How many notices had been sent when each subscriber joined. */
    ghost var joined: map<Subscriber, nat>
    /** What each subscriber had received before it joined. */
    ghost var before: map<Subscriber, seq<Notice>>

    /**
     * The subscriber set holds each callback once, each subscriber has been
     * sent every notice since it joined and nothing else, and the latest
     * notice carries the current state.
     */
    ghost predicate Valid()
      reads this, subs
    {
      && Distinct(subs)
      && (forall s :: s in subs ==>
            s in joined && s in before && joined[s] <= |published|
            && s.received == before[s] + published[joined[s]..])
      && (published != [] ==> published[|published| - 1].state == state)
    }

    /** `createStore(initialState)`. */
    constructor(initial: State)
      ensures Valid() && state == initial && subs == [] && published == []
    {
      state := initial;
      subs := [];
      published := [];
      joined := map[];
      before := map[];
    }

    /** `getState()`. */
    method GetState() returns (s: State)
      ensures s == state
    {
      s := state;
    }

    /**
     * `setState(next, meta)`: the same object is dropped unannounced;
     * a new one is stored and every subscriber is called once with it, in
     * order, whether or not an earlier one throws.
     */
    method SetState(next: Next, meta: Value)
      requires Valid()
      modifies this, subs
      ensures Valid() && subs == old(subs) && joined == old(joined) && before == old(before)
      ensures next.Same? ==> state == old(state) && published == old(published)
      ensures next.Fresh? ==> state == next.state && published == old(published) + [Notice(next.state, MetaOrEmpty(meta))]
      ensures next.Same? ==> forall s :: s in subs ==> s.received == old(s.received)
      ensures next.Fresh? ==>
                forall s :: s in subs ==> s.received == old(s.received) + [Notice(next.state, MetaOrEmpty(meta))]
    {
      if next.Same? {
        return;
      }
      state := next.state;
      var n := Notice(state, MetaOrEmpty(meta));
      published := published + [n];
      var ss := subs;
      for i := 0 to |ss|
        invariant subs == ss && state == next.state && published == old(published) + [n]
        invariant joined == old(joined) && before == old(before)
        invariant forall j :: 0 <= j < i ==> ss[j].received == old(ss[j].received) + [n]
        invariant forall j :: i <= j < |ss| ==> ss[j].received == old(ss[j].received)
      {
        var threw := ss[i].Call(n);
        // an exception of the subscriber is caught and the loop goes on
      }
      forall s | s in subs
        ensures s.received == before[s] + published[joined[s]..]
      {
        assert published[joined[s]..] == old(published)[joined[s]..] + [n];
      }
    }

    /** `update(updater, meta)`: applies the updater to the current state and stores the result; an exception leaves everything as it was. */
    method Update(updater: State -> Outcome, meta: Value) returns (raised: bool)
      requires Valid()
      modifies this, subs
      ensures Valid() && subs == old(subs) && joined == old(joined) && before == old(before)
      ensures raised <==> updater(old(state)).Raised?
      ensures raised || updater(old(state)).next.Same? ==> state == old(state) && published == old(published)
      ensures !raised && updater(old(state)).next.Fresh? ==>
                state == updater(old(state)).next.state
                && published == old(published) + [Notice(state, MetaOrEmpty(meta))]
      ensures raised || updater(old(state)).next.Same? ==> forall s :: s in subs ==> s.received == old(s.received)
      ensures !raised && updater(old(state)).next.Fresh? ==>
                forall s :: s in subs ==> s.received == old(s.received) + [Notice(state, MetaOrEmpty(meta))]
    {
      var out := updater(state);
      if out.Raised? {
        return true;
      }
      SetState(out.next, meta);
      raised := false;
    }

    /** `subscribe(fn)`: adds `fn` to the set (a second add is no change). */
    method Subscribe(fn: Subscriber)
      requires Valid()
      modifies this
      ensures Valid() && state == old(state) && published == old(published)
      ensures fn in old(subs) ==> subs == old(subs)
      ensures fn !in old(subs) ==> subs == old(subs) + [fn]
      ensures fn in old(subs) ==> joined == old(joined) && before == old(before)
      ensures fn !in old(subs) ==> joined == old(joined)[fn := |published|] && before == old(before)[fn := fn.received]
    {
      if fn in subs {
        return;
      }
      joined := joined[fn := |published|];
      before := before[fn := fn.received];
      subs := subs + [fn];
      assert published[|published|..] == [];
    }

    /** The unsubscribe function `subscribe` returns: `subs.delete(fn)`. */
    method Unsubscribe(fn: Subscriber) returns (removed: bool)
      requires Valid()
      modifies this
      ensures Valid() && state == old(state) && published == old(published)
      ensures removed <==> fn in old(subs)
      ensures joined == old(joined) && before == old(before)
      ensures subs == Without(old(subs), fn)
    {
      removed := fn in subs;
      WithoutDistinct(subs, fn);
      subs := Without(subs, fn);
    }
  }

  /**
   * A subscriber that joined after `k` notices and has been sent everything
   * since: when more notices follow, it has been sent exactly those as well.
   */
  lemma SentSince(before: seq<Notice>, published: seq<Notice>, later: seq<Notice>, k: nat)
    requires k <= |published| && published <= later
    ensures before + later[k..] == (before + published[k..]) + later[|published|..]
  {
    assert later == published + later[|published|..];
    assert later[k..] == published[k..] + later[|published|..];
  }
}
