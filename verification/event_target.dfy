/** The listener registry every stream embeds: event type -> ordered
    listeners, with at most one registration of each listener per type. */
module EventTargets {

  type Listeners<L> = map<string, seq<L>>

  /** Reference meaning of a removal: `xs` without any occurrence of `x`, order kept. */
  function Without<L(==)>(xs: seq<L>, x: L): seq<L>
    decreases |xs|
  {
    if |xs| == 0 then []
    else if xs[0] == x then Without(xs[1..], x)
    else [xs[0]] + Without(xs[1..], x)
  }

  predicate NoDuplicates<L(==)>(xs: seq<L>) {
    forall i, j :: 0 <= i < j < |xs| ==> xs[i] != xs[j]
  }

  /** The source's removal: splice out the first occurrence, then start over. */
  function RemoveAll<L(==)>(stack: seq<L>, callback: L): (r: seq<L>)
    ensures r == Without(stack, callback)
    decreases |stack|
  {
    if callback !in stack then WithoutAbsent(stack, callback); stack
    else
      var i := IndexOf(stack, callback);
      WithoutSplice(stack, callback, i);
      RemoveAll(stack[..i] + stack[i + 1..], callback)
  }

  function IndexOf<L(==)>(xs: seq<L>, x: L): (i: nat)
    requires x in xs
    ensures i < |xs| && xs[i] == x && x !in xs[..i]
  {
    if xs[0] == x then 0 else 1 + IndexOf(xs[1..], x)
  }

  lemma {:induction false} WithoutAbsent<L>(xs: seq<L>, x: L)
    requires x !in xs
    ensures Without(xs, x) == xs
    decreases |xs|
  {
    if |xs| > 0 {
      WithoutAbsent(xs[1..], x);
      assert xs == [xs[0]] + xs[1..];
    }
  }

  /** Removing the first occurrence does not change what `Without` keeps. */
  lemma {:induction false} WithoutSplice<L>(xs: seq<L>, x: L, i: nat)
    requires i < |xs| && xs[i] == x && x !in xs[..i]
    ensures Without(xs[..i] + xs[i + 1..], x) == Without(xs, x)
    decreases i
  {
    if i == 0 {
      assert xs[..0] + xs[1..] == xs[1..];
    } else {
      assert xs[0] != x by { assert xs[0] == xs[..i][0]; }
      var ys := xs[..i] + xs[i + 1..];
      assert ys[0] == xs[0];
      assert ys[1..] == xs[1..][..i - 1] + xs[1..][i..];
      WithoutSplice(xs[1..], x, i - 1);
    }
  }

  /** `removeEventListener(type, callback)`. */
  function RemoveEventListener<L(==)>(ls: Listeners<L>, eventType: string, callback: L): (r: Listeners<L>)
    ensures r.Keys == ls.Keys
    ensures forall t :: t in ls && t != eventType ==> r[t] == ls[t]
    ensures eventType in ls ==> r[eventType] == Without(ls[eventType], callback)
  {
    if eventType !in ls then ls
    else ls[eventType := RemoveAll(ls[eventType], callback)]
  }

  /** `addEventListener(type, callback)`: re-adding moves the listener last. */
  function AddEventListener<L(==)>(ls: Listeners<L>, eventType: string, callback: L): (r: Listeners<L>)
    ensures r.Keys == ls.Keys + {eventType}
    ensures forall t :: t in ls && t != eventType ==> r[t] == ls[t]
    ensures r[eventType] == Without(if eventType in ls then ls[eventType] else [], callback) + [callback]
  {
    var ls1 := if eventType in ls then ls else ls[eventType := []];
    var ls2 := RemoveEventListener(ls1, eventType, callback);
    ls2[eventType := ls2[eventType] + [callback]]
  }

  /** The listeners `dispatchEvent` calls, in the order it calls them. */
  function Dispatch<L>(ls: Listeners<L>, eventType: string): (r: seq<L>)
    ensures eventType in ls ==> r == ls[eventType]
    ensures eventType !in ls ==> r == []
  {
    if eventType in ls then ls[eventType] else []
  }

  // ---------------------------------------------------------------------

  lemma {:induction false} WithoutSubset<L>(xs: seq<L>, x: L)
    ensures forall y :: y in Without(xs, x) <==> y in xs && y != x
    decreases |xs|
  {
    if |xs| > 0 {
      WithoutSubset(xs[1..], x);
      assert forall y :: y in xs <==> y == xs[0] || y in xs[1..];
    }
  }

  lemma {:induction false} WithoutKeepsNoDuplicates<L>(xs: seq<L>, x: L)
    requires NoDuplicates(xs)
    ensures NoDuplicates(Without(xs, x))
    decreases |xs|
  {
    if |xs| > 0 {
      WithoutKeepsNoDuplicates(xs[1..], x);
      WithoutSubset(xs[1..], x);
      assert xs[0] !in xs[1..] by {
        forall k | 0 <= k < |xs[1..]| ensures xs[1..][k] != xs[0] {
          assert xs[1..][k] == xs[k + 1];
        }
      }
    }
  }

  /** Registration keeps every listener list duplicate-free, and after adding
      a listener it is dispatched exactly once, last. */
  lemma AddKeepsListenersUnique<L>(ls: Listeners<L>, eventType: string, callback: L)
    requires forall t :: t in ls ==> NoDuplicates(ls[t])
    ensures var r := AddEventListener(ls, eventType, callback);
      && (forall t :: t in r ==> NoDuplicates(r[t]))
      && var d := Dispatch(r, eventType);
         |d| > 0 && d[|d| - 1] == callback && callback !in d[..|d| - 1]
  {
    var r := AddEventListener(ls, eventType, callback);
    var old_ := if eventType in ls then ls[eventType] else [];
    var w := Without(old_, callback);
    WithoutKeepsNoDuplicates(old_, callback);
    WithoutSubset(old_, callback);
    assert r[eventType] == w + [callback];
    assert (w + [callback])[..|w|] == w;
    assert NoDuplicates(w + [callback]) by {
      forall i, j | 0 <= i < j < |w| + 1
        ensures (w + [callback])[i] != (w + [callback])[j]
      {
        if j == |w| {
          assert (w + [callback])[i] == w[i];
          assert w[i] in w;
        }
      }
    }
  }

  /** Removing a listener means it is never dispatched again for that type,
      and every other listener keeps its place. */
  lemma RemoveStopsDispatch<L>(ls: Listeners<L>, eventType: string, callback: L)
    ensures var d := Dispatch(RemoveEventListener(ls, eventType, callback), eventType);
      && callback !in d
      && forall y :: y != callback ==> (y in d <==> y in Dispatch(ls, eventType))
  {
    if eventType in ls {
      WithoutSubset(ls[eventType], callback);
    }
  }
}
