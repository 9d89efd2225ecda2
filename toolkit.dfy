/** The list helpers and the event hub of the toolkit object: `over`, `diff`,
    `deepFlatten`, `elementIsVisibleInViewport` as functions, and the value
    returned by `createEventHub` as a class whose `hub` dictionary its methods
    update in place. */
module Toolkit {

  datatype Result<T> = Ok(value: T) | Err(error: string)

  // ---------------------------------------------------------------------------
  // over

  /** `over(...fns)(...args)`: `fns.map(fn => fn.apply(null, args))`, the arguments
      gathered into one value. */
  function Over<A, B>(fns: seq<A -> B>, args: A): (r: seq<B>)
    ensures |r| == |fns|
    ensures forall i :: 0 <= i < |fns| ==> r[i] == fns[i](args)
  {
    if fns == [] then [] else [fns[0](args)] + Over(fns[1..], args)
  }

  // ---------------------------------------------------------------------------
  // diff

  /** `diff(a, b)`: `a.filter(x => !new Set(b).has(x))`. Every element of `a` not in `b`
      is kept as often as it occurs in `a`; elements of `b` are dropped entirely. */
  function Diff<T(==,!new)>(a: seq<T>, b: seq<T>): (r: seq<T>)
    ensures forall x :: multiset(r)[x] == if x in b then 0 else multiset(a)[x]
    ensures forall x :: x in r <==> x in a && x !in b
    ensures |r| <= |a|
  {
    if a == [] then []
    else
      assert a == [a[0]] + a[1..];
      (if a[0] in b then [] else [a[0]]) + Diff(a[1..], b)
  }

  /** `diff` keeps `a`'s order: it distributes over concatenation of its first argument. */
  lemma {:induction false} DiffAppend<T(!new)>(a1: seq<T>, a2: seq<T>, b: seq<T>)
    ensures Diff(a1 + a2, b) == Diff(a1, b) + Diff(a2, b)
  {
    if a1 == [] {
      assert a1 + a2 == a2;
    } else {
      assert (a1 + a2)[0] == a1[0];
      assert (a1 + a2)[1..] == a1[1..] + a2;
      DiffAppend(a1[1..], a2, b);
    }
  }

  /** With nothing to subtract, `diff` returns its first argument. */
  lemma {:induction false} DiffOfNothing<T(!new)>(a: seq<T>)
    ensures Diff(a, []) == a
  {
    if a != [] {
      DiffOfNothing(a[1..]);
    }
  }

  // ---------------------------------------------------------------------------
  // deepFlatten

  /** A JavaScript array whose elements are values or arrays, to any depth. */
  datatype Nested<T> = Leaf(value: T) | List(items: seq<Nested<T>>)

  /** `deepFlatten`, with the recursive call resolved to the helper itself:
      `[].concat(...arr.map(v => Array.isArray(v) ? deepFlatten(v) : v))`. */
  function DeepFlatten<T>(xs: seq<Nested<T>>): (r: seq<T>)
    decreases xs
    ensures |xs| == 1 && xs[0].Leaf? ==> r == [xs[0].value]
  {
    if xs == [] then [] else FlattenOne(xs[0]) + DeepFlatten(xs[1..])
  }

  /** What one element contributes to the `concat`: a value itself, an array its
      flattened contents. */
  function FlattenOne<T>(v: Nested<T>): seq<T>
    decreases v
  {
    match v
    case Leaf(x) => [x]
    case List(items) => DeepFlatten(items)
  }

  /** Values as an array of non-arrays. */
  function Lift<T>(s: seq<T>): (r: seq<Nested<T>>)
    ensures |r| == |s|
    ensures forall i :: 0 <= i < |s| ==> r[i] == Leaf(s[i])
  {
    if s == [] then [] else [Leaf(s[0])] + Lift(s[1..])
  }

  /** The leaves come out left to right: flattening distributes over concatenation. */
  lemma {:induction false} DeepFlattenAppend<T>(xs: seq<Nested<T>>, ys: seq<Nested<T>>)
    ensures DeepFlatten(xs + ys) == DeepFlatten(xs) + DeepFlatten(ys)
  {
    if xs == [] {
      assert xs + ys == ys;
    } else {
      assert (xs + ys)[0] == xs[0];
      assert (xs + ys)[1..] == xs[1..] + ys;
      DeepFlattenAppend(xs[1..], ys);
    }
  }

  /** On an array that holds no arrays, flattening is the identity. */
  lemma {:induction false} DeepFlattenFlat<T>(s: seq<T>)
    ensures DeepFlatten(Lift(s)) == s
  {
    if s != [] {
      assert Lift(s)[1..] == Lift(s[1..]);
      DeepFlattenFlat(s[1..]);
    }
  }

  /** An array wrapped in an array flattens to the same leaves. */
  lemma DeepFlattenUnwrap<T>(xs: seq<Nested<T>>)
    ensures DeepFlatten([List(xs)]) == DeepFlatten(xs)
  {
    assert [List(xs)][1..] == [];
  }

  /** Flattening twice is flattening once. */
  lemma DeepFlattenIdempotent<T>(xs: seq<Nested<T>>)
    ensures DeepFlatten(Lift(DeepFlatten(xs))) == DeepFlatten(xs)
  {
    DeepFlattenFlat(DeepFlatten(xs));
  }

  /** `deepFlatten` as written: inside the object literal the name `deepFlatten` is not
      bound, so the callback throws a ReferenceError at the first element that is an
      array; on an array without nested arrays the name is never evaluated. */
  function DeepFlattenAsWritten<T>(xs: seq<Nested<T>>): (r: Result<seq<T>>)
    ensures (forall i :: 0 <= i < |xs| ==> xs[i].Leaf?) ==> r == Ok(DeepFlatten(xs))
    ensures (exists i :: 0 <= i < |xs| && xs[i].List?) ==> r == Err("ReferenceError: deepFlatten is not defined")
  {
    if forall i :: 0 <= i < |xs| ==> xs[i].Leaf? then
      var values := seq(|xs|, i requires 0 <= i < |xs| => xs[i].value);
      assert Lift(values) == xs;
      DeepFlattenFlat(values);
      Ok(values)
    else
      Err("ReferenceError: deepFlatten is not defined")
  }

  /** The smallest nested input already fails as written, where the intended helper
      returns the single leaf. */
  lemma DeepFlattenAsWrittenFailsOnNesting<T>(x: T)
    ensures DeepFlattenAsWritten([List([Leaf(x)])]).Err?
    ensures DeepFlatten([List([Leaf(x)])]) == [x]
  {
    assert [List([Leaf(x)])][0].List?;
    DeepFlattenUnwrap([Leaf(x)]);
  }

  // ---------------------------------------------------------------------------
  // elementIsVisibleInViewport

  /** `el.getBoundingClientRect()`, reduced to its four edges. */
  datatype Rect = Rect(top: real, left: real, bottom: real, right: real)

  /** `window.innerHeight` and `window.innerWidth`. */
  datatype Viewport = Viewport(innerHeight: real, innerWidth: real)

  /** An edge strictly inside the span `(0, limit)`. */
  predicate Inside(edge: real, limit: real)
  {
    0.0 < edge < limit
  }

  /** Both edges inside `[0, limit]`. */
  predicate Contained(low: real, high: real, limit: real)
  {
    low >= 0.0 && high <= limit
  }

  /** `elementIsVisibleInViewport` as written: the full test checks containment on both
      axes; the partial test wants a vertical and a horizontal edge strictly inside the
      viewport, but measures `right` against `innerHeight`. */
  function ElementIsVisibleInViewport(r: Rect, v: Viewport, partiallyVisible: bool): (visible: bool)
    ensures !partiallyVisible ==>
              (visible <==> Contained(r.top, r.bottom, v.innerHeight) && Contained(r.left, r.right, v.innerWidth))
    ensures partiallyVisible ==>
              (visible <==> (Inside(r.top, v.innerHeight) || Inside(r.bottom, v.innerHeight))
                            && (Inside(r.left, v.innerWidth) || Inside(r.right, v.innerHeight)))
  {
    if partiallyVisible then
      ((r.top > 0.0 && r.top < v.innerHeight) || (r.bottom > 0.0 && r.bottom < v.innerHeight)) &&
      ((r.left > 0.0 && r.left < v.innerWidth) || (r.right > 0.0 && r.right < v.innerHeight))
    else
      r.top >= 0.0 && r.left >= 0.0 && r.bottom <= v.innerHeight && r.right <= v.innerWidth
  }

  /** The partial test with the horizontal edge measured against `innerWidth`. */
  function ElementIsVisibleInViewportIntended(r: Rect, v: Viewport, partiallyVisible: bool): (visible: bool)
    ensures !partiallyVisible ==> visible == ElementIsVisibleInViewport(r, v, false)
    ensures partiallyVisible && v.innerHeight == v.innerWidth ==> visible == ElementIsVisibleInViewport(r, v, true)
  {
    if partiallyVisible then
      (Inside(r.top, v.innerHeight) || Inside(r.bottom, v.innerHeight)) &&
      (Inside(r.left, v.innerWidth) || Inside(r.right, v.innerWidth))
    else
      ElementIsVisibleInViewport(r, v, false)
  }

  function Transpose(r: Rect): Rect
  {
    Rect(r.left, r.top, r.right, r.bottom)
  }

  function Turn(v: Viewport): Viewport
  {
    Viewport(v.innerWidth, v.innerHeight)
  }

  /** The intended test treats both axes alike: swapping them in the element and the
      viewport gives the same answer, in either mode. */
  lemma IntendedIsAxisSymmetric(r: Rect, v: Viewport, partiallyVisible: bool)
    ensures ElementIsVisibleInViewportIntended(Transpose(r), Turn(v), partiallyVisible)
            == ElementIsVisibleInViewportIntended(r, v, partiallyVisible)
  {
  }

  /** An element fully inside the viewport whose bottom and right edges lie strictly
      inside it is also partially visible, under the intended test. */
  lemma FullyVisibleIsPartiallyVisible(r: Rect, v: Viewport)
    requires ElementIsVisibleInViewport(r, v, false)
    requires 0.0 < r.bottom < v.innerHeight && 0.0 < r.right < v.innerWidth
    ensures ElementIsVisibleInViewportIntended(r, v, true)
  {
  }

  /** As written, a wide viewport breaks that: an element at the left edge whose right
      edge lies between `innerHeight` and `innerWidth` is fully visible, yet not even
      partially visible. */
  lemma AsWrittenMissesWideElement()
    ensures var r := Rect(10.0, 0.0, 20.0, 700.0);
            var v := Viewport(600.0, 800.0);
            && ElementIsVisibleInViewport(r, v, false)
            && !ElementIsVisibleInViewport(r, v, true)
            && ElementIsVisibleInViewportIntended(r, v, true)
  {
  }

  // ---------------------------------------------------------------------------
  // createEventHub

  /** One invocation `handler(data)` made by `emit`. */
  datatype Call<H, D> = Call(handler: H, data: D)

  /** `s` without its first occurrence of `h` (the `splice(i, 1)` at `findIndex`),
      or `s` itself when `h` does not occur. */
  function RemoveFirst<H(==)>(s: seq<H>, h: H): (r: seq<H>)
    ensures h !in s ==> r == s
    ensures h in s ==> |r| == |s| - 1 && multiset(r) == multiset(s) - multiset{h}
  {
    if s == [] then []
    else if s[0] == h then
      assert s == [s[0]] + s[1..];
      s[1..]
    else
      assert s == [s[0]] + s[1..];
      [s[0]] + RemoveFirst(s[1..], h)
  }

  /** Removing at the first occurrence is cutting out that one position. */
  lemma {:induction false} RemoveFirstAt<H>(s: seq<H>, h: H, i: nat)
    requires i < |s| && s[i] == h && h !in s[..i]
    ensures RemoveFirst(s, h) == s[..i] + s[i + 1..]
  {
    if i > 0 {
      assert s[1..][..i - 1] == s[1..i];
      assert s[1..i] == s[..i][1..];
      assert s[0] in s[..i];
      RemoveFirstAt(s[1..], h, i - 1);
      assert s[1..][i..] == s[i + 1..];
      assert s[..i] == [s[0]] + s[1..][..i - 1];
    }
  }

  /** Registering a handler not yet present and then unregistering it restores the list. */
  lemma {:induction false} OffUndoesOn<H>(s: seq<H>, h: H)
    requires h !in s
    ensures RemoveFirst(s + [h], h) == s
  {
    if s != [] {
      assert (s + [h])[0] == s[0];
      assert (s + [h])[1..] == s[1..] + [h];
      OffUndoesOn(s[1..], h);
    }
  }

  /** An event name as it indexes `this.hub[event]`: the property key the event converts to. */
  type EventKey = string

  /** The object `createEventHub()` returns. */
  class EventHub<H(==)> {
    /** `hub`: event name to its handler list (`Object.create(null)`, so no inherited keys). */
    var hub: map<EventKey, seq<H>>

    constructor ()
      ensures hub == map[]
    {
      hub := map[];
    }

    /** `this.hub[event] || []`. */
    function Handlers(e: EventKey): seq<H>
      reads this
    {
      if e in hub then hub[e] else []
    }

    /** `emit(event, data)`: every handler of the event, in registration order, is called
        with `data`; an event with no list calls nothing. */
    method Emit<D>(e: EventKey, data: D) returns (calls: seq<Call<H, D>>)
      ensures |calls| == |Handlers(e)|
      ensures forall i :: 0 <= i < |calls| ==> calls[i] == Call(Handlers(e)[i], data)
      ensures e !in hub ==> calls == []
    {
      var handlers := Handlers(e);
      calls := [];
      var i := 0;
      while i < |handlers|
        invariant 0 <= i <= |handlers|
        invariant |calls| == i
        invariant forall k :: 0 <= k < i ==> calls[k] == Call(handlers[k], data)
      {
        calls := calls + [Call(handlers[i], data)];
        i := i + 1;
      }
    }

    /** `on(event, handler)`: the list is created if missing and the handler pushed onto
        its end; no other event's list changes. */
    method On(e: EventKey, h: H)
      modifies this
      ensures hub == old(hub)[e := old(Handlers(e)) + [h]]
    {
      if e !in hub {
        hub := hub[e := []];
      }
      hub := hub[e := hub[e] + [h]];
    }

    /** `off(event, handler)`: the first occurrence of the handler, if any, is spliced out;
        otherwise, and for an event with no list, nothing changes. */
    method Off(e: EventKey, h: H)
      modifies this
      ensures h in old(Handlers(e)) ==> hub == old(hub)[e := RemoveFirst(old(Handlers(e)), h)]
      ensures h !in old(Handlers(e)) ==> hub == old(hub)
    {
      var i := FindIndex(Handlers(e), h);
      if i > -1 {
        RemoveFirstAt(hub[e], h, i);
        hub := hub[e := hub[e][..i] + hub[e][i + 1..]];
      }
    }
  }

  /** `findIndex(h => h === handler)`: the first position of `h`, or -1. */
  method FindIndex<H(==)>(s: seq<H>, h: H) returns (i: int)
    ensures -1 <= i < |s|
    ensures i == -1 <==> h !in s
    ensures i >= 0 ==> s[i] == h && h !in s[..i]
  {
    var k := 0;
    while k < |s|
      invariant 0 <= k <= |s|
      invariant h !in s[..k]
    {
      if s[k] == h {
        return k;
      }
      assert s[..k + 1] == s[..k] + [s[k]];
      k := k + 1;
    }
    assert s[..k] == s;
    i := -1;
  }

  /** `on` then `off` of a handler the event did not have leaves every event's handlers as
      they were (the event may keep an empty list it did not have before). */
  method OnThenOff<H(==)>(hub: EventHub<H>, e: EventKey, h: H)
    requires h !in hub.Handlers(e)
    modifies hub
    ensures forall x :: hub.Handlers(x) == old(hub.Handlers(x))
  {
    hub.On(e, h);
    assert hub.Handlers(e) == old(hub.Handlers(e)) + [h];
    OffUndoesOn(old(hub.Handlers(e)), h);
    hub.Off(e, h);
  }
}
