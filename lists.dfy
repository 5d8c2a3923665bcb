/**
 * The loop shape the transformer uses twice: walk a list, convert each
 * element, keep the elements that give a value and skip those that give
 * None; an exception on any element ends the loop and propagates.
 */
module Lists {
  import opened Wrappers

  /** The loop's outcome after the elements so far, given the outcome for the next one. */
  function Step<B>(sofar: Result<seq<B>>, next: Result<Option<B>>): Result<seq<B>> {
    match sofar
    case Raised => Raised
    case Ok(kept) =>
      match next
      case Raised => Raised
      case Ok(x) => Ok(if x.Some? then kept + [x.value] else kept)
  }

  /** The loop over `items`, defined on prefixes in the order the loop runs. */
  function FilterMap<A, B>(f: A -> Result<Option<B>>, items: seq<A>): Result<seq<B>>
    decreases |items|
  {
    if items == [] then Ok([])
    else Step(FilterMap(f, items[..|items| - 1]), f(items[|items| - 1]))
  }

  /** Both halves' outcomes, joined: an exception in either propagates. */
  function Join<B>(a: Result<seq<B>>, b: Result<seq<B>>): Result<seq<B>> {
    match a
    case Raised => Raised
    case Ok(x) =>
      match b
      case Raised => Raised
      case Ok(y) => Ok(x + y)
  }

  /**
   * The loop keeps order: its outcome on `a + b` is its outcome on `a`
   * followed by its outcome on `b`, and it raises when either part raises.
   */
  lemma {:induction false} FilterMapAppend<A, B>(f: A -> Result<Option<B>>, a: seq<A>, b: seq<A>)
    ensures FilterMap(f, a + b) == Join(FilterMap(f, a), FilterMap(f, b))
    decreases |b|
  {
    if b == [] {
      assert a + b == a;
      if FilterMap(f, a).Ok? {
        assert FilterMap(f, a).value + [] == FilterMap(f, a).value;
      }
    } else {
      var b' := b[..|b| - 1];
      assert (a + b)[..|a + b| - 1] == a + b';
      assert (a + b)[|a + b| - 1] == b[|b| - 1];
      FilterMapAppend(f, a, b');
      match FilterMap(f, a) {
        case Raised =>
        case Ok(x) =>
          match FilterMap(f, b') {
            case Raised =>
            case Ok(y) =>
              match f(b[|b| - 1]) {
                case Raised =>
                case Ok(e) =>
                  if e.Some? {
                    assert x + (y + [e.value]) == (x + y) + [e.value];
                  }
              }
          }
      }
    }
  }

  /** Every element whose conversion gives a value has that value kept, when the loop does not raise. */
  lemma {:induction false} FilterMapKeeps<A, B>(f: A -> Result<Option<B>>, items: seq<A>, i: nat)
    requires i < |items| && FilterMap(f, items).Ok? && f(items[i]).Ok? && f(items[i]).value.Some?
    ensures f(items[i]).value.value in FilterMap(f, items).value
    decreases |items|
  {
    var init := items[..|items| - 1];
    assert FilterMap(f, init).Ok?;
    if i < |items| - 1 {
      assert init[i] == items[i];
      FilterMapKeeps(f, init, i);
    }
  }

  /**
   * The loop keeps at most one value per element, each the value of some
   * element, and raises exactly when some element's conversion raises.
   */
  lemma {:induction false} FilterMapBounds<A, B>(f: A -> Result<Option<B>>, items: seq<A>)
    ensures FilterMap(f, items).Raised? <==> exists i :: 0 <= i < |items| && f(items[i]).Raised?
    ensures FilterMap(f, items).Ok? ==> |FilterMap(f, items).value| <= |items|
    ensures FilterMap(f, items).Ok? ==>
              forall y :: y in FilterMap(f, items).value ==> exists i :: 0 <= i < |items| && f(items[i]) == Ok(Some(y))
    decreases |items|
  {
    if items != [] {
      var init := items[..|items| - 1];
      FilterMapBounds(f, init);
      assert forall i :: 0 <= i < |init| ==> init[i] == items[i];
    }
  }

  /** A list comprehension with a condition, `[x for x in xs if keep(x)]`, on prefixes. */
  function Filter<T>(keep: T -> bool, xs: seq<T>): seq<T>
    decreases |xs|
  {
    if xs == [] then []
    else Filter(keep, xs[..|xs| - 1]) + (if keep(xs[|xs| - 1]) then [xs[|xs| - 1]] else [])
  }

  /** The filtered list is non-empty exactly when some element is kept, and it ends with the last one kept. */
  lemma {:induction false} FilterLast<T>(keep: T -> bool, xs: seq<T>)
    ensures |Filter(keep, xs)| > 0 <==> exists i :: 0 <= i < |xs| && keep(xs[i])
    ensures forall i :: 0 <= i < |xs| && keep(xs[i]) && (forall j :: i < j < |xs| ==> !keep(xs[j])) ==>
              var r := Filter(keep, xs); |r| > 0 && r[|r| - 1] == xs[i]
    decreases |xs|
  {
    if xs != [] {
      var n := |xs|;
      var init := xs[..n - 1];
      FilterLast(keep, init);
      if keep(xs[n - 1]) {
        assert Filter(keep, xs) == Filter(keep, init) + [xs[n - 1]];
      } else {
        assert Filter(keep, xs) == Filter(keep, init);
        forall i | 0 <= i < n && keep(xs[i])
          ensures i < n - 1 && keep(init[i])
        {
        }
        forall i | 0 <= i < n - 1 && keep(xs[i]) && (forall j :: i < j < n ==> !keep(xs[j]))
          ensures keep(init[i]) && forall j :: i < j < n - 1 ==> !keep(init[j])
        {
        }
      }
    }
  }

  /** One more turn of the loop: the outcome on `items[..i + 1]` from the outcome on `items[..i]`. */
  lemma FilterMapStep<A, B>(f: A -> Result<Option<B>>, items: seq<A>, i: nat, kept: seq<B>)
    requires i < |items| && FilterMap(f, items[..i]) == Ok(kept)
    ensures FilterMap(f, items[..i + 1]) == Step(Ok(kept), f(items[i]))
  {
    assert items[..i + 1][..i] == items[..i];
  }

  /** An exception on one element ends the loop with that exception. */
  lemma FilterMapRaises<A, B>(f: A -> Result<Option<B>>, items: seq<A>, i: nat)
    requires i < |items| && f(items[i]).Raised?
    ensures FilterMap(f, items).Raised?
  {
    FilterMapBounds(f, items);
  }

  /** One more turn of a filtering loop. */
  lemma FilterStep<T>(keep: T -> bool, xs: seq<T>, i: nat)
    requires i < |xs|
    ensures Filter(keep, xs[..i + 1]) == Filter(keep, xs[..i]) + (if keep(xs[i]) then [xs[i]] else [])
  {
    assert xs[..i + 1][..i] == xs[..i];
  }

  lemma AppendAssoc<T>(a: seq<T>, b: seq<T>, c: seq<T>)
    ensures (a + b) + c == a + (b + c)
  {
  }
}
