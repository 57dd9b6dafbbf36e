/** The loop every adapter runs over a provider list: extract one item after the other,
    front to back, and let the first exception abort the whole list. `Collected` keeps
    one result per item (news articles, rendered article blocks); `Filtered` lets an
    item contribute nothing (score events without two competitors). */
module Extraction {
  import opened Json

  function Collected<T, U>(extract: T -> Result<U>, items: seq<T>): Result<seq<U>>
  {
    if items == [] then Ok([])
    else
      var done :- Collected(extract, items[..|items| - 1]);
      var last :- extract(items[|items| - 1]);
      Ok(done + [last])
  }

  /** Collecting succeeds exactly when every item can be extracted, and then yields one
      result per item, in item order. */
  lemma {:induction false} CollectedSpec<T, U>(extract: T -> Result<U>, items: seq<T>)
    ensures Collected(extract, items).Ok? <==> forall i | 0 <= i < |items| :: extract(items[i]).Ok?
    ensures Collected(extract, items).Ok? ==>
      && |Collected(extract, items).value| == |items|
      && forall i | 0 <= i < |items| :: Collected(extract, items).value[i] == extract(items[i]).value
  {
    if items != [] {
      var init := items[..|items| - 1];
      CollectedSpec(extract, init);
      assert forall i | 0 <= i < |init| :: init[i] == items[i];
    }
  }

  /** A successful collection is that of all items but the last, then the last item's. */
  lemma CollectedLast<T, U>(extract: T -> Result<U>, items: seq<T>)
    requires items != [] && Collected(extract, items).Ok?
    ensures Collected(extract, items[..|items| - 1]).Ok? && extract(items[|items| - 1]).Ok?
    ensures Collected(extract, items).value ==
      Collected(extract, items[..|items| - 1]).value + [extract(items[|items| - 1]).value]
  {
  }

  /** Once a prefix raises, the whole list raises the same exception. */
  lemma {:induction false} CollectedStops<T, U>(extract: T -> Result<U>, items: seq<T>, k: nat)
    requires k <= |items|
    requires Collected(extract, items[..k]).Err?
    ensures Collected(extract, items) == Collected(extract, items[..k])
    decreases |items| - k
  {
    if k < |items| {
      var init := items[..|items| - 1];
      assert init[..k] == items[..k];
      CollectedStops(extract, init, k);
    } else {
      assert items[..k] == items;
    }
  }

  function Present<U>(x: Option<U>): (r: seq<U>)
    ensures |r| <= 1
  {
    match x
    case Some(v) => [v]
    case None => []
  }

  function Filtered<T, U>(extract: T -> Result<Option<U>>, items: seq<T>): Result<seq<U>>
  {
    if items == [] then Ok([])
    else
      var done :- Filtered(extract, items[..|items| - 1]);
      var last :- extract(items[|items| - 1]);
      Ok(done + Present(last))
  }

  /** Filtering succeeds exactly when every item can be extracted, and never yields more
      results than there are items. */
  lemma {:induction false} FilteredSpec<T, U>(extract: T -> Result<Option<U>>, items: seq<T>)
    ensures Filtered(extract, items).Ok? <==> forall i | 0 <= i < |items| :: extract(items[i]).Ok?
    ensures Filtered(extract, items).Ok? ==> |Filtered(extract, items).value| <= |items|
  {
    if items != [] {
      var init := items[..|items| - 1];
      FilteredSpec(extract, init);
      assert forall i | 0 <= i < |init| :: init[i] == items[i];
    }
  }

  /** Results keep item order: those of `a + b` are those of `a` followed by those of `b`. */
  lemma {:induction false} FilteredAppend<T, U>(extract: T -> Result<Option<U>>, a: seq<T>, b: seq<T>)
    ensures Filtered(extract, a + b).Ok? <==> Filtered(extract, a).Ok? && Filtered(extract, b).Ok?
    ensures Filtered(extract, a + b).Ok? ==>
      Filtered(extract, a + b).value == Filtered(extract, a).value + Filtered(extract, b).value
    decreases |b|
  {
    if b == [] {
      assert a + b == a;
    } else {
      var init := b[..|b| - 1];
      FilteredAppend(extract, a, init);
      assert (a + b)[..|a + b| - 1] == a + init;
      assert (a + b)[|a + b| - 1] == b[|b| - 1];
    }
  }

  /** A single item contributes its own result, or nothing. */
  lemma FilteredOne<T, U>(extract: T -> Result<Option<U>>, item: T)
    ensures Filtered(extract, [item]).Ok? <==> extract(item).Ok?
    ensures extract(item).Ok? ==> Filtered(extract, [item]).value == Present(extract(item).value)
  {
    assert [item][..0] == [];
  }

  /** When every item yields a result, there is one result per item, in item order. */
  lemma {:induction false} FilteredAll<T, U>(extract: T -> Result<Option<U>>, items: seq<T>)
    requires forall i | 0 <= i < |items| :: extract(items[i]).Ok? && extract(items[i]).value.Some?
    ensures Filtered(extract, items).Ok? && |Filtered(extract, items).value| == |items|
    ensures forall i | 0 <= i < |items| ::
      Filtered(extract, items).value[i] == extract(items[i]).value.value
  {
    if items != [] {
      var init := items[..|items| - 1];
      assert forall i | 0 <= i < |init| :: init[i] == items[i];
      FilteredAll(extract, init);
    }
  }

  /** An item that yields nothing is skipped: the list filters as if it were not there. */
  lemma FilteredSkip<T, U>(extract: T -> Result<Option<U>>, a: seq<T>, x: T, b: seq<T>)
    requires extract(x) == Ok(None)
    ensures Filtered(extract, a + [x] + b).Ok? <==> Filtered(extract, a + b).Ok?
    ensures Filtered(extract, a + b).Ok? ==>
      Filtered(extract, a + [x] + b).value == Filtered(extract, a + b).value
  {
    FilteredAppend(extract, a + [x], b);
    FilteredAppend(extract, a, [x]);
    FilteredOne(extract, x);
    FilteredAppend(extract, a, b);
    if Filtered(extract, a + b).Ok? {
      assert Filtered(extract, a).value + [] == Filtered(extract, a).value;
    }
  }
}
