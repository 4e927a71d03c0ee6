/**
 * The rule that decides when the form recomputes its totals.  Two streams of
 * the `items` form array are merged, in arrival order:
 *  - its value stream, passed through `distinctUntilChanged` with a comparator
 *    that compares the serialised values, so a value passes when it is the
 *    first one or differs from the last value that passed; the `tap` before
 *    it only rebinds its own parameter, so the whole item values (names
 *    included) are compared;
 *  - its status stream, of which only `INVALID` passes the filter.
 * Every emission that passes triggers one recomputation.
 */
module Triggers {

  import opened Wrappers
  import opened LineItems

  /** The statuses an Angular form control can report. */
  datatype FormStatus = Valid | Invalid | Pending | Disabled

  /** One emission of the `items` array: a new value or a new status. */
  datatype Emission =
    | ItemsValue(value: seq<LineItem>)
    | ItemsStatus(status: FormStatus)

  /**
   * One step of the merged pipeline.  `last` is the value that last passed
   * `distinctUntilChanged`; the result is the operator's new state and
   * whether this emission reaches the subscriber.
   */
  function Step(last: Option<seq<LineItem>>, e: Emission): (Option<seq<LineItem>>, bool)
  {
    match e
    case ItemsValue(v) => if last == Some(v) then (last, false) else (Some(v), true)
    case ItemsStatus(s) => (last, s == Invalid)
  }

  /** Runs the pipeline over `es` from operator state `last`: one flag per emission. */
  function Filter(last: Option<seq<LineItem>>, es: seq<Emission>): (fired: seq<bool>)
    ensures |fired| == |es|
    decreases |es|
  {
    if es == [] then []
    else
      var (next, fires) := Step(last, es[0]);
      [fires] + Filter(next, es[1..])
  }

  /** Which emissions of a fresh subscription trigger `calculateTotal`. */
  function Triggers(es: seq<Emission>): (fired: seq<bool>)
    ensures |fired| == |es|
  {
    Filter(None, es)
  }

  /** Reference: the payload of the most recent value emission in `es`, if any. */
  function LastValue(es: seq<Emission>): Option<seq<LineItem>>
    decreases |es|
  {
    if es == [] then None
    else match es[|es| - 1]
      case ItemsValue(v) => Some(v)
      case ItemsStatus(_) => LastValue(es[..|es| - 1])
  }

  /**
   * Reference: emission `i` triggers a recomputation when it is a value that
   * differs from the value emitted before it (or no value came before it), or
   * when it is the status INVALID.
   */
  predicate Fires(es: seq<Emission>, i: nat)
    requires i < |es|
  {
    match es[i]
    case ItemsValue(v) => LastValue(es[..i]) != Some(v)
    case ItemsStatus(s) => s == Invalid
  }

  /** Running the pipeline after a prefix `p` agrees with the reference on `p + es`. */
  lemma {:induction false} FilterAfter(p: seq<Emission>, es: seq<Emission>, i: nat)
    requires i < |es|
    ensures Filter(LastValue(p), es)[i] == Fires(p + es, |p| + i)
    decreases |es|
  {
    assert (p + es)[..|p|] == p;
    assert (p + es)[|p| + i] == es[i];
    if i > 0 {
      var p' := p + [es[0]];
      assert p'[..|p'| - 1] == p;
      assert Step(LastValue(p), es[0]).0 == LastValue(p');
      FilterAfter(p', es[1..], i - 1);
      assert p' + es[1..] == p + es;
    }
  }

  /** The pipeline fires exactly where the reference says it does. */
  lemma TriggersSpec(es: seq<Emission>)
    ensures forall i :: 0 <= i < |es| ==> Triggers(es)[i] == Fires(es, i)
  {
    forall i | 0 <= i < |es|
      ensures Triggers(es)[i] == Fires(es, i)
    {
      FilterAfter([], es, i);
      assert [] + es == es;
    }
  }

  lemma {:induction false} NoValueBefore(es: seq<Emission>)
    requires forall j :: 0 <= j < |es| ==> es[j].ItemsStatus?
    ensures LastValue(es) == None
    decreases |es|
  {
    if es != [] {
      NoValueBefore(es[..|es| - 1]);
    }
  }

  /** The first value emission always triggers. */
  lemma FirstValueFires(es: seq<Emission>, i: nat)
    requires i < |es| && es[i].ItemsValue?
    requires forall j :: 0 <= j < i ==> es[j].ItemsStatus?
    ensures Triggers(es)[i]
  {
    TriggersSpec(es);
    NoValueBefore(es[..i]);
  }

  /**
   * A value equal to the one just emitted never triggers, whatever status
   * emissions came in between.
   */
  lemma RepeatedValueDoesNotFire(es: seq<Emission>, i: nat, k: nat)
    requires i < k < |es| && es[i].ItemsValue? && es[k] == es[i]
    requires forall j :: i < j < k ==> es[j].ItemsStatus?
    ensures !Triggers(es)[k]
  {
    TriggersSpec(es);
    var between := es[i + 1..k];
    NoValueBefore(between);
    LastValueSkips(es[..i + 1], between);
    assert es[..k] == es[..i + 1] + between;
    assert es[..i + 1][..i] == es[..i];
  }

  lemma {:induction false} LastValueSkips(p: seq<Emission>, q: seq<Emission>)
    requires LastValue(q) == None
    ensures LastValue(p + q) == LastValue(p)
    decreases |q|
  {
    if q == [] {
      assert p + q == p;
    } else {
      assert (p + q)[..|p + q| - 1] == p + q[..|q| - 1];
      LastValueSkips(p, q[..|q| - 1]);
    }
  }

  /** A value that differs from the previous one, even only in a name, triggers. */
  lemma ChangedValueFires(es: seq<Emission>, i: nat, k: nat)
    requires i < k < |es| && es[i].ItemsValue? && es[k].ItemsValue?
    requires es[k].value != es[i].value
    requires forall j :: i < j < k ==> es[j].ItemsStatus?
    ensures Triggers(es)[k]
  {
    TriggersSpec(es);
    var between := es[i + 1..k];
    NoValueBefore(between);
    LastValueSkips(es[..i + 1], between);
    assert es[..k] == es[..i + 1] + between;
  }

  /** Status emissions trigger exactly when they are INVALID. */
  lemma StatusFiresIffInvalid(es: seq<Emission>, i: nat)
    requires i < |es| && es[i].ItemsStatus?
    ensures Triggers(es)[i] <==> es[i].status == Invalid
  {
    TriggersSpec(es);
  }
}
