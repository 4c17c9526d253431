/**
 * Declared register layouts. Fields are listed most-significant-bit first
 * ("msb0"): the first declared field holds the top bits, and each later
 * field sits directly below the one before it.
 */
module Layout {
  import opened Bitfield

  /** A field position within a declared layout, in plain numbers (bit 0 least significant). */
  datatype Span = Span(shift: nat, width: nat)

  /** The bits taken by the fields declared from index `i` on. */
  function SumFrom(widths: seq<nat>, i: nat): nat
    decreases |widths| - i
  {
    if i >= |widths| then 0 else widths[i] + SumFrom(widths, i + 1)
  }

  /** The bits taken by all declared fields. */
  function Sum(widths: seq<nat>): nat
  {
    SumFrom(widths, 0)
  }

  /**
   * Places `widths` msb0 below bit `top`: field `i` sits directly above the
   * fields declared after it, so its lowest bit is the number of bits those
   * take, plus whatever is left unused at the bottom.
   */
  function Msb0Layout(widths: seq<nat>, top: nat): (spans: seq<Span>)
    requires Sum(widths) <= top
    ensures |spans| == |widths|
  {
    seq(|widths|, i requires 0 <= i < |widths| => Span(top - Sum(widths) + SumFrom(widths, i + 1), widths[i]))
  }

  /** Dropping fields from the front never adds bits. */
  lemma {:induction false} SumFromAntitone(widths: seq<nat>, i: nat, j: nat)
    requires i <= j
    ensures SumFrom(widths, j) <= SumFrom(widths, i)
    decreases j - i
  {
    if i < j {
      SumFromAntitone(widths, i + 1, j);
    }
  }

  /**
   * The msb0 placement: the first field's top bit is `top - 1`, every later
   * field sits directly below its predecessor, and no field reaches above `top`.
   */
  lemma {:induction false} Msb0Placement(widths: seq<nat>, top: nat)
    requires Sum(widths) <= top
    ensures |widths| > 0 ==> Msb0Layout(widths, top)[0].shift + widths[0] == top
    ensures forall i :: 0 < i < |widths| ==>
              Msb0Layout(widths, top)[i].shift + widths[i] == Msb0Layout(widths, top)[i - 1].shift
    ensures forall i :: 0 <= i < |widths| ==> Msb0Layout(widths, top)[i].shift + widths[i] <= top
  {
    var spans := Msb0Layout(widths, top);
    forall i | 0 <= i < |widths|
      ensures spans[i].shift + widths[i] <= top
    {
      SumFromAntitone(widths, 0, i);
    }
  }

  /** A run of one-bit fields takes one bit per field. */
  lemma {:induction false} OnesSum(widths: seq<nat>, i: nat)
    requires i <= |widths|
    requires forall k :: i <= k < |widths| ==> widths[k] == 1
    ensures SumFrom(widths, i) == |widths| - i
    decreases |widths| - i
  {
    if i < |widths| {
      OnesSum(widths, i + 1);
    }
  }

  /** A byte of one-bit fields, msb0: field `i` is bit `|widths| - 1 - i`. */
  lemma OnesLayout(widths: seq<nat>)
    requires forall k :: 0 <= k < |widths| ==> widths[k] == 1
    ensures Sum(widths) == |widths|
    ensures forall i :: 0 <= i < |widths| ==> Msb0Layout(widths, |widths|)[i] == Span(|widths| - 1 - i, 1)
  {
    OnesSum(widths, 0);
    forall i | 0 <= i < |widths|
      ensures Msb0Layout(widths, |widths|)[i] == Span(|widths| - 1 - i, 1)
    {
      OnesSum(widths, i + 1);
    }
  }

  /** The fields of `b` appended after those of `a` take what they took alone. */
  lemma {:induction false} SumFromShift(a: seq<nat>, b: seq<nat>, j: nat)
    requires j <= |b|
    ensures SumFrom(a + b, |a| + j) == SumFrom(b, j)
    decreases |b| - j
  {
    if j < |b| {
      SumFromShift(a, b, j + 1);
      assert (a + b)[|a| + j] == b[j];
    }
  }

  /** Concatenating two field lists adds their sizes. */
  lemma {:induction false} SumFromConcat(a: seq<nat>, b: seq<nat>, i: nat)
    requires i <= |a|
    ensures SumFrom(a + b, i) == SumFrom(a, i) + Sum(b)
    decreases |a| - i
  {
    if i < |a| {
      SumFromConcat(a, b, i + 1);
      assert (a + b)[i] == a[i];
    } else {
      SumFromShift(a, b, 0);
    }
  }

  /** Where a placed field sits, in plain numbers. */
  function SpanOf(f: Field): Span
  {
    Span(f.shift as nat, f.width as nat)
  }
}
