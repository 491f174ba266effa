/** Row cleaning of train_model: rows with a missing price, distance or
    surge multiplier are dropped, the others are kept in their order. */
module Cleaning {
  import opened Wrappers

  /** One row of the rideshare table; a missing numeric cell is None. */
  datatype RawRow = RawRow(
    distance: Option<real>,
    surgeMultiplier: Option<real>,
    cabType: string,
    name: string,
    price: Option<real>)

  /** All three columns the cleaning looks at are present. */
  predicate Complete(r: RawRow)
  {
    r.distance.Some? && r.surgeMultiplier.Some? && r.price.Some?
  }

  predicate AllComplete(rows: seq<RawRow>)
  {
    forall i :: 0 <= i < |rows| ==> Complete(rows[i])
  }

  /** dropna over the price, distance and surge multiplier columns */
  function DropMissing(rows: seq<RawRow>): (kept: seq<RawRow>)
    ensures |kept| <= |rows|
    ensures AllComplete(kept)
    ensures forall r :: r in kept <==> r in rows && Complete(r)
  {
    if |rows| == 0 then []
    else (if Complete(rows[0]) then [rows[0]] else []) + DropMissing(rows[1..])
  }

  /** Dropping rows is an order-preserving filter: it works piecewise on a
      concatenation, so the kept rows keep their relative order. */
  lemma {:induction false} DropMissingConcat(a: seq<RawRow>, b: seq<RawRow>)
    ensures DropMissing(a + b) == DropMissing(a) + DropMissing(b)
  {
    if |a| == 0 {
      assert a + b == b;
    } else {
      assert (a + b)[1..] == a[1..] + b;
      DropMissingConcat(a[1..], b);
    }
  }

  /** A table with nothing missing comes through unchanged. */
  lemma {:induction false} DropMissingKeepsComplete(rows: seq<RawRow>)
    requires AllComplete(rows)
    ensures DropMissing(rows) == rows
  {
    if |rows| > 0 {
      DropMissingKeepsComplete(rows[1..]);
    }
  }

  /** The whole cleaning step: dropna, then the NaN mask over the numeric
      columns and the label.  The mask tests the same three cells again, so
      after dropna it removes nothing. */
  function CleanRows(rows: seq<RawRow>): (clean: seq<RawRow>)
    ensures clean == DropMissing(rows)
  {
    var dropped := DropMissing(rows);
    DropMissingKeepsComplete(dropped);
    DropMissing(dropped)
  }
}
