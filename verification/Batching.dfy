/** Packing connector projections into batches under a count and a payload budget.
    capability/contract.go:311-327 */
module Batching {

  datatype Projection = Projection(key: string, payload: string)

  const PAYLOAD_BUDGET := 786432

  function Size(batch: seq<Projection>): nat {
    if batch == [] then 0 else |batch[0].payload| + Size(batch[1..])
  }

  lemma {:induction false} SizeSplits(a: seq<Projection>, b: seq<Projection>)
    ensures Size(a + b) == Size(a) + Size(b)
  {
    if a == [] {
      assert a + b == b;
    } else {
      assert (a + b)[1..] == a[1..] + b;
      SizeSplits(a[1..], b);
    }
  }

  /** A batch respects both limits, except that one projection may exceed the budget alone. */
  predicate Legal(batch: seq<Projection>, maximum: nat) {
    1 <= |batch| <= maximum && (|batch| == 1 || Size(batch) <= PAYLOAD_BUDGET)
  }

  /** A part of a legal batch is legal. */
  lemma PartIsLegal(batch: seq<Projection>, maximum: nat, from: nat, to: nat)
    requires Legal(batch, maximum) && from < to <= |batch|
    ensures Legal(batch[from..to], maximum)
  {
    assert batch == batch[..from] + (batch[from..to] + batch[to..]);
    SizeSplits(batch[..from], batch[from..to] + batch[to..]);
    SizeSplits(batch[from..to], batch[to..]);
  }

  function Flatten(batches: seq<seq<Projection>>): seq<Projection> {
    if batches == [] then [] else batches[0] + Flatten(batches[1..])
  }

  lemma {:induction false} FlattenSnoc(batches: seq<seq<Projection>>, batch: seq<Projection>)
    ensures Flatten(batches + [batch]) == Flatten(batches) + batch
  {
    if batches == [] {
      assert [] + [batch] == [batch];
      assert Flatten([batch]) == batch + [];
    } else {
      assert (batches + [batch])[1..] == batches[1..] + [batch];
      FlattenSnoc(batches[1..], batch);
    }
  }

  predicate AllLegal(batches: seq<seq<Projection>>, maximum: nat) {
    forall i :: 0 <= i < |batches| ==> Legal(batches[i], maximum)
  }

  /** `batch` could not have taken the first projection of `next`. */
  predicate Full(batch: seq<Projection>, next: seq<Projection>, maximum: nat) {
    next != [] && !Legal(batch + [next[0]], maximum)
  }

  predicate Maximal(batches: seq<seq<Projection>>, maximum: nat) {
    forall i, j :: 0 <= i < j == i + 1 < |batches| ==> Full(batches[i], batches[j], maximum)
  }

  /** The batches closed so far and the open one hold exactly the projections read. */
  ghost predicate Packed(result: seq<seq<Projection>>, current: seq<Projection>, read: seq<Projection>, maximum: nat) {
    && Flatten(result) + current == read && AllLegal(result, maximum)
    && (if current == [] then result == [] else Legal(current, maximum) && Maximal(result + [current], maximum))
  }

  lemma Grow(result: seq<seq<Projection>>, current: seq<Projection>, read: seq<Projection>, value: Projection, maximum: nat)
    requires Packed(result, current, read, maximum) && Legal(current + [value], maximum)
    ensures Packed(result, current + [value], read + [value], maximum)
  {
    assert Flatten(result) + (current + [value]) == read + [value];
    var before, after := result + [current], result + [current + [value]];
    forall i, j | 0 <= i < j == i + 1 < |after| ensures Full(after[i], after[j], maximum) {
      assert Full(before[i], before[j], maximum) && after[i] == before[i];
      assert after[j][0] == before[j][0];
    }
  }

  lemma Close(result: seq<seq<Projection>>, current: seq<Projection>, read: seq<Projection>, value: Projection, maximum: nat)
    requires Packed(result, current, read, maximum) && current != [] && maximum >= 1 && !Legal(current + [value], maximum)
    ensures Packed(result + [current], [value], read + [value], maximum)
  {
    FlattenSnoc(result, current);
    var before, after := result + [current], result + [current] + [[value]];
    forall i, j | 0 <= i < j == i + 1 < |after| ensures Full(after[i], after[j], maximum) {
      if j < |before| { assert Full(before[i], before[j], maximum) && after[i] == before[i] && after[j] == before[j]; }
    }
  }

  /** Order and content are kept and every batch is legal and as full as the next projection allows. */
  method BatchProjections(values: seq<Projection>, maximum: nat) returns (result: seq<seq<Projection>>)
    requires maximum >= 1
    ensures Flatten(result) == values && AllLegal(result, maximum) && Maximal(result, maximum)
  {
    result := [];
    var current: seq<Projection>, size := [], 0;
    for i := 0 to |values|
      invariant Packed(result, current, values[..i], maximum) && size == Size(current)
    {
      var value := values[i];
      assert values[..i + 1] == values[..i] + [value];
      SizeSplits(current, [value]);
      assert Size([value]) == |value.payload|;
      if |current| != 0 && (|current| == maximum || size + |value.payload| > PAYLOAD_BUDGET) {
        Close(result, current, values[..i], value, maximum);
        result := result + [current];
        current, size := [], 0;
      } else {
        Grow(result, current, values[..i], value, maximum);
      }
      assert current == [] ==> current + [value] == [value];
      current := current + [value];
      size := size + |value.payload|;
    }
    assert values[..|values|] == values;
    if |current| != 0 {
      FlattenSnoc(result, current);
      result := result + [current];
    }
  }

  // ----- optimality -----

  lemma TailsKeep(batches: seq<seq<Projection>>, maximum: nat)
    requires batches != [] && AllLegal(batches, maximum)
    ensures AllLegal(batches[1..], maximum) && (Maximal(batches, maximum) ==> Maximal(batches[1..], maximum))
  {
    var tail := batches[1..];
    if Maximal(batches, maximum) {
      forall i, j | 0 <= i < j == i + 1 < |tail| ensures Full(tail[i], tail[j], maximum) {
        assert Full(batches[i + 1], batches[j + 1], maximum);
      }
    }
  }

  lemma FlattenSingle(batches: seq<seq<Projection>>)
    requires batches != []
    ensures |batches| == 1 ==> Flatten(batches) == batches[0]
  {
  }

  /** A maximal batch that starts inside a batch of another split reaches at least its end. */
  lemma ReachesEnd(full: seq<seq<Projection>>, other: seq<Projection>, rest: seq<Projection>, maximum: nat, offset: nat)
    requires full != [] && AllLegal(full, maximum) && Maximal(full, maximum)
    requires Legal(other, maximum) && offset < |other| && Flatten(full) == (other + rest)[offset..]
    ensures |full[0]| >= |other| - offset
  {
    if |full[0]| < |other| - offset {
      var n := |full[0]|;
      var w := (other + rest)[offset..];
      assert w[..n] == full[0];
      FlattenSingle(full);
      assert |full| > 1 && Full(full[0], full[1], maximum) && full[1..][0] == full[1];
      assert w[n] == full[1][0] by { assert w == full[0] + (full[1] + Flatten(full[1..][1..])); }
      assert other[offset..offset + n + 1] == full[0] + [full[1][0]];
      PartIsLegal(other, maximum, offset, offset + n + 1);
    }
  }

  /** Greedy stays ahead: started at any offset into another legal split, it needs no more batches. */
  lemma {:induction false} StaysAhead(full: seq<seq<Projection>>, other: seq<seq<Projection>>, maximum: nat, offset: nat)
    requires AllLegal(full, maximum) && Maximal(full, maximum) && AllLegal(other, maximum)
    requires offset <= |Flatten(other)| && Flatten(full) == Flatten(other)[offset..]
    ensures |full| <= |other|
    decreases |other|
  {
    if full != [] {
      assert Flatten(full)[0] == full[0][0];
      assert other != [];
      TailsKeep(other, maximum);
      var rest := Flatten(other[1..]);
      if offset >= |other[0]| {
        assert Flatten(other)[offset..] == rest[offset - |other[0]|..];
        StaysAhead(full, other[1..], maximum, offset - |other[0]|);
      } else {
        ReachesEnd(full, other[0], rest, maximum, offset);
        TailsKeep(full, maximum);
        var next := offset + |full[0]| - |other[0]|;
        assert Flatten(full[1..]) == Flatten(other)[offset..][|full[0]|..];
        assert Flatten(full[1..]) == rest[next..];
        StaysAhead(full[1..], other[1..], maximum, next);
      }
    }
  }

  /** The batches of the loop are the fewest any legal contiguous split can have. */
  lemma FewestBatches(values: seq<Projection>, result: seq<seq<Projection>>, other: seq<seq<Projection>>, maximum: nat)
    requires Flatten(result) == values && AllLegal(result, maximum) && Maximal(result, maximum)
    requires Flatten(other) == values && AllLegal(other, maximum)
    ensures |result| <= |other|
  {
    assert Flatten(other)[0..] == Flatten(other);
    StaysAhead(result, other, maximum, 0);
  }
}
