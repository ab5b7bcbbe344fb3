/**
 * The field sanitizer `prune_available_markets` (main.py:7-15): before any
 * document is saved, the key `available_markets` is removed from every dict at
 * every depth, including dicts inside lists and lists of lists.  The source
 * pops the key in place while it recurses; since nothing else observes the
 * intermediate states, the model returns the pruned value instead.
 */
module Pruning {
  import opened Wrappers
  import opened JsonValue

  /** The one key the exporter strips from every document. */
  const MarketsKey: string := "available_markets"

  /** The value `prune_available_markets` leaves behind in place of `j`. */
  function Prune(j: Json): Json
  {
    match j
    case Arr(es) => Arr(PruneElems(es))
    case Obj(fs) => Obj(PruneFields(fs))
    case _ => j
  }

  /** The loop over a list: every element is pruned, none is added or dropped. */
  function PruneElems(es: seq<Json>): (r: seq<Json>)
    ensures |r| == |es|
    ensures forall i :: 0 <= i < |es| ==> r[i] == Prune(es[i])
  {
    if es == [] then [] else [Prune(es[0])] + PruneElems(es[1..])
  }

  /** The pop followed by the loop over the remaining items of a dict. */
  function PruneFields(fs: seq<Field>): seq<Field>
  {
    if fs == [] then []
    else if fs[0].key == MarketsKey then PruneFields(fs[1..])
    else [Field(fs[0].key, Prune(fs[0].value))] + PruneFields(fs[1..])
  }

  /** Pruning a looked-up value, if there is one. */
  function PruneOption(o: Option<Json>): Option<Json>
  {
    match o
    case None => None
    case Some(v) => Some(Prune(v))
  }

  /** The key list `ks` with every occurrence of `k` taken out, order kept. */
  function Without(ks: seq<string>, k: string): seq<string>
  {
    if ks == [] then []
    else if ks[0] == k then Without(ks[1..], k)
    else [ks[0]] + Without(ks[1..], k)
  }

  /** The sanitizer's postcondition: no dict at any depth holds `available_markets`. */
  predicate NoMarkets(j: Json)
  {
    match j
    case Arr(es) => forall i :: 0 <= i < |es| ==> NoMarkets(es[i])
    case Obj(fs) => forall i :: 0 <= i < |fs| ==> fs[i].key != MarketsKey && NoMarkets(fs[i].value)
    case _ => true
  }

  // ---------------------------------------------------------------------------
  // Absence at every depth
  // ---------------------------------------------------------------------------

  lemma {:induction false} PruneRemovesMarkets(j: Json)
    ensures NoMarkets(Prune(j))
  {
    match j
    case Arr(es) =>
      forall i | 0 <= i < |es| ensures NoMarkets(Prune(j).elems[i]) {
        PruneRemovesMarkets(es[i]);
      }
    case Obj(fs) =>
      PruneFieldsRemovesMarkets(fs);
    case _ =>
  }

  lemma {:induction false} PruneFieldsRemovesMarkets(fs: seq<Field>)
    ensures forall i :: 0 <= i < |PruneFields(fs)| ==>
      PruneFields(fs)[i].key != MarketsKey && NoMarkets(PruneFields(fs)[i].value)
  {
    if fs != [] {
      PruneFieldsRemovesMarkets(fs[1..]);
      if fs[0].key != MarketsKey {
        PruneRemovesMarkets(fs[0].value);
      }
    }
  }

  // ---------------------------------------------------------------------------
  // Everything else is kept: keys, their order, and the (pruned) values
  // ---------------------------------------------------------------------------

  /** The surviving keys are the original keys minus `available_markets`, in the same order. */
  lemma {:induction false} PruneFieldsKeys(fs: seq<Field>)
    ensures Keys(PruneFields(fs)) == Without(Keys(fs), MarketsKey)
  {
    if fs != [] {
      PruneFieldsKeys(fs[1..]);
      assert Keys(fs)[1..] == Keys(fs[1..]);
    }
  }

  /** Looking a key up after pruning gives the pruned original value; the markets key is gone. */
  lemma {:induction false} PruneFieldsLookup(fs: seq<Field>, k: string)
    ensures Lookup(PruneFields(fs), k) ==
      if k == MarketsKey then None else PruneOption(Lookup(fs, k))
  {
    if fs != [] {
      PruneFieldsLookup(fs[1..], k);
    }
  }

  /** A dict without the markets key keeps every field, in place, with its value pruned. */
  lemma {:induction false} PruneFieldsWithoutMarkets(fs: seq<Field>)
    requires forall i :: 0 <= i < |fs| ==> fs[i].key != MarketsKey
    ensures |PruneFields(fs)| == |fs|
    ensures forall i :: 0 <= i < |fs| ==> PruneFields(fs)[i] == Field(fs[i].key, Prune(fs[i].value))
  {
    if fs != [] {
      PruneFieldsWithoutMarkets(fs[1..]);
      assert PruneFields(fs) == [Field(fs[0].key, Prune(fs[0].value))] + PruneFields(fs[1..]);
      forall i | 1 <= i < |fs|
        ensures PruneFields(fs)[i] == Field(fs[i].key, Prune(fs[i].value))
      {
        assert fs[1..][i - 1] == fs[i];
      }
    }
  }

  // ---------------------------------------------------------------------------
  // Fixed points and idempotence
  // ---------------------------------------------------------------------------

  lemma {:induction false} PruneKeepsClean(j: Json)
    requires NoMarkets(j)
    ensures Prune(j) == j
  {
    match j
    case Arr(es) =>
      forall i | 0 <= i < |es| ensures Prune(es[i]) == es[i] {
        PruneKeepsClean(es[i]);
      }
      assert PruneElems(es) == es;
    case Obj(fs) =>
      PruneFieldsKeepsClean(fs);
    case _ =>
  }

  lemma {:induction false} PruneFieldsKeepsClean(fs: seq<Field>)
    requires forall i :: 0 <= i < |fs| ==> fs[i].key != MarketsKey && NoMarkets(fs[i].value)
    ensures PruneFields(fs) == fs
  {
    if fs != [] {
      PruneFieldsKeepsClean(fs[1..]);
      PruneKeepsClean(fs[0].value);
    }
  }

  /** A value is left unchanged by pruning exactly when it holds no `available_markets` key. */
  lemma PruneFixedPoints(j: Json)
    ensures Prune(j) == j <==> NoMarkets(j)
  {
    PruneRemovesMarkets(j);
    if NoMarkets(j) {
      PruneKeepsClean(j);
    }
  }

  /** Pruning twice is pruning once. */
  lemma PruneIdempotent(j: Json)
    ensures Prune(Prune(j)) == Prune(j)
  {
    PruneRemovesMarkets(j);
    PruneKeepsClean(Prune(j));
  }

  // ---------------------------------------------------------------------------
  // Pruning keeps dicts well formed
  // ---------------------------------------------------------------------------

  lemma {:induction false} WithoutSubset(ks: seq<string>, k: string, x: string)
    ensures x in Without(ks, k) ==> x in ks && x != k
  {
    if ks != [] {
      WithoutSubset(ks[1..], k, x);
    }
  }

  lemma {:induction false} WithoutDistinct(ks: seq<string>, k: string)
    requires Distinct(ks)
    ensures Distinct(Without(ks, k))
  {
    if ks != [] {
      assert Distinct(ks[1..]) by {
        forall i, j | 0 <= i < j < |ks[1..]| ensures ks[1..][i] != ks[1..][j] {
          assert ks[i + 1] != ks[j + 1];
        }
      }
      WithoutDistinct(ks[1..], k);
      if ks[0] != k {
        WithoutSubset(ks[1..], k, ks[0]);
        assert ks[0] !in ks[1..] by {
          forall i | 0 <= i < |ks[1..]| ensures ks[1..][i] != ks[0] {
            assert ks[i + 1] != ks[0];
          }
        }
        var rest := Without(ks[1..], k);
        forall i, j | 0 <= i < j < |[ks[0]] + rest| ensures ([ks[0]] + rest)[i] != ([ks[0]] + rest)[j] {
          if i == 0 {
            assert ([ks[0]] + rest)[j] == rest[j - 1];
            assert rest[j - 1] in rest;
          }
        }
      }
    }
  }

  /** Pruning a value whose dicts have distinct keys leaves dicts with distinct keys. */
  lemma {:induction false} PrunePreservesWellFormed(j: Json)
    requires WellFormed(j)
    ensures WellFormed(Prune(j))
  {
    match j
    case Arr(es) =>
      forall i | 0 <= i < |es| ensures WellFormed(Prune(j).elems[i]) {
        PrunePreservesWellFormed(es[i]);
      }
    case Obj(fs) =>
      PruneFieldsKeys(fs);
      WithoutDistinct(Keys(fs), MarketsKey);
      PruneFieldsPreservesWellFormed(fs);
    case _ =>
  }

  lemma {:induction false} PruneFieldsPreservesWellFormed(fs: seq<Field>)
    requires forall i :: 0 <= i < |fs| ==> WellFormed(fs[i].value)
    ensures forall i :: 0 <= i < |PruneFields(fs)| ==> WellFormed(PruneFields(fs)[i].value)
  {
    if fs != [] {
      PruneFieldsPreservesWellFormed(fs[1..]);
      if fs[0].key != MarketsKey {
        PrunePreservesWellFormed(fs[0].value);
      }
    }
  }
}
