/**
 * The Alpaca registry against the unfiltered registry of `FuncDataQueueHandler`, which adds every
 * given symbol to a set (`old(subscriptions) + set s | s in symbols`). The Alpaca registry never
 * holds a symbol the unfiltered one would not, and holds the same symbols exactly when nothing in
 * the batch is filtered out.
 */
module RegistryContrast {
  import opened LeanTypes
  import opened AlpacaSubscriptions

  /** After a batch, every symbol the Alpaca registry holds was held before or is in the batch. */
  lemma FilteredWithinUnfiltered(r: Registry, symbols: seq<Symbol>)
    ensures SubscribeBatch(r, symbols).subscribed.Values <= r.subscribed.Values + set s | s in symbols
  {
    var after := SubscribeBatch(r, symbols).subscribed;
    SubscribeBatchEntries(r, symbols);
    forall x | x in after.Values ensures x in r.subscribed.Values || x in symbols {
      var v :| v in after && after[v] == x;
      if v in r.subscribed {
        assert r.subscribed[v] == x;
      } else {
        assert x == symbols[FirstEligibleIndex(symbols, v)];
      }
    }
  }

  /**
   * When every symbol of the batch is eligible, new to the registry, and the only symbol of the
   * batch with its value, the Alpaca registry ends up holding exactly what the unfiltered set would.
   */
  lemma FilteredEqualsUnfiltered(r: Registry, symbols: seq<Symbol>)
    requires forall i :: 0 <= i < |symbols| ==> CanSubscribe(symbols[i]) && symbols[i].value !in r.subscribed
    requires forall i, j :: 0 <= i < |symbols| && 0 <= j < |symbols| && symbols[i].value == symbols[j].value ==>
      symbols[i] == symbols[j]
    ensures SubscribeBatch(r, symbols).subscribed.Values == r.subscribed.Values + set s | s in symbols
  {
    var after := SubscribeBatch(r, symbols).subscribed;
    FilteredWithinUnfiltered(r, symbols);
    SubscribeBatchEntries(r, symbols);
    forall x | x in r.subscribed.Values ensures x in after.Values {
      var v :| v in r.subscribed && r.subscribed[v] == x;
      assert after[v] == x;
    }
    forall i | 0 <= i < |symbols| ensures symbols[i] in after.Values {
      var v := symbols[i].value;
      assert Selects(symbols[i], v);
      var k := FirstEligibleIndex(symbols, v);
      assert after[v] == symbols[k];
    }
  }

  /**
   * An ineligible symbol is something the unfiltered set takes in and the Alpaca registry does not:
   * it is never the entry under its own value, and, unless the registry already held it under some
   * other value, it is held under no value at all after the batch.
   */
  lemma IneligibleOnlyUnfiltered(r: Registry, symbols: seq<Symbol>, s: Symbol)
    requires s in symbols && !CanSubscribe(s) && s.value !in r.subscribed
    ensures s.value !in SubscribeBatch(r, symbols).subscribed || SubscribeBatch(r, symbols).subscribed[s.value] != s
    ensures s !in r.subscribed.Values ==> s !in SubscribeBatch(r, symbols).subscribed.Values
  {
    SubscribeBatchEntries(r, symbols);
    var after := SubscribeBatch(r, symbols).subscribed;
    var k := FirstEligibleIndex(symbols, s.value);
    if k != -1 {
      assert Selects(symbols[k], s.value);
    }
    if s !in r.subscribed.Values {
      forall v | v in after ensures after[v] != s {
        if v !in r.subscribed {
          assert Selects(symbols[FirstEligibleIndex(symbols, v)], v);
        }
      }
    }
  }
}
