/**
 * `FuncDataQueueHandler`, the test double of `IDataQueueHandler`: a plain set of symbols with no
 * eligibility rule, keyed by symbol equality, and a snapshot getter.
 */
module FuncDataQueue {
  import opened LeanTypes

  /** No symbol occurs twice in `list`. */
  predicate NoDuplicates(list: seq<Symbol>)
  {
    forall i, j :: 0 <= i < j < |list| ==> list[i] != list[j]
  }

  class FuncDataQueueHandler {
    /** `_subscriptions`. */
    var subscriptions: set<Symbol>

    constructor ()
      ensures subscriptions == {}
    {
      subscriptions := {};
    }

    /** `Subscriptions`: a new list holding each subscribed symbol exactly once. */
    method Subscriptions() returns (list: seq<Symbol>)
      ensures forall s :: s in list <==> s in subscriptions
      ensures NoDuplicates(list)
      ensures |list| == |subscriptions|
    {
      list := [];
      var rest := subscriptions;
      while rest != {}
        invariant forall s :: s in subscriptions <==> s in list || s in rest
        invariant forall s :: s in list ==> s !in rest
        invariant NoDuplicates(list)
        invariant |list| + |rest| == |subscriptions|
        decreases |rest|
      {
        var s :| s in rest;
        list := list + [s];
        rest := rest - {s};
      }
    }

    /** `Subscribe(SubscriptionRequest, EventHandler)`: adds the request's symbol and returns null. */
    method Subscribe(request: SubscriptionRequest) returns (enumerator: Option<DataEnumerator>)
      modifies this
      ensures subscriptions == old(subscriptions) + {request.security.symbol}
      ensures enumerator == None
    {
      SubscribeSymbols([request.security.symbol]);
      enumerator := None;
    }

    /** `Subscribe(IEnumerable<Symbol>)`: every given symbol is added; nothing is filtered out. */
    method SubscribeSymbols(symbols: seq<Symbol>)
      modifies this
      ensures subscriptions == old(subscriptions) + set s | s in symbols
    {
      for i := 0 to |symbols|
        invariant subscriptions == old(subscriptions) + set s | s in symbols[..i]
      {
        assert symbols[..i + 1] == symbols[..i] + [symbols[i]];
        subscriptions := subscriptions + {symbols[i]};
      }
      assert symbols[..|symbols|] == symbols;
    }

    /** `Unsubscribe(SubscriptionDataConfig)`: removes the config's symbol and nothing else. */
    method Unsubscribe(dataConfig: SubscriptionDataConfig)
      modifies this
      ensures subscriptions == old(subscriptions) - {dataConfig.symbol}
    {
      UnsubscribeSymbols([dataConfig.symbol]);
    }

    /** `Unsubscribe(IEnumerable<Symbol>)`: every given symbol is removed; absent ones are ignored. */
    method UnsubscribeSymbols(symbols: seq<Symbol>)
      modifies this
      ensures subscriptions == old(subscriptions) - set s | s in symbols
    {
      for i := 0 to |symbols|
        invariant subscriptions == old(subscriptions) - set s | s in symbols[..i]
      {
        assert symbols[..i + 1] == symbols[..i] + [symbols[i]];
        subscriptions := subscriptions - {symbols[i]};
      }
      assert symbols[..|symbols|] == symbols;
    }
  }
}
