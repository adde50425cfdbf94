/**
 * The subscription registry of the Alpaca data-queue handler: the eligibility rule `CanSubscribe`,
 * and the `Subscribe`/`Unsubscribe` batches over the map from a symbol's `Value` to the symbol,
 * together with the log of calls they issue to the Polygon streaming client.
 *
 * `Subscribe` filters its batch with two lazy `Where` clauses, so the membership test of each
 * symbol runs after the previous symbols have been added: `SubscribeOne` re-checks the map for
 * every element and a batch is the fold of `SubscribeOne` over it, front to back.
 */
module AlpacaSubscriptions {
  import opened LeanTypes
  import opened StringExtensions

  /** The marker of synthetic universe symbols that must never reach the live feed. */
  const UniverseMarker: string := "universe"

  /** Only equities qualify, and only when their `Value` holds no "universe" in any case. */
  function CanSubscribe(symbol: Symbol): (eligible: bool)
    ensures eligible <==>
      symbol.id.securityType == Equity && forall i :: !MatchesAt(symbol.value, UniverseMarker, i)
  {
    if symbol.id.securityType != Equity then false
    else IndexOfIgnoreCase(symbol.value, UniverseMarker) == -1
  }

  // ---------------------------------------------------------------------------------------------
  // The Polygon streaming client, as the log of calls made to it

  datatype StreamCall =
    | SubscribeQuote(value: string)
    | SubscribeTrade(value: string)
    | UnsubscribeQuote(value: string)
    | UnsubscribeTrade(value: string)

  /** The effect of one call on the set of values with an open quote stream. */
  function QuoteStep(open: set<string>, call: StreamCall): set<string>
  {
    match call
    case SubscribeQuote(v) => open + {v}
    case UnsubscribeQuote(v) => open - {v}
    case _ => open
  }

  /** The effect of one call on the set of values with an open trade stream. */
  function TradeStep(open: set<string>, call: StreamCall): set<string>
  {
    match call
    case SubscribeTrade(v) => open + {v}
    case UnsubscribeTrade(v) => open - {v}
    case _ => open
  }

  /** The values whose quote stream is open once `calls` have been issued, in order. */
  function QuoteStreams(calls: seq<StreamCall>): set<string>
  {
    if calls == [] then {} else QuoteStep(QuoteStreams(calls[..|calls| - 1]), calls[|calls| - 1])
  }

  /** The values whose trade stream is open once `calls` have been issued, in order. */
  function TradeStreams(calls: seq<StreamCall>): set<string>
  {
    if calls == [] then {} else TradeStep(TradeStreams(calls[..|calls| - 1]), calls[|calls| - 1])
  }

  /** Issuing `call` after `calls` changes a stream's state: it opens a closed one or closes an open one. */
  predicate Effective(calls: seq<StreamCall>, call: StreamCall)
  {
    match call
    case SubscribeQuote(v) => v !in QuoteStreams(calls)
    case SubscribeTrade(v) => v !in TradeStreams(calls)
    case UnsubscribeQuote(v) => v in QuoteStreams(calls)
    case UnsubscribeTrade(v) => v in TradeStreams(calls)
  }

  /** No call in the log is redundant: nothing is subscribed twice or unsubscribed while closed. */
  ghost predicate NoRedundantCalls(calls: seq<StreamCall>)
  {
    forall i :: 0 <= i < |calls| ==> Effective(calls[..i], calls[i])
  }

  /** How often `call` occurs in `calls`. */
  function Occurrences(calls: seq<StreamCall>, call: StreamCall): nat
  {
    if calls == [] then 0
    else (if calls[0] == call then 1 else 0) + Occurrences(calls[1..], call)
  }

  /** `calls` is a run of pairs, each a quote subscription followed by the trade subscription of the same value. */
  predicate SubscribePairs(calls: seq<StreamCall>)
    decreases |calls|
  {
    calls == [] ||
    (|calls| >= 2 && calls[0].SubscribeQuote? && calls[1] == SubscribeTrade(calls[0].value) &&
     SubscribePairs(calls[2..]))
  }

  /** `calls` is a run of pairs, each a quote unsubscription followed by the trade unsubscription of the same value. */
  predicate UnsubscribePairs(calls: seq<StreamCall>)
    decreases |calls|
  {
    calls == [] ||
    (|calls| >= 2 && calls[0].UnsubscribeQuote? && calls[1] == UnsubscribeTrade(calls[0].value) &&
     UnsubscribePairs(calls[2..]))
  }

  // ---------------------------------------------------------------------------------------------
  // The registry

  /** `_subscribedSymbols` and the calls issued so far to the streaming client. */
  datatype Registry = Registry(subscribed: map<string, Symbol>, calls: seq<StreamCall>)

  /**
   * Every entry is keyed by its own `Value` and is eligible, and the open quote and trade streams
   * are exactly the subscribed values, reached without a single redundant call.
   */
  ghost predicate RegistryValid(r: Registry)
  {
    && (forall v :: v in r.subscribed ==> r.subscribed[v].value == v && CanSubscribe(r.subscribed[v]))
    && QuoteStreams(r.calls) == r.subscribed.Keys
    && TradeStreams(r.calls) == r.subscribed.Keys
    && NoRedundantCalls(r.calls)
  }

  /**
   * One iteration of `Subscribe(IEnumerable<Symbol>)`: an eligible symbol's value becomes a key,
   * no existing entry changes, and calls are only appended.
   */
  function SubscribeOne(r: Registry, symbol: Symbol): (r': Registry)
    ensures r'.subscribed.Keys == r.subscribed.Keys + (if CanSubscribe(symbol) then {symbol.value} else {})
    ensures forall v :: v in r.subscribed ==> r'.subscribed[v] == r.subscribed[v]
    ensures r.calls <= r'.calls
  {
    if symbol.value !in r.subscribed && CanSubscribe(symbol) then
      Registry(r.subscribed[symbol.value := symbol],
               r.calls + [SubscribeQuote(symbol.value), SubscribeTrade(symbol.value)])
    else r
  }

  /**
   * `Subscribe(IEnumerable<Symbol>)`: the symbols are taken in order. Keys are only added and
   * calls only appended; `SubscribeBatchKeys` and `SubscribeBatchEntries` say exactly what is added.
   */
  function SubscribeBatch(r: Registry, symbols: seq<Symbol>): (r': Registry)
    ensures r.subscribed.Keys <= r'.subscribed.Keys
    ensures r.calls <= r'.calls
    decreases |symbols|
  {
    if symbols == [] then r
    else
      SubscribeBatch(SubscribeOne(r, symbols[0]), symbols[1..])
  }

  /**
   * One iteration of `Unsubscribe(IEnumerable<Symbol>)`: an eligible symbol's value stops being
   * a key, nothing else changes in the map, and calls are only appended.
   */
  function UnsubscribeOne(r: Registry, symbol: Symbol): (r': Registry)
    ensures r'.subscribed == r.subscribed - (if CanSubscribe(symbol) then {symbol.value} else {})
    ensures r.calls <= r'.calls
  {
    if symbol.value in r.subscribed && CanSubscribe(symbol) then
      Registry(r.subscribed - {symbol.value},
               r.calls + [UnsubscribeQuote(symbol.value), UnsubscribeTrade(symbol.value)])
    else r
  }

  /**
   * `Unsubscribe(IEnumerable<Symbol>)`: the symbols are taken in order. Entries are only removed,
   * never added or changed, and calls are only appended.
   */
  function UnsubscribeBatch(r: Registry, symbols: seq<Symbol>): (r': Registry)
    ensures r'.subscribed.Keys <= r.subscribed.Keys
    ensures forall v :: v in r'.subscribed ==> r'.subscribed[v] == r.subscribed[v]
    ensures r.calls <= r'.calls
    decreases |symbols|
  {
    if symbols == [] then r else UnsubscribeBatch(UnsubscribeOne(r, symbols[0]), symbols[1..])
  }

  // ---------------------------------------------------------------------------------------------
  // Reference definitions of what a batch selects

  /** The values of the eligible symbols of a batch. */
  function EligibleValues(symbols: seq<Symbol>): set<string>
  {
    set s | s in symbols && CanSubscribe(s) :: s.value
  }

  /** `symbol` is eligible and has the value `v`. */
  predicate Selects(symbol: Symbol, v: string)
  {
    CanSubscribe(symbol) && symbol.value == v
  }

  /** The position of the first eligible symbol of the batch with value `v`, or -1. */
  function FirstEligibleIndex(symbols: seq<Symbol>, v: string): (i: int)
    ensures i == -1 <==> v !in EligibleValues(symbols)
    ensures i == -1 ==> forall j :: 0 <= j < |symbols| ==> !Selects(symbols[j], v)
    ensures i != -1 ==> 0 <= i < |symbols| && Selects(symbols[i], v)
    ensures i != -1 ==> forall j :: 0 <= j < i ==> !Selects(symbols[j], v)
  {
    if symbols == [] then -1
    else if Selects(symbols[0], v) then 0
    else
      var k := FirstEligibleIndex(symbols[1..], v);
      assert EligibleValues(symbols) == EligibleValues(symbols[1..]) + EligibleValues(symbols[..1]);
      if k == -1 then -1 else k + 1
  }

  lemma EligibleValuesCons(symbols: seq<Symbol>)
    requires symbols != []
    ensures EligibleValues(symbols) ==
      (if CanSubscribe(symbols[0]) then {symbols[0].value} else {}) + EligibleValues(symbols[1..])
  {
  }

  // ---------------------------------------------------------------------------------------------
  // Subscribe

  /**
   * After a batch, a value is subscribed iff it was before or some symbol of the batch selects it;
   * existing entries are never replaced (not even by another symbol with the same value), and a new
   * entry holds the FIRST eligible symbol of the batch with that value.
   */
  lemma {:induction false} SubscribeBatchEntries(r: Registry, symbols: seq<Symbol>)
    ensures forall v :: v in SubscribeBatch(r, symbols).subscribed <==>
      v in r.subscribed || FirstEligibleIndex(symbols, v) != -1
    ensures forall v :: v in r.subscribed ==> SubscribeBatch(r, symbols).subscribed[v] == r.subscribed[v]
    ensures forall v :: v !in r.subscribed && FirstEligibleIndex(symbols, v) != -1 ==>
      SubscribeBatch(r, symbols).subscribed[v] == symbols[FirstEligibleIndex(symbols, v)]
    decreases |symbols|
  {
    if symbols != [] {
      var r1 := SubscribeOne(r, symbols[0]);
      SubscribeBatchEntries(r1, symbols[1..]);
      forall v
        ensures v in SubscribeBatch(r, symbols).subscribed <==> v in r.subscribed || FirstEligibleIndex(symbols, v) != -1
        ensures v in r.subscribed ==> SubscribeBatch(r, symbols).subscribed[v] == r.subscribed[v]
        ensures v !in r.subscribed && FirstEligibleIndex(symbols, v) != -1 ==>
          SubscribeBatch(r, symbols).subscribed[v] == symbols[FirstEligibleIndex(symbols, v)]
      {
        var k := FirstEligibleIndex(symbols[1..], v);
        if Selects(symbols[0], v) {
          assert FirstEligibleIndex(symbols, v) == 0;
        } else if k != -1 {
          assert Selects(symbols[k + 1], v);
          assert FirstEligibleIndex(symbols, v) == k + 1;
        } else {
          assert FirstEligibleIndex(symbols, v) == -1;
        }
      }
    }
  }

  /** After a batch, the subscribed values are the old ones plus the eligible values of the batch. */
  lemma SubscribeBatchKeys(r: Registry, symbols: seq<Symbol>)
    ensures SubscribeBatch(r, symbols).subscribed.Keys == r.subscribed.Keys + EligibleValues(symbols)
  {
    SubscribeBatchEntries(r, symbols);
  }

  /**
   * A batch only appends to the log, and what it appends is a run of whole
   * (SubscribeQuote(v), SubscribeTrade(v)) pairs: the quote subscription always comes first.
   */
  lemma {:induction false} SubscribeBatchPairs(r: Registry, symbols: seq<Symbol>)
    ensures r.calls <= SubscribeBatch(r, symbols).calls
    ensures SubscribePairs(SubscribeBatch(r, symbols).calls[|r.calls|..])
    decreases |symbols|
  {
    var r' := SubscribeBatch(r, symbols);
    if symbols == [] {
      assert r'.calls[|r.calls|..] == [];
    } else {
      var r1 := SubscribeOne(r, symbols[0]);
      SubscribeBatchPairs(r1, symbols[1..]);
      var later := r'.calls[|r1.calls|..];
      if r1 != r {
        assert r'.calls[|r.calls|..][2..] == later;
      } else {
        assert r'.calls[|r.calls|..] == later;
      }
    }
  }

  /**
   * Exactly-once upstream calls: a batch issues SubscribeQuote(v) and SubscribeTrade(v) once each
   * for every value it newly subscribes, and never for any other value.
   */
  lemma {:induction false} SubscribeBatchCalls(r: Registry, symbols: seq<Symbol>)
    ensures r.calls <= SubscribeBatch(r, symbols).calls
    ensures forall v :: (Occurrences(SubscribeBatch(r, symbols).calls[|r.calls|..], SubscribeQuote(v)) ==
      if v !in r.subscribed && v in EligibleValues(symbols) then 1 else 0)
    ensures forall v :: (Occurrences(SubscribeBatch(r, symbols).calls[|r.calls|..], SubscribeTrade(v)) ==
      if v !in r.subscribed && v in EligibleValues(symbols) then 1 else 0)
    decreases |symbols|
  {
    var r' := SubscribeBatch(r, symbols);
    SubscribeBatchPairs(r, symbols);
    if symbols == [] {
      assert r'.calls[|r.calls|..] == [];
    } else {
      var s := symbols[0];
      var r1 := SubscribeOne(r, s);
      SubscribeBatchCalls(r1, symbols[1..]);
      EligibleValuesCons(symbols);
      var added := r1.calls[|r.calls|..];
      var later := r'.calls[|r1.calls|..];
      assert r'.calls[|r.calls|..] == added + later;
      forall v ensures Occurrences(added + later, SubscribeQuote(v)) ==
                       (if v !in r.subscribed && v in EligibleValues(symbols) then 1 else 0)
               ensures Occurrences(added + later, SubscribeTrade(v)) ==
                       (if v !in r.subscribed && v in EligibleValues(symbols) then 1 else 0)
      {
        OccurrencesAppend(added, later, SubscribeQuote(v));
        OccurrencesAppend(added, later, SubscribeTrade(v));
        if r1 != r {
          assert added == [SubscribeQuote(s.value), SubscribeTrade(s.value)];
          OccurrencesPair(SubscribeQuote(s.value), SubscribeTrade(s.value), SubscribeQuote(v));
          OccurrencesPair(SubscribeQuote(s.value), SubscribeTrade(s.value), SubscribeTrade(v));
        } else {
          assert added == [];
        }
      }
    }
  }

  /**
   * A value naming a universe, in any letter case, is never subscribed by a batch, whatever the
   * batch holds: it does not become a key, and no subscription call is made for it.
   */
  lemma UniverseValuesNeverSubscribed(r: Registry, symbols: seq<Symbol>, v: string, i: int)
    requires MatchesAt(v, UniverseMarker, i) && v !in r.subscribed
    ensures v !in SubscribeBatch(r, symbols).subscribed
    ensures Occurrences(SubscribeBatch(r, symbols).calls[|r.calls|..], SubscribeQuote(v)) == 0
    ensures Occurrences(SubscribeBatch(r, symbols).calls[|r.calls|..], SubscribeTrade(v)) == 0
  {
    assert v !in EligibleValues(symbols) by {
      forall s | s in symbols && CanSubscribe(s)
        ensures s.value != v
      {
      }
    }
    SubscribeBatchKeys(r, symbols);
    SubscribeBatchCalls(r, symbols);
  }

  /** Subscribing the same batch twice issues calls only the first time and changes nothing more. */
  lemma SubscribeBatchIdempotent(r: Registry, symbols: seq<Symbol>)
    ensures SubscribeBatch(SubscribeBatch(r, symbols), symbols) == SubscribeBatch(r, symbols)
  {
    var r1 := SubscribeBatch(r, symbols);
    SubscribeBatchKeys(r, symbols);
    SubscribeBatchUnchanged(r1, symbols);
  }

  /** A batch whose every eligible value is already subscribed changes nothing. */
  lemma {:induction false} SubscribeBatchUnchanged(r: Registry, symbols: seq<Symbol>)
    requires EligibleValues(symbols) <= r.subscribed.Keys
    ensures SubscribeBatch(r, symbols) == r
    decreases |symbols|
  {
    if symbols != [] {
      EligibleValuesCons(symbols);
      SubscribeBatchUnchanged(r, symbols[1..]);
    }
  }

  /** A batch keeps the registry invariant: in particular, no redundant subscription ever reaches the client. */
  lemma {:induction false} SubscribeBatchValid(r: Registry, symbols: seq<Symbol>)
    requires RegistryValid(r)
    ensures RegistryValid(SubscribeBatch(r, symbols))
    decreases |symbols|
  {
    if symbols != [] {
      SubscribeOneValid(r, symbols[0]);
      SubscribeBatchValid(SubscribeOne(r, symbols[0]), symbols[1..]);
    }
  }

  lemma SubscribeOneValid(r: Registry, symbol: Symbol)
    requires RegistryValid(r)
    ensures RegistryValid(SubscribeOne(r, symbol))
  {
    if symbol.value !in r.subscribed && CanSubscribe(symbol) {
      var v := symbol.value;
      var c1 := r.calls + [SubscribeQuote(v)];
      IssueEffective(r.calls, SubscribeQuote(v));
      IssueEffective(c1, SubscribeTrade(v));
      assert c1 + [SubscribeTrade(v)] == SubscribeOne(r, symbol).calls;
    }
  }

  // ---------------------------------------------------------------------------------------------
  // Unsubscribe

  /** After a batch, the subscribed map is the old one without the eligible values of the batch. */
  lemma {:induction false} UnsubscribeBatchEntries(r: Registry, symbols: seq<Symbol>)
    ensures UnsubscribeBatch(r, symbols).subscribed == r.subscribed - EligibleValues(symbols)
    decreases |symbols|
  {
    if symbols == [] {
      assert EligibleValues(symbols) == {};
      assert r.subscribed - {} == r.subscribed;
    } else {
      var s := symbols[0];
      EligibleValuesCons(symbols);
      UnsubscribeBatchEntries(UnsubscribeOne(r, s), symbols[1..]);
      if CanSubscribe(s) {
        assert r.subscribed - {s.value} - EligibleValues(symbols[1..]) == r.subscribed - EligibleValues(symbols);
      } else {
        assert EligibleValues(symbols) == EligibleValues(symbols[1..]);
      }
    }
  }

  /**
   * An unsubscription batch only appends to the log, and what it appends is a run of whole
   * (UnsubscribeQuote(v), UnsubscribeTrade(v)) pairs.
   */
  lemma {:induction false} UnsubscribeBatchPairs(r: Registry, symbols: seq<Symbol>)
    ensures r.calls <= UnsubscribeBatch(r, symbols).calls
    ensures UnsubscribePairs(UnsubscribeBatch(r, symbols).calls[|r.calls|..])
    decreases |symbols|
  {
    var r' := UnsubscribeBatch(r, symbols);
    if symbols == [] {
      assert r'.calls[|r.calls|..] == [];
    } else {
      var r1 := UnsubscribeOne(r, symbols[0]);
      UnsubscribeBatchPairs(r1, symbols[1..]);
      var later := r'.calls[|r1.calls|..];
      if r1 != r {
        assert r'.calls[|r.calls|..][2..] == later;
      } else {
        assert r'.calls[|r.calls|..] == later;
      }
    }
  }

  /**
   * Exactly-once upstream calls: an unsubscription batch issues UnsubscribeQuote(v) and
   * UnsubscribeTrade(v) once each for every subscribed value it selects, and never for any other.
   */
  lemma {:induction false} UnsubscribeBatchCalls(r: Registry, symbols: seq<Symbol>)
    ensures r.calls <= UnsubscribeBatch(r, symbols).calls
    ensures forall v :: (Occurrences(UnsubscribeBatch(r, symbols).calls[|r.calls|..], UnsubscribeQuote(v)) ==
      if v in r.subscribed && v in EligibleValues(symbols) then 1 else 0)
    ensures forall v :: (Occurrences(UnsubscribeBatch(r, symbols).calls[|r.calls|..], UnsubscribeTrade(v)) ==
      if v in r.subscribed && v in EligibleValues(symbols) then 1 else 0)
    decreases |symbols|
  {
    var r' := UnsubscribeBatch(r, symbols);
    UnsubscribeBatchPairs(r, symbols);
    if symbols == [] {
      assert r'.calls[|r.calls|..] == [];
    } else {
      var s := symbols[0];
      var r1 := UnsubscribeOne(r, s);
      UnsubscribeBatchCalls(r1, symbols[1..]);
      EligibleValuesCons(symbols);
      var added := r1.calls[|r.calls|..];
      var later := r'.calls[|r1.calls|..];
      assert r'.calls[|r.calls|..] == added + later;
      forall v ensures Occurrences(added + later, UnsubscribeQuote(v)) ==
                       (if v in r.subscribed && v in EligibleValues(symbols) then 1 else 0)
               ensures Occurrences(added + later, UnsubscribeTrade(v)) ==
                       (if v in r.subscribed && v in EligibleValues(symbols) then 1 else 0)
      {
        OccurrencesAppend(added, later, UnsubscribeQuote(v));
        OccurrencesAppend(added, later, UnsubscribeTrade(v));
        if r1 != r {
          assert added == [UnsubscribeQuote(s.value), UnsubscribeTrade(s.value)];
          OccurrencesPair(UnsubscribeQuote(s.value), UnsubscribeTrade(s.value), UnsubscribeQuote(v));
          OccurrencesPair(UnsubscribeQuote(s.value), UnsubscribeTrade(s.value), UnsubscribeTrade(v));
        } else {
          assert added == [];
        }
      }
    }
  }

  /** An unsubscription batch keeps the registry invariant. */
  lemma {:induction false} UnsubscribeBatchValid(r: Registry, symbols: seq<Symbol>)
    requires RegistryValid(r)
    ensures RegistryValid(UnsubscribeBatch(r, symbols))
    decreases |symbols|
  {
    if symbols != [] {
      UnsubscribeOneValid(r, symbols[0]);
      UnsubscribeBatchValid(UnsubscribeOne(r, symbols[0]), symbols[1..]);
    }
  }

  lemma UnsubscribeOneValid(r: Registry, symbol: Symbol)
    requires RegistryValid(r)
    ensures RegistryValid(UnsubscribeOne(r, symbol))
  {
    if symbol.value in r.subscribed && CanSubscribe(symbol) {
      var v := symbol.value;
      var c1 := r.calls + [UnsubscribeQuote(v)];
      IssueEffective(r.calls, UnsubscribeQuote(v));
      IssueEffective(c1, UnsubscribeTrade(v));
      assert c1 + [UnsubscribeTrade(v)] == UnsubscribeOne(r, symbol).calls;
    }
  }

  /**
   * Unsubscribing a batch right after subscribing it leaves exactly the old entries whose values
   * the batch does not select; in particular a batch of fresh values leaves the map as it was.
   */
  lemma SubscribeThenUnsubscribe(r: Registry, symbols: seq<Symbol>)
    ensures UnsubscribeBatch(SubscribeBatch(r, symbols), symbols).subscribed ==
      r.subscribed - EligibleValues(symbols)
    ensures EligibleValues(symbols) !! r.subscribed.Keys ==>
      UnsubscribeBatch(SubscribeBatch(r, symbols), symbols).subscribed == r.subscribed
  {
    var r1 := SubscribeBatch(r, symbols);
    SubscribeBatchEntries(r, symbols);
    UnsubscribeBatchEntries(r1, symbols);
    SubscribeBatchKeys(r, symbols);
    assert r1.subscribed - EligibleValues(symbols) == r.subscribed - EligibleValues(symbols);
    if EligibleValues(symbols) !! r.subscribed.Keys {
      assert r.subscribed - EligibleValues(symbols) == r.subscribed;
    }
  }

  // ---------------------------------------------------------------------------------------------
  // Helpers about the call log

  lemma {:induction false} OccurrencesAppend(a: seq<StreamCall>, b: seq<StreamCall>, call: StreamCall)
    ensures Occurrences(a + b, call) == Occurrences(a, call) + Occurrences(b, call)
    decreases |a|
  {
    if a != [] {
      assert (a + b)[1..] == a[1..] + b;
      OccurrencesAppend(a[1..], b, call);
    } else {
      assert a + b == b;
    }
  }

  lemma OccurrencesPair(a: StreamCall, b: StreamCall, call: StreamCall)
    ensures Occurrences([a, b], call) == (if a == call then 1 else 0) + (if b == call then 1 else 0)
  {
    assert [a, b][1..] == [b];
    assert [b][1..] == [];
    assert Occurrences([b], call) == (if b == call then 1 else 0) + Occurrences([], call);
  }

  /** Appending an effective call keeps the log free of redundant calls, and opens or closes one stream. */
  lemma IssueEffective(calls: seq<StreamCall>, call: StreamCall)
    requires NoRedundantCalls(calls) && Effective(calls, call)
    ensures NoRedundantCalls(calls + [call])
    ensures QuoteStreams(calls + [call]) == QuoteStep(QuoteStreams(calls), call)
    ensures TradeStreams(calls + [call]) == TradeStep(TradeStreams(calls), call)
  {
    var c := calls + [call];
    assert c[..|calls|] == calls;
    forall i | 0 <= i < |c| ensures Effective(c[..i], c[i]) {
      if i < |calls| {
        assert c[..i] == calls[..i];
      }
    }
  }
}
