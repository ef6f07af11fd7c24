/** The stored account behind the API. */
module PaperStore {
  import opened Wrappers
  import opened PaperTypes
  import opened Loading
  import opened Engine
  import opened Ledger
  import opened PaperBook

  lemma CancelContinues(s: State, id: int, symbol: Option<Symbol>, feed: Marks, now: int, policy: Policy)
    ensures Continues(s, CancelCall(id, symbol), feed, policy,
                      After(s, CancelledOne(Loaded(s, feed, now, policy), id, symbol)))
  {
    CallContinues(s, CancelCall(id, symbol), feed, now, policy);
  }

  lemma CancelAllContinues(s: State, symbol: Option<Symbol>, feed: Marks, now: int, policy: Policy)
    ensures Continues(s, CancelAllCall(symbol), feed, policy,
                      After(s, CancelledAll(Loaded(s, feed, now, policy), symbol)))
  {
    CallContinues(s, CancelAllCall(symbol), feed, now, policy);
  }

  /** The stored account, and the calls of the API on it: load, reconcile, act, save. */
  class Store {
    var stored: State

    constructor (s: State)
      ensures stored == s
    {
      stored := s;
    }

    /** getPaperState, then reconcilePaperState, which saves what it changed */
    method LoadReconciled(feed: Marks, now: int, policy: Policy) returns (s: PaperState, ghost pass: Progress)
      modifies this
      ensures pass == Loaded(old(stored), feed, now, policy)
      ensures fresh(s) && s.Valid() && s.Model() == pass.state
      ensures forall i :: 0 <= i < |s.orders| ==> fresh(s.orders[i])
      ensures stored == if pass.changed then pass.state else old(stored)
    {
      s := new PaperState(Coerce(stored));
      var changed := s.Reconcile(feed, now, policy);
      assert forall i :: 0 <= i < |s.orders| ==> s.orders[i] in s.orders;
      pass := Loaded(stored, feed, now, policy);
      if changed {
        stored := s.Model();
      }
    }

    /** savePaperState */
    method Save(s: PaperState)
      modifies this
      ensures stored == Saved(s.Model())
    {
      stored := Saved(s.Model());
    }

    /** listPaperPositions and its like */
    method Read(feed: Marks, now: int, policy: Policy)
      modifies this
      ensures stored == After(old(stored), Listed(Loaded(old(stored), feed, now, policy)))
      ensures Continues(old(stored), List, feed, policy, stored)
    {
      var s, pass := LoadReconciled(feed, now, policy);
      CallContinues(old(stored), List, feed, now, policy);
    }

    /** placePaperOrder; `market` is the symbol's ticker, if it could be read */
    method Place(t: Ticket, market: Option<int>, feed: Marks, now: int, policy: Policy) returns (error: Option<Error>)
      modifies this
      ensures stored == After(old(stored), Placed(Loaded(old(stored), feed, now, policy), t, market, now, policy))
      ensures error == PlaceError(Loaded(old(stored), feed, now, policy).state, t, market, now, policy)
      ensures Continues(old(stored), PlaceCall(t, market), feed, policy, stored)
    {
      CallContinues(stored, PlaceCall(t, market), feed, now, policy);
      if t.symbol == "" {
        return Some(SymbolRequired);
      }
      if t.qty <= 0 {
        return Some(InvalidQty);
      }
      var s, pass := LoadReconciled(feed, now, policy);
      if market.None? {
        return Some(PriceUnavailable);
      }
      error := PlaceLoaded(s, pass, old(stored), t, market.value, now, policy);
    }

    /** What placing an order does with the account it has loaded and reconciled; likewise the methods
        below for the calls they belong to. */
    method PlaceLoaded(s: PaperState, ghost pass: Progress, ghost before: State, t: Ticket, market: int, now: int,
                       policy: Policy) returns (error: Option<Error>)
      requires t.symbol != "" && t.qty > 0
      requires s.Valid() && s.Model() == pass.state && stored == After(before, Listed(pass))
      modifies this, s
      ensures stored == After(before, Placed(pass, t, Some(market), now, policy))
      ensures error == ErrorOf(Engine.Place(pass.state, t, market, now, policy))
    {
      error := s.Place(t, market, now, policy);
      if error.None? {
        Save(s);
      }
    }

    /** editPaperOrder */
    method EditOrder(e: Edit, feed: Marks, now: int, policy: Policy) returns (error: Option<Error>)
      modifies this
      ensures stored == After(old(stored), Edited(Loaded(old(stored), feed, now, policy), e))
      ensures error == ErrorOf(Engine.EditOrder(Loaded(old(stored), feed, now, policy).state, e))
      ensures Continues(old(stored), EditCall(e), feed, policy, stored)
    {
      CallContinues(stored, EditCall(e), feed, now, policy);
      var s, pass := LoadReconciled(feed, now, policy);
      error := EditLoaded(s, pass, old(stored), e);
    }

    method EditLoaded(s: PaperState, ghost pass: Progress, ghost before: State, e: Edit) returns (error: Option<Error>)
      requires s.Valid() && s.Model() == pass.state && stored == After(before, Listed(pass))
      modifies this, s.orders
      ensures stored == After(before, Edited(pass, e))
      ensures error == ErrorOf(Engine.EditOrder(pass.state, e))
    {
      error := s.EditOrder(e);
      if error.None? {
        Save(s);
      }
    }

    /** cancelPaperOrder */
    method CancelOrder(id: int, symbol: Option<Symbol>, feed: Marks, now: int, policy: Policy)
      modifies this
      ensures stored == After(old(stored), CancelledOne(Loaded(old(stored), feed, now, policy), id, symbol))
      ensures Continues(old(stored), CancelCall(id, symbol), feed, policy, stored)
    {
      CancelContinues(stored, id, symbol, feed, now, policy);
      var s, pass := LoadReconciled(feed, now, policy);
      CancelLoaded(s, pass, old(stored), id, symbol);
    }

    method CancelLoaded(s: PaperState, ghost pass: Progress, ghost before: State, id: int, symbol: Option<Symbol>)
      requires s.Valid() && s.Model() == pass.state && stored == After(before, Listed(pass))
      modifies this, s.orders
      ensures stored == After(before, CancelledOne(pass, id, symbol))
    {
      var found := s.CancelOrder(id, symbol);
      if found {
        Save(s);
      }
    }

    /** cancelAllPaperOrders */
    method CancelAll(symbol: Option<Symbol>, feed: Marks, now: int, policy: Policy) returns (cancelled: nat)
      modifies this
      ensures stored == After(old(stored), CancelledAll(Loaded(old(stored), feed, now, policy), symbol))
      ensures cancelled == Targets(Loaded(old(stored), feed, now, policy).state.orders, symbol)
      ensures Continues(old(stored), CancelAllCall(symbol), feed, policy, stored)
    {
      CancelAllContinues(stored, symbol, feed, now, policy);
      var s, pass := LoadReconciled(feed, now, policy);
      cancelled := CancelAllLoaded(s, pass, old(stored), symbol);
    }

    method CancelAllLoaded(s: PaperState, ghost pass: Progress, ghost before: State, symbol: Option<Symbol>)
      returns (cancelled: nat)
      requires s.Valid() && s.Model() == pass.state && stored == After(before, Listed(pass))
      modifies this, s.orders
      ensures stored == After(before, CancelledAll(pass, symbol))
      ensures cancelled == Targets(pass.state.orders, symbol)
    {
      cancelled := s.CancelAll(symbol);
      if cancelled > 0 {
        Save(s);
      }
    }

    /** setPaperPositionTpSl */
    method SetExits(symbol: Symbol, direction: Option<Direction>, takeProfit: Change, stopLoss: Change,
                    feed: Marks, now: int, policy: Policy) returns (error: Option<Error>)
      modifies this
      ensures stored == After(old(stored), ExitsSet(Loaded(old(stored), feed, now, policy), symbol, direction,
                                                    takeProfit, stopLoss))
      ensures error == ExitsError(Loaded(old(stored), feed, now, policy).state, symbol, direction, takeProfit, stopLoss)
      ensures Continues(old(stored), SetExitsCall(symbol, direction, takeProfit, stopLoss), feed, policy, stored)
    {
      CallContinues(stored, SetExitsCall(symbol, direction, takeProfit, stopLoss), feed, now, policy);
      if symbol == "" {
        return Some(SymbolRequired);
      }
      var s, pass := LoadReconciled(feed, now, policy);
      error := SetExitsLoaded(s, pass, old(stored), symbol, direction, takeProfit, stopLoss);
    }

    method SetExitsLoaded(s: PaperState, ghost pass: Progress, ghost before: State, symbol: Symbol,
                          direction: Option<Direction>, takeProfit: Change, stopLoss: Change)
      returns (error: Option<Error>)
      requires symbol != "" && s.Valid() && s.Model() == pass.state && stored == After(before, Listed(pass))
      modifies this, s
      ensures stored == After(before, ExitsSet(pass, symbol, direction, takeProfit, stopLoss))
      ensures error == ErrorOf(Engine.SetExits(pass.state, symbol, direction, takeProfit, stopLoss))
    {
      error := s.SetExits(symbol, direction, takeProfit, stopLoss);
      if error.None? {
        Save(s);
      }
    }
  }
}
