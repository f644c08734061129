/**
 * The `Strategy` base class of strategy.py: the snapshot a strategy holds
 * between iterations and the balance lookup every strategy shares.
 */
module StrategyBase {
  import opened Basics
  import opened Exchange

  /** `account['currency'] == currency` succeeds and holds, and `Decimal(account['balance'])` parses. */
  predicate Usable(a: Account, currency: Option<string>) {
    a.currency.Some? && a.currency == currency && a.balance.Some?
  }

  /**
   * The balance of the first usable account of `currency`, scanning from
   * the front: an account of that currency whose balance parses.
   */
  function BalanceOf(accounts: seq<Account>, currency: Option<string>): (r: Option<real>)
    ensures r.Some? ==> exists i :: 0 <= i < |accounts| && accounts[i].currency == currency && accounts[i].balance == r
    ensures |accounts| > 0 && Usable(accounts[0], currency) ==> r == accounts[0].balance
    ensures currency.None? ==> r.None?
  {
    if |accounts| == 0 then None
    else if Usable(accounts[0], currency) then accounts[0].balance
    else BalanceOf(accounts[1..], currency)
  }

  /**
   * BalanceOf finds a balance exactly when some account is usable, and then
   * it is the balance of the first usable one: every entry before it either
   * names another currency or is malformed and was skipped.
   */
  lemma {:induction false} BalanceOfIsFirstUsable(accounts: seq<Account>, currency: Option<string>)
    ensures BalanceOf(accounts, currency).None? <==> forall i :: 0 <= i < |accounts| ==> !Usable(accounts[i], currency)
    ensures BalanceOf(accounts, currency).Some? ==>
      exists k :: (0 <= k < |accounts| && Usable(accounts[k], currency)
        && accounts[k].balance == BalanceOf(accounts, currency)
        && forall i :: 0 <= i < k ==> !Usable(accounts[i], currency))
  {
    if |accounts| > 0 && !Usable(accounts[0], currency) {
      BalanceOfIsFirstUsable(accounts[1..], currency);
      if BalanceOf(accounts, currency).Some? {
        var k :| 0 <= k < |accounts| - 1 && Usable(accounts[1..][k], currency)
          && accounts[1..][k].balance == BalanceOf(accounts, currency)
          && forall i :: 0 <= i < k ==> !Usable(accounts[1..][i], currency);
        assert Usable(accounts[k + 1], currency);
        assert forall i :: 0 <= i < k + 1 ==> !Usable(accounts[i], currency) by {
          forall i | 0 <= i < k + 1 ensures !Usable(accounts[i], currency) {
            if i > 0 { assert accounts[i] == accounts[1..][i - 1]; }
          }
        }
      } else {
        forall i | 0 <= i < |accounts| ensures !Usable(accounts[i], currency) {
          if i > 0 { assert accounts[i] == accounts[1..][i - 1]; }
        }
      }
    }
  }

  class Strategy {
    /** The trader, reached through the part of it a strategy uses; `null` until `add_trader`. */
    var trader: Gateway?
    var accounts: seq<Account>
    /** The book sides of the last snapshot; `None` when the payload lacked the side. */
    var bidOrders: Option<seq<Level>>
    var askOrders: Option<seq<Level>>

    /** strategy.py:20-24 (the `set_up` hook is run by the concrete strategy's constructor). */
    constructor ()
      ensures trader == null && accounts == [] && bidOrders == None && askOrders == None
    {
      trader := null;
      accounts := [];
      bidOrders := None;
      askOrders := None;
    }

    /** strategy.py:35-36: only the back-reference changes. */
    method AddTrader(t: Gateway)
      modifies this`trader
      ensures trader == t
    {
      trader := t;
    }

    /** strategy.py:58-69: the snapshot is overwritten, the back-reference is not. */
    method NextData(accounts: seq<Account>, bidOrders: Option<seq<Level>>, askOrders: Option<seq<Level>>)
      modifies this`accounts, this`bidOrders, this`askOrders
      ensures this.accounts == accounts && this.bidOrders == bidOrders && this.askOrders == askOrders
    {
      this.accounts := accounts;
      this.bidOrders := bidOrders;
      this.askOrders := askOrders;
    }

    /**
     * strategy.py:71-88: scan the accounts in order, skip entries whose
     * `currency` or `balance` is missing or unparseable, and return the balance
     * of the first usable account of `currency`, or `None`.
     */
    method GetCurrencyBalance(currency: Option<string>) returns (r: Option<real>)
      ensures r == BalanceOf(accounts, currency)
      ensures r.None? <==> forall i :: 0 <= i < |accounts| ==> !Usable(accounts[i], currency)
      ensures r.Some? ==>
        exists k :: (0 <= k < |accounts| && Usable(accounts[k], currency) && accounts[k].balance == r
          && forall i :: 0 <= i < k ==> !Usable(accounts[i], currency))
    {
      BalanceOfIsFirstUsable(accounts, currency);
      var i := 0;
      while i < |accounts|
        invariant 0 <= i <= |accounts|
        invariant BalanceOf(accounts[i..], currency) == BalanceOf(accounts, currency)
      {
        var account := accounts[i];
        if account.currency.Some? && account.currency == currency {
          if account.balance.Some? {
            return account.balance;
          }
        }
        assert accounts[i..][1..] == accounts[i + 1..];
        i := i + 1;
      }
      return None;
    }
  }
}
