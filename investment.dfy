/**
 * The investment page: the token balance, the investment suggestion, buying tokens,
 * the amount input and the market cards' trend arrows.
 */
module Investment {
  import opened Wrappers
  import opened JsText
  import opened Entities

  /** The argument list of the actor's buyTokens call. */
  datatype BuyCall = BuyCall(userId: string, amount: int)

  /** The amount input's onChange rule `parseInt(v) || 1`: NaN and 0 are falsy and give 1. */
  function AmountFromInput(input: string): (amount: int)
    ensures amount != 0
    ensures ParseInt(input).Some? && ParseInt(input).value != 0 ==> amount == ParseInt(input).value
    ensures ParseInt(input).None? || ParseInt(input) == Some(0) ==> amount == 1
  {
    match ParseInt(input)
    case Some(n) => if n != 0 then n else 1
    case None => 1
  }

  /** Typing a non-zero integer stores exactly that integer, a negative one included. */
  lemma AmountFromNumeral(n: int)
    ensures AmountFromInput(ToDecimal(n)) == if n == 0 then 1 else n
  {
    ParseIntToDecimal(n, "");
    assert ToDecimal(n) + "" == ToDecimal(n);
  }

  /** A cleared or blank input stores 1. */
  lemma AmountFromBlank(input: string)
    requires AllWhiteSpace(input)
    ensures AmountFromInput(input) == 1
  {
    ParseIntBlank(input);
  }

  /** buyTokens returns before doing anything without a user id or with an amount below 1. */
  predicate BuyBlocked(userId: string, amount: int)
  {
    userId == [] || amount <= 0
  }

  /** The input can hold a negative amount, and the guard is what keeps it from the backend. */
  lemma NegativeAmountIsBlocked(userId: string, n: int)
    requires n < 0
    ensures AmountFromInput(ToDecimal(n)) == n && BuyBlocked(userId, AmountFromInput(ToDecimal(n)))
  {
    AmountFromNumeral(n);
  }

  /** The arrow icon of a market card's stored trend. */
  function TrendIcon(trend: string): (icon: string)
    ensures icon == "arrow-up" <==> trend == "up"
    ensures icon == "arrow-down" <==> trend == "down"
    ensures icon != "arrow-up" && icon != "arrow-down" ==> icon == "arrows-alt-h"
  {
    if trend == "up" then "arrow-up" else if trend == "down" then "arrow-down" else "arrows-alt-h"
  }

  /** The trend an arrow icon stands for; every trend other than up and down reads as neutral. */
  function TrendOfIcon(icon: string): string
  {
    if icon == "arrow-up" then "up" else if icon == "arrow-down" then "down" else "neutral"
  }

  /** The arrow loses only the difference between the trends that are neither up nor down. */
  lemma TrendIconRoundTrip(trend: string)
    ensures TrendOfIcon(TrendIcon(trend)) == if trend == "up" || trend == "down" then trend else "neutral"
  {
  }

  /** The state of the investment page: its useState variables. */
  class InvestmentPage {
    var loading: bool
    var tokenBalance: int
    var suggestion: string
    var userId: string
    var amount: int

    constructor ()
      ensures !loading && tokenBalance == 0 && suggestion == "" && userId == "" && amount == 1
    {
      loading, tokenBalance, suggestion, userId, amount := false, 0, "", "", 1;
    }

    /** The mount effect sets the demo user id; its balance fetch still sees the empty id and stops at the guard. */
    method Mount()
      modifies this
      ensures userId == DemoUserId
      ensures loading == old(loading) && tokenBalance == old(tokenBalance)
      ensures suggestion == old(suggestion) && amount == old(amount)
    {
      userId := DemoUserId;
    }

    /** The amount input's onChange. */
    method EditAmount(input: string)
      modifies this
      ensures amount == AmountFromInput(input) && amount != 0
      ensures loading == old(loading) && tokenBalance == old(tokenBalance)
      ensures suggestion == old(suggestion) && userId == old(userId)
    {
      amount := AmountFromInput(input);
    }

    /**
     * fetchTokenBalance. `sent` is the user id the balance was asked for, if a call was made;
     * `backend` is how it ended; `loadingWhilePending` is `loading` while the call is awaited.
     */
    method FetchTokenBalance(backend: Outcome<int>) returns (sent: Option<string>, ghost loadingWhilePending: bool)
      modifies this
      ensures sent == if userId == [] then None else Some(userId)
      ensures userId == old(userId) && suggestion == old(suggestion) && amount == old(amount)
      ensures sent.None? ==> loading == old(loading) && tokenBalance == old(tokenBalance)
      ensures sent.Some? ==> loadingWhilePending && !loading
      ensures sent.Some? ==> tokenBalance == match backend
                                             case Returned(balance) => balance
                                             case Thrown => old(tokenBalance)
    {
      if userId == [] {
        return None, loading;
      }
      loading := true;
      sent := Some(userId);
      loadingWhilePending := loading;
      match backend {
        case Returned(balance) => tokenBalance := balance;
        case Thrown =>
      }
      loading := false;
    }

    /**
     * getSuggestion. `sent` is the user id the suggestion was asked for, if a call was made;
     * `backend` is how it ended; `loadingWhilePending` is `loading` while the call is awaited.
     */
    method GetSuggestion(backend: Outcome<string>) returns (sent: Option<string>, ghost loadingWhilePending: bool)
      modifies this
      ensures sent == if userId == [] then None else Some(userId)
      ensures userId == old(userId) && tokenBalance == old(tokenBalance) && amount == old(amount)
      ensures sent.None? ==> loading == old(loading) && suggestion == old(suggestion)
      ensures sent.Some? ==> loadingWhilePending && !loading
      ensures sent.Some? ==> suggestion == match backend
                                           case Returned(text) => text
                                           case Thrown => old(suggestion)
    {
      if userId == [] {
        return None, loading;
      }
      loading := true;
      sent := Some(userId);
      loadingWhilePending := loading;
      match backend {
        case Returned(text) => suggestion := text;
        case Thrown =>
      }
      loading := false;
    }

    /**
     * buyTokens. `sent` is the buy call made, if any, and `backend` how it ended; a truthy
     * result starts a balance refresh, `refreshed` is the call that refresh made and `refresh`
     * how it ended; `loadingWhilePending` is `loading` while the buy call is awaited.
     */
    method BuyTokens(backend: Outcome<bool>, refresh: Outcome<int>)
      returns (sent: Option<BuyCall>, refreshed: Option<string>, ghost loadingWhilePending: bool)
      modifies this
      ensures sent == if BuyBlocked(old(userId), old(amount)) then None
                      else Some(BuyCall(old(userId), old(amount)))
      ensures refreshed == if sent.Some? && backend == Returned(true) then Some(userId) else None
      ensures userId == old(userId) && suggestion == old(suggestion) && amount == old(amount)
      ensures sent.None? ==> loading == old(loading)
      ensures sent.Some? ==> loadingWhilePending && !loading
      ensures tokenBalance == if refreshed.Some? && refresh.Returned? then refresh.value else old(tokenBalance)
    {
      refreshed := None;
      if BuyBlocked(userId, amount) {
        return None, None, loading;
      }
      loading := true;
      sent := Some(BuyCall(userId, amount));
      loadingWhilePending := loading;
      match backend {
        case Returned(result) =>
          if result {
            ghost var refreshLoading;
            refreshed, refreshLoading := FetchTokenBalance(refresh);
          }
        case Thrown =>
      }
      loading := false;
    }
  }
}
