/**
 * The profile page: registering a profile, and the lookup tables and text rules
 * used to show activities and transactions.
 */
module Profile {
  import opened Wrappers
  import opened JsText
  import opened Entities

  /** The argument list of the actor's registerUser call. */
  datatype RegisterCall = RegisterCall(userId: string, name: string)

  /** The profile a successful registration shows: no posts and no tokens yet. */
  function FreshProfile(userId: string, name: string): (u: User)
    ensures u.id == userId && u.name == name && u.posts == [] && u.tokens == 0
  {
    User(userId, name, [], 0)
  }

  /** register returns before doing anything when either field is empty; it does not trim. */
  predicate RegisterBlocked(userId: string, name: string)
  {
    userId == [] || name == []
  }

  /**
   * A non-empty name of white space only passes the guard and is sent as it is, although it
   * trims to nothing (the posts page would refuse such a draft).
   */
  lemma RegisterAcceptsBlankName(userId: string, name: string)
    requires userId != [] && name != [] && AllWhiteSpace(name)
    ensures !RegisterBlocked(userId, name) && Trim(name) == []
  {
    TrimEmptyIffAllWhiteSpace(name);
  }

  const KnownActivities: set<string> := {"post", "investment", "reward"}

  /** getActivityIcon: the Font Awesome icon name of an activity type. */
  function ActivityIcon(kind: string): (icon: string)
    ensures icon == "fa-bell" <==> kind !in KnownActivities
  {
    match kind
    case "post" => "fa-comment-alt"
    case "investment" => "fa-chart-line"
    case "reward" => "fa-gift"
    case _ => "fa-bell"
  }

  /** The activity type a known icon stands for: the inverse of ActivityIcon on the known types. */
  function ActivityOfIcon(icon: string): Option<string>
  {
    match icon
    case "fa-comment-alt" => Some("post")
    case "fa-chart-line" => Some("investment")
    case "fa-gift" => Some("reward")
    case _ => None
  }

  /** Each known activity type has an icon of its own; every other type shares the bell. */
  lemma ActivityIconRoundTrip(kind: string)
    ensures ActivityOfIcon(ActivityIcon(kind)) == if kind in KnownActivities then Some(kind) else None
  {
  }

  const KnownTransactions: set<string> := {"deposit", "withdrawal", "investment", "reward"}

  /** What getTransactionDetails returns: an icon name and a CSS class. */
  datatype TransactionView = TransactionView(icon: string, cssClass: string)

  /** getTransactionDetails */
  function TransactionDetails(kind: string): (d: TransactionView)
    ensures d.cssClass == if kind in KnownTransactions then "transaction-" + kind else ""
    ensures d.cssClass == "" <==> d.icon == "fa-exchange-alt"
  {
    match kind
    case "deposit" => TransactionView("fa-arrow-down", "transaction-deposit")
    case "withdrawal" => TransactionView("fa-arrow-up", "transaction-withdrawal")
    case "investment" => TransactionView("fa-chart-line", "transaction-investment")
    case "reward" => TransactionView("fa-gift", "transaction-reward")
    case _ => TransactionView("fa-exchange-alt", "")
  }

  /** The transaction type a known icon stands for: the inverse of TransactionDetails' icon on the known types. */
  function TransactionOfIcon(icon: string): Option<string>
  {
    match icon
    case "fa-arrow-down" => Some("deposit")
    case "fa-arrow-up" => Some("withdrawal")
    case "fa-chart-line" => Some("investment")
    case "fa-gift" => Some("reward")
    case _ => None
  }

  /** Each known transaction type has an icon of its own; every other type shares the exchange icon. */
  lemma TransactionIconRoundTrip(kind: string)
    ensures TransactionOfIcon(TransactionDetails(kind).icon) == if kind in KnownTransactions then Some(kind) else None
  {
  }

  /** A non-empty transaction class names its type: dropping the "transaction-" prefix gives it back. */
  lemma TransactionClassNamesType(kind: string)
    ensures TransactionDetails(kind).cssClass != "" ==>
      |TransactionDetails(kind).cssClass| > 12 && TransactionDetails(kind).cssClass[12..] == kind
  {
  }

  /** The sign put before a transaction amount. */
  function AmountSign(kind: string): (sign: string)
    ensures sign == "-" <==> kind == "withdrawal"
    ensures sign == "-" || sign == "+"
  {
    if kind == "withdrawal" then "-" else "+"
  }

  /** The minus sign goes with the upward arrow: money leaving the account. */
  lemma SignMatchesArrow(kind: string)
    ensures AmountSign(kind) == "-" <==> TransactionDetails(kind).icon == "fa-arrow-up"
  {
  }

  /** The amount line of a transaction, e.g. "-30 Tokens". */
  function AmountText(kind: string, amount: nat): string
  {
    AmountSign(kind) + NatToDecimal(amount) + " Tokens"
  }

  /** Read as a number, the amount line is the amount, negated for a withdrawal. */
  lemma AmountTextValue(kind: string, amount: nat)
    ensures ParseInt(AmountText(kind, amount)) == Some(if kind == "withdrawal" then -(amount as int) else amount as int)
  {
    ParseIntSignedNumeral(AmountSign(kind), amount, " Tokens");
  }

  /** The type label: `type.charAt(0).toUpperCase() + type.slice(1)`. */
  function TypeLabel(kind: string): (shown: string)
    ensures |shown| == |kind|
    ensures kind != [] ==> shown[0] == ToUpperAscii(kind[0]) && shown[1..] == kind[1..]
  {
    if kind == [] then [] else [ToUpperAscii(kind[0])] + kind[1..]
  }

  /** Capitalising a label again changes nothing. */
  lemma TypeLabelIdempotent(kind: string)
    ensures TypeLabel(TypeLabel(kind)) == TypeLabel(kind)
  {
  }

  /** The overview lists at most the first two activities, in their order. */
  function RecentActivities<T>(activities: seq<T>): (shown: seq<T>)
    ensures |shown| == if |activities| < 2 then |activities| else 2
    ensures shown <= activities
  {
    if |activities| < 2 then activities else activities[..2]
  }

  /** The state of the profile page: its useState variables. */
  class ProfilePage {
    var userId: string
    var name: string
    var loading: bool
    var userProfile: Option<User>

    constructor ()
      ensures userId == "" && name == "" && !loading && userProfile == None
    {
      userId, name, loading, userProfile := "", "", false, None;
    }

    /** The user id input's onChange. */
    method EditUserId(text: string)
      modifies this
      ensures userId == text
      ensures name == old(name) && loading == old(loading) && userProfile == old(userProfile)
    {
      userId := text;
    }

    /** The name input's onChange. */
    method EditName(text: string)
      modifies this
      ensures name == text
      ensures userId == old(userId) && loading == old(loading) && userProfile == old(userProfile)
    {
      name := text;
    }

    /**
     * register. `sent` is the backend call made, if any; `backend` is how that call ended;
     * `loadingWhilePending` is `loading` while the call is awaited.
     */
    method Register(backend: Outcome<bool>) returns (sent: Option<RegisterCall>, ghost loadingWhilePending: bool)
      modifies this
      ensures sent == if RegisterBlocked(old(userId), old(name)) then None
                      else Some(RegisterCall(old(userId), old(name)))
      ensures userId == old(userId) && name == old(name)
      ensures sent.None? ==> loading == old(loading) && userProfile == old(userProfile)
      ensures sent.Some? ==> loadingWhilePending && !loading
      ensures sent.Some? && backend == Returned(true) ==> userProfile == Some(FreshProfile(userId, name))
      ensures sent.Some? && backend != Returned(true) ==> userProfile == old(userProfile)
    {
      if RegisterBlocked(userId, name) {
        return None, loading;
      }
      loading := true;
      sent := Some(RegisterCall(userId, name));
      loadingWhilePending := loading;
      match backend {
        case Returned(result) =>
          if result {
            userProfile := Some(FreshProfile(userId, name));
          }
        case Thrown =>
      }
      loading := false;
    }
  }
}
