/** The operation records the feed holds: the fields of a ledger operation that
    the widget reads, with the operation-specific fields carried by one
    constructor per operation kind, plus the two fields the widget itself
    writes (the creation time and the relative-age text). */
module Records {

  datatype Option<+T> = None | Some(value: T) {
    function GetOr(default: T): T {
      match this
      case Some(v) => v
      case None => default
    }
  }

  /** An account identifier (a public key as the ledger writes it). */
  type Account = string

  /** A decimal amount exactly as the ledger service sends it; it is only passed
      through to the summary, never computed with. */
  type Amount = string

  /** A point in time, as a moment value; its representation is irrelevant here. */
  datatype Moment = Moment(epochMillis: int)

  /** The relative-age text of a creation time seen at a given instant
      (`createdAt.fromNow(true)` evaluated at `now`). */
  type AgeFn = (Moment, Moment) -> string

  /** An asset as an operation names it: its type ("native", "credit_alphanum4", ...)
      and, for non-native assets, its code. */
  datatype Asset = Asset(assetType: string, assetCode: Option<string>)

  /** One constructor per operation type the widget distinguishes, holding the
      fields its summary and the relevance filter read. `Other` is every other
      operation type; it keeps the `to` and `trustee` fields in case such a
      record carries them, since the relevance filter reads them by name. */
  datatype Kind =
    | CreateAccount(startingBalance: Amount, account: Account)
    | Payment(amount: Amount, asset: Asset, to: Account)
    | PathPayment(sourceMax: Amount, sourceAsset: Asset, amount: Amount, asset: Asset, to: Account)
    | ChangeTrust(assetCode: string, assetIssuer: Account, trustee: Account)
    | AllowTrust(authorize: bool, trustor: Account, assetCode: string, trustee: Account)
    | ManageOffer(amount: Amount, selling: Asset, buying: Asset)
    | CreatePassiveOffer(amount: Amount, selling: Asset, buying: Asset)
    | AccountMerge(into: Account)
    | ManageData(name: string)
    | Other(typeName: string, rawTo: Option<Account>, rawTrustee: Option<Account>)

  /** An operation record. `createdAt` and `ago` are absent until the widget
      sets them. */
  datatype Operation = Operation(
    id: string,
    kind: Kind,
    sourceAccount: Account,
    pagingToken: string,
    createdAt: Option<Moment>,
    ago: Option<string>)

  /** The `type` tag the ledger service writes for each kind. */
  function TypeName(k: Kind): string {
    match k
    case CreateAccount(_, _) => "create_account"
    case Payment(_, _, _) => "payment"
    case PathPayment(_, _, _, _, _) => "path_payment"
    case ChangeTrust(_, _, _) => "change_trust"
    case AllowTrust(_, _, _, _) => "allow_trust"
    case ManageOffer(_, _, _) => "manage_offer"
    case CreatePassiveOffer(_, _, _) => "create_passive_offer"
    case AccountMerge(_) => "account_merge"
    case ManageData(_) => "manage_data"
    case Other(name, _, _) => name
  }

  /** The tags that have a constructor of their own. */
  const KnownTypes: set<string> := {
    "create_account", "payment", "path_payment", "change_trust", "allow_trust",
    "manage_offer", "create_passive_offer", "account_merge", "manage_data"
  }

  /** A kind read from a record: a record tagged with a known type is never `Other`. */
  predicate WellFormed(k: Kind) {
    k.Other? ==> k.typeName !in KnownTypes
  }

  /** The record's `to` field (present on payments and path payments). */
  function Destination(k: Kind): Option<Account> {
    match k
    case Payment(_, _, to) => Some(to)
    case PathPayment(_, _, _, _, to) => Some(to)
    case Other(_, to, _) => to
    case _ => None
  }

  /** The record's `trustee` field (present on trust changes and trust authorisations). */
  function Trustee(k: Kind): Option<Account> {
    match k
    case ChangeTrust(_, _, trustee) => Some(trustee)
    case AllowTrust(_, _, _, trustee) => Some(trustee)
    case Other(_, _, trustee) => trustee
    case _ => None
  }

  /** Whether an account filter is configured: the `account` property is present
      and, being tested for truthiness, not the empty string. */
  predicate HasAccount(account: Option<Account>) {
    account.Some? && account.value != ""
  }
}
