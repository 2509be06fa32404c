/** The operation-type interpreter: the per-type detail summary of a row and the
    asset-code choice it shares with the amount cell. */
module Interpreter {
  import opened Records

  /** How an asset is shown next to an amount: the XLM marker for the native
      asset, the asset's own code otherwise. */
  datatype AssetLabel = Xlm | Code(code: Option<string>)

  /** An amount together with the label of its asset. */
  datatype Money = Money(amount: Amount, asset: AssetLabel)

  /** The detail summary of one operation, one constructor per summary shape. */
  datatype Summary =
    | Funding(startingBalance: Money, account: Account)
    | Transfer(sent: Money, to: Account)
    | PathTransfer(sourceMax: Money, delivered: Money, to: Account)
    | TrustLine(assetCode: string, issuer: Account)
    | Authorisation(verdict: string, trustor: Account, assetCode: string)
    | Offer(selling: Money, buying: AssetLabel)
    | Merge(into: Account)
    | DataEntry(key: string)

  /** The asset-code choice of the amount cell. */
  function AssetCode(asset: Asset): (marker: AssetLabel)
    ensures marker == Xlm <==> asset.assetType == "native"
    ensures marker.Code? ==> marker.code == asset.assetCode
  {
    if asset.assetType == "native" then Xlm else Code(asset.assetCode)
  }

  /** The longest data-entry name shown in full. */
  const KeyWidth: nat := 20

  /** A data-entry name as shown: in full up to 20 characters, otherwise its
      first 20 characters followed by an ellipsis. */
  function KeyShown(name: string): (shown: string)
    ensures |name| <= KeyWidth ==> shown == name
    ensures |name| > KeyWidth ==> |shown| == KeyWidth + 3 && shown[..KeyWidth] == name[..KeyWidth] && shown[KeyWidth..] == "..."
    ensures |shown| <= KeyWidth + 3
  {
    if |name| <= KeyWidth then name else name[..KeyWidth] + "..."
  }

  /** The detail summary of an operation; `None` for every type without a case. */
  function Interpret(k: Kind): (s: Option<Summary>)
    ensures s.None? <==> k.Other?
    // The trust verdict reads "Allowed" exactly when `authorize` holds (implied by the next clause).
    ensures k.AllowTrust? ==> s.Some? && s.value.Authorisation? && (s.value.verdict == "Allowed" <==> k.authorize)
    ensures k.AllowTrust? ==> s == Some(Authorisation(if k.authorize then "Allowed" else "Disallowed", k.trustor, k.assetCode))
    ensures k.ManageData? ==> s == Some(DataEntry(KeyShown(k.name)))
    ensures k.Payment? ==> s == Some(Transfer(Money(k.amount, AssetCode(k.asset)), k.to))
    ensures k.PathPayment? ==> s == Some(PathTransfer(Money(k.sourceMax, AssetCode(k.sourceAsset)), Money(k.amount, AssetCode(k.asset)), k.to))
    ensures k.ChangeTrust? ==> s == Some(TrustLine(k.assetCode, k.assetIssuer))
    ensures k.ManageOffer? || k.CreatePassiveOffer? ==> s == Some(Offer(Money(k.amount, AssetCode(k.selling)), AssetCode(k.buying)))
    ensures k.AccountMerge? ==> s == Some(Merge(k.into))
  {
    match k
    case CreateAccount(balance, account) =>
      Some(Funding(Money(balance, AssetCode(Asset("native", None))), account))
    case Payment(amount, asset, to) =>
      Some(Transfer(Money(amount, AssetCode(asset)), to))
    case PathPayment(sourceMax, sourceAsset, amount, asset, to) =>
      Some(PathTransfer(Money(sourceMax, AssetCode(sourceAsset)), Money(amount, AssetCode(asset)), to))
    case ChangeTrust(code, issuer, _) =>
      Some(TrustLine(code, issuer))
    case AllowTrust(authorize, trustor, code, _) =>
      Some(Authorisation(if authorize then "Allowed" else "Disallowed", trustor, code))
    case ManageOffer(amount, selling, buying) =>
      Some(Offer(Money(amount, AssetCode(selling)), AssetCode(buying)))
    case CreatePassiveOffer(amount, selling, buying) =>
      Some(Offer(Money(amount, AssetCode(selling)), AssetCode(buying)))
    case AccountMerge(into) =>
      Some(Merge(into))
    case ManageData(name) =>
      Some(DataEntry(KeyShown(name)))
    case Other(_, _, _) =>
      None
  }

  /** A passive offer is summarised exactly as an ordinary offer with the same fields. */
  lemma OfferKindsAgree(amount: Amount, selling: Asset, buying: Asset)
    ensures Interpret(ManageOffer(amount, selling, buying)) == Interpret(CreatePassiveOffer(amount, selling, buying))
    ensures Interpret(ManageOffer(amount, selling, buying)).value.buying == Xlm <==> buying.assetType == "native"
  {
  }

  /** The account funding shows its starting balance in the native asset. */
  lemma FundingIsNative(balance: Amount, account: Account)
    ensures Interpret(CreateAccount(balance, account)) == Some(Funding(Money(balance, Xlm), account))
  {
  }

  /** Dispatch on the type tag: a record gets a summary exactly when its tag is one
      of the listed types. */
  lemma SummaryIffKnownType(k: Kind)
    requires WellFormed(k)
    ensures Interpret(k).Some? <==> TypeName(k) in KnownTypes
  {
  }

  // Stripping of the formatted amount: `.replace(/\.*0+$/, '')` applied to the
  // text that the decimal formatter produced.

  predicate AllZeros(t: string) {
    forall i :: 0 <= i < |t| ==> t[i] == '0'
  }

  /** The language of the pattern `\.*0+`: some dots, then at least one zero. */
  predicate DotsThenZeros(t: string)
    decreases |t|
  {
    |t| > 0 && (AllZeros(t) || (t[0] == '.' && DotsThenZeros(t[1..])))
  }

  /** The leftmost position, from `from` on, at which a match of `\.*0+` runs to
      the end of `s`; `|s|` when there is none. */
  function MatchStart(s: string, from: nat): (p: nat)
    requires from <= |s|
    ensures from <= p <= |s|
    ensures p < |s| ==> DotsThenZeros(s[p..])
    ensures forall q :: from <= q < p ==> !DotsThenZeros(s[q..])
    decreases |s| - from
  {
    if from == |s| then |s|
    else if DotsThenZeros(s[from..]) then from
    else MatchStart(s, from + 1)
  }

  /** The formatted amount with the leftmost trailing run of dots and zeros removed. */
  function StripZeros(formatted: string): (r: string)
    ensures r <= formatted
    ensures formatted[|r|..] == "" || DotsThenZeros(formatted[|r|..])
    ensures forall q :: 0 <= q < |r| ==> !DotsThenZeros(formatted[q..])
  {
    formatted[..MatchStart(formatted, 0)]
  }
}
