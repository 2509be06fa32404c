/** The derived texts of the rendered table: the operation-type column label,
    the age cell and the account prefix in the heading. */
module Display {
  import opened Records

  /** The label of the operation-type column: passive offers are shortened. */
  function TypeLabel(k: Kind): (caption: string)
    ensures k.CreatePassiveOffer? ==> caption == "passive_offer"
    ensures WellFormed(k) && !k.CreatePassiveOffer? ==> caption == TypeName(k)
  {
    if TypeName(k) == "create_passive_offer" then "passive_offer" else TypeName(k)
  }

  /** Only passive offers are labelled otherwise than by their type tag. */
  lemma LabelDiffersOnlyForPassiveOffer(k: Kind)
    requires WellFormed(k)
    ensures TypeLabel(k) != TypeName(k) <==> k.CreatePassiveOffer?
  {
  }

  const Placeholder: string := "Loading..."

  /** The age cell: the age text when it is present and non-empty (it is tested
      for truthiness), the loading placeholder otherwise. */
  function AgeCell(ago: Option<string>): (cell: string)
    ensures cell != ""
    ensures ago.Some? && ago.value != "" ==> cell == ago.value
    ensures ago.None? || ago.value == "" ==> cell == Placeholder
  {
    if ago.Some? && ago.value != "" then ago.value else Placeholder
  }

  function Min(a: nat, b: nat): nat {
    if a <= b then a else b
  }

  /** The heading's account prefix: the first four characters of the configured
      account (all of it when shorter), nothing when there is no account. */
  function AccountPrefix(account: Option<Account>): (prefix: string)
    ensures !HasAccount(account) ==> prefix == ""
    ensures HasAccount(account) ==> prefix <= account.value && |prefix| == Min(4, |account.value|)
  {
    if HasAccount(account) then account.value[..Min(4, |account.value|)] else ""
  }
}
