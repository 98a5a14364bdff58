/** What the two offer forms share: their messages, the fee rule and the
    rule that disables the submit button. Amounts are in tenths of SOL. */
module FormInputs {
  import opened Common

  const WALLET_ERROR: string := "Wallet is not connected properly. Re-connect your wallet."
  const AMOUNT_ERROR: string := "Offer amount accepts one decimal. Try rounding up."

  /** `new BN(value).mul(feePercentage)`: the fee is the amount times the
      configured percentage, with no division by 100. */
  function Fee(amount: int, feePercentage: int): (fee: int)
    ensures amount == 0 ==> fee == 0
    ensures feePercentage >= 1 && amount >= 0 ==> fee >= amount
  {
    amount * feePercentage
  }

  /** `isDisabled`: already requested, no positive amount, no seller
      address, loading shown, or no wallet key. */
  predicate Disabled(isRequested: bool, amount: int, sellerAddress: string, loadingShown: bool,
                     publicKey: Option<Pubkey>)
    // an offer already requested, the loading overlay or a missing key always disables the button
    ensures isRequested || loadingShown || publicKey.None? ==>
      Disabled(isRequested, amount, sellerAddress, loadingShown, publicKey)
  {
    isRequested || amount <= 0 || |sellerAddress| == 0 || loadingShown || publicKey.None?
  }

  /** A form whose amount was reset cannot be submitted again until a new amount is typed. */
  lemma ResetDisables(isRequested: bool, sellerAddress: string, loadingShown: bool, publicKey: Option<Pubkey>)
    ensures Disabled(isRequested, 0, sellerAddress, loadingShown, publicKey)
  {
  }

  /** The button is enabled exactly when every one of the five conditions is clear. */
  lemma EnabledIff(isRequested: bool, amount: int, sellerAddress: string, loadingShown: bool,
                   publicKey: Option<Pubkey>)
    ensures !Disabled(isRequested, amount, sellerAddress, loadingShown, publicKey) <==>
      && !isRequested && amount > 0 && sellerAddress != "" && !loadingShown && publicKey.Some?
  {
  }
}
