/** `cancelOffer`: run `cancel_escrow` for the seller's NFT account. */
module OfferCancellation {
  import opened Common
  import opened Web3Client
  import EscrowProgram

  /** The arguments of `cancelOffer`; an argument a caller leaves out is None. */
  datatype CancelOfferArgs = CancelOfferArgs(
    wallet: Option<Pubkey>,
    program: Option<Program>,
    seller: Pubkey,
    escrowAccountAddressString: string,
    nftAddressString: string)

  /** The accounts of `cancel_escrow`: the wallet as initializer, the seller's
      NFT account as the deposit, and the PDA of "escrow". */
  function CancelAccounts(d: Derivations, programId: Pubkey, wallet: Pubkey, seller: Pubkey,
                          escrow: Pubkey, nft: Pubkey): (a: EscrowProgram.CancelEscrowAccounts)
    ensures a.pdaAccount == d.pda(programId, ESCROW_PDA_SEED)
    ensures a.pdaDepositTokenAccount == d.ata(seller, nft)
    ensures a.initializer == wallet && a.escrowAccount == escrow && a.tokenProgram == TOKEN_PROGRAM_ID
  {
    var pda := d.pda(programId, ESCROW_PDA_SEED);
    var associatedAccountForNFT := d.ata(seller, nft);
    EscrowProgram.CancelEscrowAccounts(wallet, associatedAccountForNFT, pda, escrow, TOKEN_PROGRAM_ID)
  }

  function CancelOffer(d: Derivations, net: Network, args: CancelOfferArgs): (r: Run<()>)
    // without a program no cancel call is made
    ensures args.program.None? ==> r == Run([], Resolved(()))
    // otherwise exactly one call, with the derived accounts, and its answer is the result
    ensures args.program.Some? && args.wallet.Some? ==>
      && r.calls == [CancelEscrowRpc(CancelAccounts(d, args.program.value.programId, args.wallet.value,
                                                    args.seller, args.escrowAccountAddressString, args.nftAddressString))]
      && r.result == net.answer(r.calls[0])
    ensures args.program.Some? && args.wallet.None? ==> r == Run([], Thrown(TYPE_ERROR))
  {
    var escrowAccountAddress := args.escrowAccountAddressString;
    if args.program.None? then Run([], Resolved(()))
    else if args.wallet.None? then Run([], Thrown(TYPE_ERROR))
    else
      var cancel := CancelEscrowRpc(CancelAccounts(d, args.program.value.programId, args.wallet.value,
                                                   args.seller, escrowAccountAddress, args.nftAddressString));
      Run([cancel], net.answer(cancel))
  }
}
