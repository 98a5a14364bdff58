/** `requestOffer`: make sure the seller has a wrapped-SOL account, send that
    transaction, then put the seller's NFT account in escrow for the
    offered lamports, and return the new offer record. */
module OfferRequest {
  import opened Common
  import opened EscrowInstructions
  import opened Web3Client
  import opened Offers
  import EscrowProgram

  /** The arguments of `requestOffer`. Amounts are in tenths of SOL. An
      argument a caller leaves out is None. */
  datatype RequestOfferArgs = RequestOfferArgs(
    seller: Option<Pubkey>,
    buyerAddressStr: Option<string>,
    sellerNFTAddressStr: string,
    wallet: Option<Pubkey>,
    program: Option<Program>,
    amountInSol: int,
    fee: int,
    signed: bool)

  /** `(amountInSol + fee) * LAMPORTS_PER_SOL`, for amounts in tenths of SOL. */
  function TotalAmountInLamports(amountInSol: int, fee: int): (lamports: int)
    ensures lamports * 10 == (amountInSol + fee) * LAMPORTS_PER_SOL
  {
    (amountInSol + fee) * (LAMPORTS_PER_SOL / 10)
  }

  /** The accounts `initializeEscrow` is given: the wallet initializes and
      receives, the seller's NFT account is the deposit. */
  function InitializeAccounts(d: Derivations, seller: Pubkey, nft: Pubkey, wallet: Pubkey,
                              escrow: Pubkey): (r: EscrowProgram.InitializeEscrowAccounts)
    ensures r.initializer == wallet && r.initializerReceiveWalletAccount == wallet
    ensures r.initializerDepositTokenAccount == d.ata(seller, nft) && r.escrowAccount == escrow
    ensures r.systemProgram == SYSTEM_PROGRAM_ID && r.tokenProgram == TOKEN_PROGRAM_ID
  {
    EscrowProgram.InitializeEscrowAccounts(wallet, d.ata(seller, nft), wallet, escrow,
                                           SYSTEM_PROGRAM_ID, TOKEN_PROGRAM_ID)
  }

  function BuyerAddress(args: RequestOfferArgs): string
  {
    if args.buyerAddressStr.Some? then args.buyerAddressStr.value else ""
  }

  /** `requestOffer`; `escrowKey` is the key of the keypair it generates. */
  function RequestOffer(d: Derivations, net: Network, args: RequestOfferArgs, escrowKey: Pubkey): (r: Run<Offer>)
    // with no seller key the first derivation throws and nothing is sent
    ensures args.seller.None? ==> r == Run([], Thrown(TYPE_ERROR))
    // first the seller's wrapped-SOL account is looked up
    ensures args.seller.Some? ==>
      |r.calls| >= 1 && r.calls[0] == GetAccountInfo(d.ata(args.seller.value, NATIVE_MINT))
    // then one transaction, paid by the seller, holding a create instruction exactly when the lookup found nothing
    ensures |r.calls| >= 2 ==>
      && args.seller.Some?
      && net.accountInfo(d.ata(args.seller.value, NATIVE_MINT)).Resolved?
      && r.calls[1].SendTransaction? && r.calls[1].feePayer == args.seller.value
      && r.calls[1].signed == args.signed
      && (net.accountInfo(d.ata(args.seller.value, NATIVE_MINT)).value.None? ==>
            r.calls[1].instructions == [CreateAssociatedAccountInstruction(
              d.ata(args.seller.value, NATIVE_MINT), NATIVE_MINT, args.seller.value, args.seller.value)])
      && (net.accountInfo(d.ata(args.seller.value, NATIVE_MINT)).value.Some? ==> r.calls[1].instructions == [])
    // an escrow is initialized only with a program and a wallet, for 1 token and the total in lamports,
    // with the fresh escrow key as co-signer
    ensures |r.calls| <= 3
    ensures |r.calls| == 3 ==>
      && args.program.Some? && args.wallet.Some? && args.seller.Some?
      && net.answer(r.calls[1]).Resolved?
      && r.calls[2] == InitializeEscrowRpc(1, TotalAmountInLamports(args.amountInSol, args.fee),
                         InitializeAccounts(d, args.seller.value, args.sellerNFTAddressStr, args.wallet.value, escrowKey),
                         [escrowKey])
    ensures args.program.None? ==> forall i :: 0 <= i < |r.calls| ==> !r.calls[i].InitializeEscrowRpc?
    // the record, returned once every awaited step resolved, with or without a program
    ensures r.result.Resolved? <==>
      && args.seller.Some?
      && |r.calls| >= 2
      && (forall i :: 0 <= i < |r.calls| ==> net.answer(r.calls[i]).Resolved? || r.calls[i].GetAccountInfo?)
      && (args.program.Some? ==> |r.calls| == 3)
    ensures r.result.Resolved? ==> r.result.value == Offer(
              None, BuyerAddress(args), args.seller.value, escrowKey, args.sellerNFTAddressStr,
              args.amountInSol, REQUESTED, None, None)
  {
    if args.seller.None? then Run([], Thrown(TYPE_ERROR))
    else
      var seller := args.seller.value;
      var associatedAccountForSeller := d.ata(seller, NATIVE_MINT);
      var lookup := GetAccountInfo(associatedAccountForSeller);
      match net.accountInfo(associatedAccountForSeller)
      case Thrown(m) => Run([lookup], Thrown(m))
      case Resolved(info) =>
        var instructions :=
          if info.None? then [CreateAssociatedAccountInstruction(associatedAccountForSeller, NATIVE_MINT, seller, seller)]
          else [];
        var send := SendTransaction(seller, instructions, args.signed);
        match net.answer(send)
        case Thrown(m) => Run([lookup, send], Thrown(m))
        case Resolved(_) =>
          var record := Offer(None, BuyerAddress(args), seller, escrowKey, args.sellerNFTAddressStr,
                              args.amountInSol, REQUESTED, None, None);
          if args.program.None? then Run([lookup, send], Resolved(record))
          else if args.wallet.None? then Run([lookup, send], Thrown(TYPE_ERROR))
          else
            var init := InitializeEscrowRpc(1, TotalAmountInLamports(args.amountInSol, args.fee),
                                            InitializeAccounts(d, seller, args.sellerNFTAddressStr, args.wallet.value, escrowKey),
                                            [escrowKey]);
            match net.answer(init)
            case Thrown(m) => Run([lookup, send, init], Thrown(m))
            case Resolved(_) => Run([lookup, send, init], Resolved(record))
  }
}
