/** `acceptOffer`: read the escrow, make sure the buyer has a token account
    for the NFT, send that transaction, then run `exchange` with accounts
    taken from the stored escrow. */
module OfferAcceptance {
  import opened Common
  import opened EscrowInstructions
  import opened Web3Client
  import EscrowProgram

  /** The arguments of `acceptOffer`; an argument a caller leaves out is None. */
  datatype AcceptOfferArgs = AcceptOfferArgs(
    wallet: Option<Pubkey>,
    program: Option<Program>,
    escrowAccountAddressString: string,
    buyer: Pubkey,
    sellerAddressString: Option<string>,
    sellerNFTAddressStr: string,
    signed: bool)

  /** `checkExistanceOfAssociatedAccount`, on what `getAccountInfo` returned. */
  function CheckExistenceOfAssociatedAccount(accountInfo: Option<RawAccount>, nftAddress: Pubkey): (exists_: bool)
    ensures accountInfo.None? ==> !exists_
    ensures accountInfo.Some? && accountInfo.value.dataLength != TOKEN_ACCOUNT_SPAN ==> !exists_
    ensures accountInfo.Some? && accountInfo.value.dataLength == TOKEN_ACCOUNT_SPAN ==>
      (exists_ <==> accountInfo.value.decodedMint == nftAddress)
  {
    if accountInfo.None? then false
    else if accountInfo.value.dataLength != TOKEN_ACCOUNT_SPAN then false
    else accountInfo.value.decodedMint == nftAddress
  }

  /** The accounts of `exchange`: the wallet takes into its NFT account, and
      deposit, receive wallet and initializer are those stored in the escrow. */
  function ExchangeAccounts(taker: Pubkey, takerReceive: Pubkey, stored: EscrowProgram.EscrowAccount,
                            escrow: Pubkey, pda: Pubkey): (r: EscrowProgram.ExchangeAccounts)
    ensures r.taker == taker && r.takerReceiveTokenAccount == takerReceive
    ensures r.pdaDepositTokenAccount == stored.initializerDepositTokenAccount
    ensures r.initializerReceiveWalletAccount == stored.initializerReceiveWalletAccount
    ensures r.initializerMainAccount == stored.initializerKey
    ensures r.escrowAccount == escrow && r.pdaAccount == pda
    ensures r.tokenProgram == TOKEN_PROGRAM_ID && r.systemProgram == SYSTEM_PROGRAM_ID
  {
    EscrowProgram.ExchangeAccounts(taker, takerReceive, stored.initializerDepositTokenAccount,
                                   stored.initializerReceiveWalletAccount, stored.initializerKey,
                                   escrow, pda, TOKEN_PROGRAM_ID, SYSTEM_PROGRAM_ID)
  }

  /** The instructions sent before the exchange: a create instruction for the
      buyer's NFT account, only when the check fails. */
  function BuyerAccountInstructions(d: Derivations, args: AcceptOfferArgs, accountInfo: Option<RawAccount>): (r: seq<Instruction>)
    ensures |r| <= 1
    ensures r == [] <==> CheckExistenceOfAssociatedAccount(accountInfo, args.sellerNFTAddressStr)
    ensures r != [] ==> r[0] == CreateAssociatedAccountInstruction(
              d.ata(args.buyer, args.sellerNFTAddressStr), args.sellerNFTAddressStr, args.buyer, args.buyer)
  {
    var associatedAccountForReceivingNFT := d.ata(args.buyer, args.sellerNFTAddressStr);
    if !CheckExistenceOfAssociatedAccount(accountInfo, args.sellerNFTAddressStr) then
      [CreateAssociatedAccountInstruction(associatedAccountForReceivingNFT, args.sellerNFTAddressStr, args.buyer, args.buyer)]
    else []
  }

  function AcceptOffer(d: Derivations, net: Network, args: AcceptOfferArgs): (r: Run<()>)
    // without a program nothing is fetched or sent
    ensures args.program.None? ==> r == Run([], Resolved(()))
    // the escrow is fetched first, then the buyer's NFT account is looked up
    ensures args.program.Some? ==> |r.calls| >= 1 && r.calls[0] == FetchEscrow(args.escrowAccountAddressString)
    ensures |r.calls| >= 2 ==>
      && net.fetchEscrow(args.escrowAccountAddressString).Resolved?
      && r.calls[1] == GetAccountInfo(d.ata(args.buyer, args.sellerNFTAddressStr))
    // the transaction is paid by the buyer and creates the account only when the check failed
    ensures |r.calls| >= 3 ==>
      && net.accountInfo(d.ata(args.buyer, args.sellerNFTAddressStr)).Resolved?
      && r.calls[2] == SendTransaction(args.buyer,
           BuyerAccountInstructions(d, args, net.accountInfo(d.ata(args.buyer, args.sellerNFTAddressStr)).value),
           args.signed)
    // exchange: into the account just checked or created, with the stored escrow's accounts and the PDA of "escrow"
    ensures |r.calls| <= 4
    ensures |r.calls| == 4 ==>
      && args.program.Some? && args.wallet.Some?
      && net.answer(r.calls[2]).Resolved?
      && r.calls[3] == ExchangeRpc(ExchangeAccounts(
           args.wallet.value, d.ata(args.buyer, args.sellerNFTAddressStr),
           net.fetchEscrow(args.escrowAccountAddressString).value,
           args.escrowAccountAddressString, d.pda(args.program.value.programId, ESCROW_PDA_SEED)))
    // resolves when there is no program, or when the exchange itself resolves
    ensures r.result.Resolved? <==> args.program.None? || (|r.calls| == 4 && net.answer(r.calls[3]).Resolved?)
  {
    if args.program.None? then Run([], Resolved(()))
    else
      var escrowAccount := args.escrowAccountAddressString;
      var fetch := FetchEscrow(escrowAccount);
      match net.fetchEscrow(escrowAccount)
      case Thrown(m) => Run([fetch], Thrown(m))
      case Resolved(stored) =>
        var associatedAccountForReceivingNFT := d.ata(args.buyer, args.sellerNFTAddressStr);
        var lookup := GetAccountInfo(associatedAccountForReceivingNFT);
        match net.accountInfo(associatedAccountForReceivingNFT)
        case Thrown(m) => Run([fetch, lookup], Thrown(m))
        case Resolved(info) =>
          var send := SendTransaction(args.buyer, BuyerAccountInstructions(d, args, info), args.signed);
          match net.answer(send)
          case Thrown(m) => Run([fetch, lookup, send], Thrown(m))
          case Resolved(_) =>
            var pda := d.pda(args.program.value.programId, ESCROW_PDA_SEED);
            if args.wallet.None? then Run([fetch, lookup, send], Thrown(TYPE_ERROR))
            else
              var exchange := ExchangeRpc(ExchangeAccounts(args.wallet.value, associatedAccountForReceivingNFT,
                                                           stored, escrowAccount, pda));
              Run([fetch, lookup, send, exchange], net.answer(exchange))
  }
}
