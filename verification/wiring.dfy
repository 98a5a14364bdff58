/** How the client's account choices meet the program's constraints: what
    `requestOffer` puts in escrow is what `cancelOffer` and `acceptOffer`
    later name, and the program accepts those calls. */
module OfferWiring {
  import opened Common
  import opened Web3Client
  import opened OfferRequest
  import opened OfferAcceptance
  import opened OfferCancellation
  import opened EscrowProgram

  /** The client derives the PDA with the program's seed, so for the
      deployed program it is the program's own PDA. */
  lemma ClientPdaIsProgramPda(rt: Runtime, d: Derivations, programId: Pubkey, wallet: Pubkey, seller: Pubkey,
                              escrow: Pubkey, nft: Pubkey)
    requires d == rt.derive && programId == rt.programId
    ensures CancelAccounts(d, programId, wallet, seller, escrow, nft).pdaAccount == Pda(rt)
  {
  }

  /** `cancelOffer` for the same seller and NFT names the deposit `requestOffer` put in escrow. */
  lemma CancelNamesRequestedDeposit(d: Derivations, programId: Pubkey, wallet: Pubkey, seller: Pubkey,
                                    escrow: Pubkey, nft: Pubkey)
    ensures CancelAccounts(d, programId, wallet, seller, escrow, nft).pdaDepositTokenAccount
            == InitializeAccounts(d, seller, nft, wallet, escrow).initializerDepositTokenAccount
  {
  }

  /** After `requestOffer` initialized an escrow, `cancelOffer` from the same
      wallet for the same seller and NFT is accepted by the program, and the
      seller's NFT account comes back to the wallet with its balance. */
  lemma {:induction false} RequestThenCancel(rt: Runtime, c: Chain, net: Network, args: RequestOfferArgs,
                                             escrowKey: Pubkey, cancelNet: Network)
    requires args.program == Some(Program(rt.programId))
    requires TotalAmountInLamports(args.amountInSol, args.fee) >= 0
    requires |RequestOffer(rt.derive, net, args, escrowKey).calls| == 3
    requires InitializeEscrowStep(rt, c, {args.wallet.value, escrowKey},
                                  InitializeAccounts(rt.derive, args.seller.value, args.sellerNFTAddressStr,
                                                     args.wallet.value, escrowKey),
                                  1, TotalAmountInLamports(args.amountInSol, args.fee)).Ok?
    ensures var init := InitializeAccounts(rt.derive, args.seller.value, args.sellerNFTAddressStr, args.wallet.value, escrowKey);
      var c1 := InitializeEscrowStep(rt, c, {args.wallet.value, escrowKey}, init,
                                     1, TotalAmountInLamports(args.amountInSol, args.fee)).value;
      var cancel := CancelOffer(rt.derive, cancelNet,
                                CancelOfferArgs(args.wallet, args.program, args.seller.value, escrowKey,
                                                args.sellerNFTAddressStr));
      && |cancel.calls| == 1 && cancel.calls[0].CancelEscrowRpc?
      && var step := CancelEscrowStep(rt, c1, cancel.calls[0].cancelAccounts);
      && step.Ok?
      && step.value.tokens[init.initializerDepositTokenAccount]
         == c.tokens[init.initializerDepositTokenAccount].(owner := args.wallet.value)
  {
    var init := InitializeAccounts(rt.derive, args.seller.value, args.sellerNFTAddressStr, args.wallet.value, escrowKey);
    var total := TotalAmountInLamports(args.amountInSol, args.fee);
    var cancelAccounts := CancelAccounts(rt.derive, rt.programId, args.wallet.value, args.seller.value, escrowKey,
                                         args.sellerNFTAddressStr);
    assert cancelAccounts == CancelEscrowAccounts(init.initializer, init.initializerDepositTokenAccount,
                                                  Pda(rt), init.escrowAccount, TOKEN_PROGRAM_ID);
    CancelNeedsNoInitializerSignature(rt, c, init, {args.wallet.value, escrowKey}, 1, total, cancelAccounts);
  }

  /** The accounts `acceptOffer` passes to `exchange` come from the escrow as
      the chain stores it, so every equality the program checks holds; given
      the balances and the buyer's NFT account, the program accepts the call. */
  lemma AcceptMeetsExchangeConstraints(rt: Runtime, c: Chain, net: Network, args: AcceptOfferArgs)
    requires args.program == Some(Program(rt.programId))
    requires |AcceptOffer(rt.derive, net, args).calls| == 4
    requires args.escrowAccountAddressString in c.escrows
    requires net.fetchEscrow(args.escrowAccountAddressString) == Resolved(c.escrows[args.escrowAccountAddressString])
    ensures var a := AcceptOffer(rt.derive, net, args).calls[3].exchangeAccounts;
      var e := c.escrows[args.escrowAccountAddressString];
      && a.pdaDepositTokenAccount == e.initializerDepositTokenAccount
      && a.initializerReceiveWalletAccount == e.initializerReceiveWalletAccount
      && a.initializerMainAccount == e.initializerKey
      && a.pdaAccount == Pda(rt)
      && a.takerReceiveTokenAccount == rt.derive.ata(args.buyer, args.sellerNFTAddressStr)
      && a.taker == args.wallet.value
    ensures var a := AcceptOffer(rt.derive, net, args).calls[3].exchangeAccounts;
      var e := c.escrows[args.escrowAccountAddressString];
      (&& Balance(c.lamports, a.taker) >= e.takerAmount
       && a.takerReceiveTokenAccount in c.tokens && a.pdaDepositTokenAccount in c.tokens
       && c.tokens[a.pdaDepositTokenAccount].owner == Pda(rt)
       && c.tokens[a.pdaDepositTokenAccount].mint == c.tokens[a.takerReceiveTokenAccount].mint
       && c.tokens[a.pdaDepositTokenAccount].amount >= e.initializerAmount
       && e.initializerKey != args.escrowAccountAddressString)
      ==> ExchangeStep(rt, c, {args.wallet.value}, a).Ok?
  {
  }

  /** The whole trade: `requestOffer` deposits the seller's NFT account, and a
      buyer who holds an account for the NFT and the lamports asked gets the
      token through `acceptOffer`, while the requesting wallet gets the
      account back, and the lamports asked plus the escrow's rent. */
  lemma {:induction false} RequestThenAccept(rt: Runtime, c: Chain, net: Network, args: RequestOfferArgs,
                                             escrowKey: Pubkey, acceptNet: Network, accept: AcceptOfferArgs)
    requires args.program == Some(Program(rt.programId)) && accept.program == args.program
    requires TotalAmountInLamports(args.amountInSol, args.fee) >= 0
    requires |RequestOffer(rt.derive, net, args, escrowKey).calls| == 3
    requires InitializeEscrowStep(rt, c, {args.wallet.value, escrowKey},
                                  InitializeAccounts(rt.derive, args.seller.value, args.sellerNFTAddressStr,
                                                     args.wallet.value, escrowKey),
                                  1, TotalAmountInLamports(args.amountInSol, args.fee)).Ok?
    requires accept.escrowAccountAddressString == escrowKey && accept.sellerNFTAddressStr == args.sellerNFTAddressStr
    requires |AcceptOffer(rt.derive, acceptNet, accept).calls| == 4
    // what the chain looks like when the exchange runs: the buyer's account exists for the NFT's mint
    ensures var init := InitializeAccounts(rt.derive, args.seller.value, args.sellerNFTAddressStr, args.wallet.value, escrowKey);
      var c1 := InitializeEscrowStep(rt, c, {args.wallet.value, escrowKey}, init,
                                     1, TotalAmountInLamports(args.amountInSol, args.fee)).value;
      var receive := rt.derive.ata(accept.buyer, accept.sellerNFTAddressStr);
      var a := AcceptOffer(rt.derive, acceptNet, accept).calls[3].exchangeAccounts;
      (&& acceptNet.fetchEscrow(escrowKey) == Resolved(c1.escrows[escrowKey])
       && receive in c1.tokens && receive != init.initializerDepositTokenAccount
       && c1.tokens[receive].mint == c1.tokens[init.initializerDepositTokenAccount].mint
       && Balance(c1.lamports, accept.wallet.value) >= TotalAmountInLamports(args.amountInSol, args.fee))
      ==>
      && ExchangeStep(rt, c1, {accept.wallet.value}, a).Ok?
      && var c2 := ExchangeStep(rt, c1, {accept.wallet.value}, a).value;
      && c2.tokens[receive].amount == c1.tokens[receive].amount + 1
      && c2.tokens[init.initializerDepositTokenAccount].owner == args.wallet.value
      && escrowKey !in c2.escrows
      // a buyer other than the requesting wallet pays the total asked, and the requesting wallet
      // receives it together with the escrow's rent, which it had paid at the request
      && (accept.wallet.value != args.wallet.value && accept.wallet.value != escrowKey ==>
            && Balance(c2.lamports, accept.wallet.value)
               == Balance(c.lamports, accept.wallet.value) - TotalAmountInLamports(args.amountInSol, args.fee)
            && Balance(c2.lamports, args.wallet.value)
               == Balance(c1.lamports, args.wallet.value) + TotalAmountInLamports(args.amountInSol, args.fee) + rt.rent
            && Balance(c2.lamports, args.wallet.value)
               == Balance(c.lamports, args.wallet.value) + TotalAmountInLamports(args.amountInSol, args.fee))
  {
    var init := InitializeAccounts(rt.derive, args.seller.value, args.sellerNFTAddressStr, args.wallet.value, escrowKey);
    var total := TotalAmountInLamports(args.amountInSol, args.fee);
    var c1 := InitializeEscrowStep(rt, c, {args.wallet.value, escrowKey}, init, 1, total).value;
    var receive := rt.derive.ata(accept.buyer, accept.sellerNFTAddressStr);
    var a := AcceptOffer(rt.derive, acceptNet, accept).calls[3].exchangeAccounts;
    if && acceptNet.fetchEscrow(escrowKey) == Resolved(c1.escrows[escrowKey])
       && receive in c1.tokens && receive != init.initializerDepositTokenAccount
       && c1.tokens[receive].mint == c1.tokens[init.initializerDepositTokenAccount].mint
       && Balance(c1.lamports, accept.wallet.value) >= total
    {
      var e := c1.escrows[escrowKey];
      assert e == EscrowAccount(args.wallet.value, init.initializerDepositTokenAccount, args.wallet.value, 1, total);
      assert c1.tokens[init.initializerDepositTokenAccount].owner == Pda(rt);
      AcceptMeetsExchangeConstraints(rt, c1, acceptNet, accept);
    }
  }
}
