# sol-sell-escrow in Dafny

A model of the escrow trade of sol-sell-escrow, in two parts.

The first part is the on-chain Anchor program. An initializer deposits an SPL token account into escrow for a number of lamports. A taker then either exchanges the lamports for the tokens, or the initializer cancels. The second part is the browser client: it picks the accounts and amounts for the program, runs the calls, and keeps an off-chain offer record moving from `REQUESTED` to `ACCEPTED` or `CANCELED`.

Layout, one module per file:

- `common.dfy` (`Common`): shared types, the well-known program ids, and the address derivations.
  - The derivations are uninterpreted functions: `pda(programId, seed)` and `ata(owner, mint)`.
- `escrow_program.dfy` (`EscrowProgram`): the program. The ledger is a class holding token accounts, lamport balances and escrow accounts.
  - It has one method per instruction.
  - Each method is proved equal to a pure step function. Those step functions carry the properties.
  - Every check the program makes becomes an error case. A failing instruction changes nothing.
- `escrow_instructions.dfy` (`EscrowInstructions`): the instruction builders.
- `web3_client.dfy` (`Web3Client`): the calls the client makes and the answers it gets. Every network, wallet and RPC answer is a parameter (`Network`).
  - A client function returns a `Run`: the calls it made, in order, and whether it resolved or threw.
- `request_offer.dfy`, `accept_offer.dfy`, `cancel_offer.dfy`: `requestOffer`, `acceptOffer` and `cancelOffer`.
- `wiring.dfy` (`OfferWiring`): what the client deposits is what it later names, and the program accepts those calls.
- `offers.dfy` (`Offers`): the offer record and the store, a map from child keys to records.
- `transaction_view.dfy`, `use_transactions.dfy`, `main_actions.dfy`, `form_inputs.dfy`, `seller_input.dfy`, `buyer_input.dfy`: the off-chain offer lifecycle.

Behaviour the model keeps as the code has it:

- **The fee has no division by 100.** It is `amount × feePercentage`. An offer of 10 SOL at a percentage of 4 asks 50 SOL in escrow (`BuyerInput.TenSolAtFour`). The form's own text says "4.0% tx fee is included" (`app/src/components/BuyerInput.tsx:181`), but `v.mul(feePercentage)` (line 38) divides by nothing; the model follows the code.
- **The buyer form's call to `requestOffer` throws.** It passes `buyer` and `sellerAddressStr`, which `requestOffer` does not declare. So `seller`, `buyerAddressStr`, `wallet` and `program` are unbound, and `requestOffer` throws a TypeError before any call is made (`BuyerInput.SubmitNeverReachesTheChain`).
- **The seller form never touches the chain.** Its `requestOffer` call is commented out. It writes its record under the literal child key `"newTxHistoryKey"`, while the record's `id` is the key `push` generated. A later status write from the table therefore goes to a different child (`SellerInput.DiscardMissesLiteralRecord`).
- **The accept action passes no seller address and no signer.** `acceptOffer` parses the missing seller address into a value it never uses, so the model leaves that value out. The transaction is sent without a signer (`MainActions.AcceptActionSendsUnsigned`).
- **`cancel_escrow` does not check the initializer's signature.** The initializer is a plain account, not a `Signer` (`EscrowProgram.CancelNeedsNoInitializerSignature`).
- **`createInitEscrowInstruction` is never called.** Its key list puts the rent sysvar fifth, which does not match the accounts of the Anchor program's `initialize_escrow`. The builder is modelled as written.

Amounts in the client are in tenths of SOL. A key is its base58 text.

## Model

| member | source | states |
|---|---|---|
| EscrowProgram.InitializeEscrowStep | programs/escrow/src/lib.rs:26-54 | succeeds exactly when no constraint fails, otherwise returns the first failing check; stores initializer key, deposit, receive wallet and both amounts exactly as given; the deposit must hold at least initializer_amount; afterwards the deposit is owned by the PDA of "escrow" with its balance and mint unchanged, and no other token account changes; the initializer pays the escrow account's rent and no other lamport balance changes; lamports and token supply are conserved |
| EscrowProgram.ExchangeStep | programs/escrow/src/lib.rs:71-106 | succeeds exactly when no constraint fails; success implies taker lamports >= taker_amount and deposit, receive wallet and initializer equal to the stored ones; exactly initializer_amount tokens go from the deposit to the taker's account and no other token account changes; the deposit's owner becomes the initializer; when neither taker nor receive wallet is the escrow account, every balance other than the escrow's changes by exactly: minus taker_amount for the taker, plus taker_amount for the receive wallet, plus the escrow's lamports for the initializer (so a wallet that is also the initializer gets both); the escrow is left with no lamports and is removed; token supply and lamport total are conserved |
| EscrowProgram.ExchangeChecksPassed | programs/escrow/src/lib.rs:126-150 | once the exchange checks pass, the accounts exist, the balances suffice, and the step's result is the token movement, the lamport movement and the escrow removed |
| EscrowProgram.ExchangeTokens | programs/escrow/src/lib.rs:76-81 | the token transfer of initializer_amount then set_authority: deposit debited, receive account credited, deposit owned by the initializer, no other account changed, supply conserved |
| EscrowProgram.ExchangeLamports | programs/escrow/src/lib.rs:84-95 | the system transfer of taker_amount then the close: when neither taker nor wallet is the escrow account, the taker loses taker_amount, the wallet gains it, the initializer gains the escrow's lamports, these add up where the accounts coincide, and no other balance changes; the escrow is left with none and the total is conserved |
| EscrowProgram.CloseConserves | programs/escrow/src/lib.rs:144 | Anchor's close moves all lamports of the closed account to the destination and keeps the total |
| EscrowProgram.TokenTransfer | programs/escrow/src/lib.rs:76-81 | the token program's transfer: the source loses the amount and the destination gains it (no change when they are the same account), owner and mint kept, every other account unchanged, supply conserved |
| EscrowProgram.SetOwner | programs/escrow/src/lib.rs:60-66 | set_authority for the account owner: only the owner of that account changes; its mint and amount, every other account and the supply are kept |
| EscrowProgram.SystemTransfer | programs/escrow/src/lib.rs:84-95 | the system program's transfer: every balance changes by minus the amount for the sender and plus the amount for the receiver, and by nothing otherwise; the total is conserved |
| EscrowProgram.Close | programs/escrow/src/lib.rs:144 | Anchor's close: the closed account is left with no lamports, the destination gains all it held, and no other balance changes |
| EscrowProgram.InitializeEscrowError | programs/escrow/src/lib.rs:109-124 | no error exactly when all the constraints of initialize_escrow hold; checks in the order of Anchor's generated validation, deserialization before `init` before `constraint =` before the handler: initializer signature, deposit exists, program ids, escrow signature, escrow account fresh, rent affordable, deposit amount >= initializer_amount, deposit owned by the initializer; so a wrong program id is reported before a short deposit; each reported error names a check that failed |
| EscrowProgram.ExchangeError | programs/escrow/src/lib.rs:126-150 | no error exactly when all the constraints of exchange hold; checks in the order of Anchor's generated validation, deserialization before the `signer` and `constraint =` checks before the handler: accounts exist, program ids, taker signature, the four escrow constraints, the PDA, deposit owned by the PDA, matching mints, enough deposited tokens, the close target not the escrow itself; each reported error names a check that failed |
| EscrowProgram.CancelEscrowError | programs/escrow/src/lib.rs:152-166 | no error exactly when all the constraints of cancel_escrow hold, none of them a signature; checks in the order of Anchor's generated validation: accounts exist, the token program id, the two escrow constraints, the PDA, deposit owned by the PDA, the close target not the escrow itself; each reported error names a check that failed |
| EscrowProgram.CancelEscrowStep | programs/escrow/src/lib.rs:56-69 | succeeds exactly when no constraint fails; success implies stored initializer key and deposit equal the given ones; the deposit goes back to the initializer with balance and mint unchanged and no other token account changes; the escrow is closed and its lamports go to the initializer, no other lamport balance changes; totals conserved |
| EscrowProgram.EscrowAccountSize | programs/escrow/src/lib.rs:177-179 | LEN is 112 and the allocation 8 + LEN is 120 |
| EscrowProgram.ExchangeConsumesEscrow | programs/escrow/src/lib.rs:144 | after an exchange neither a second exchange nor a cancel naming the escrow succeeds |
| EscrowProgram.CancelConsumesEscrow | programs/escrow/src/lib.rs:162 | after a cancel neither an exchange nor a second cancel naming the escrow succeeds |
| EscrowProgram.CancelNeedsNoInitializerSignature | programs/escrow/src/lib.rs:152-166 | after initialize_escrow, a cancel naming the stored initializer and deposit succeeds with no signature at all |
| EscrowProgram.TestInitializeEscrow | tests/escrow.ts:95-144 | the test's deal of 500 tokens for one SOL: the deposit is owned by the PDA and the terms are stored as given |
| EscrowProgram.TestExchangeEscrow | tests/escrow.ts:146-173 | after the exchange the taker's account holds 500 tokens and the deposit none |
| EscrowProgram.TestCancelEscrow | tests/escrow.ts:177-230 | on the chain the exchange left, with the deposit refilled by `mintTo`, a second deal is accepted, hands the deposit to the PDA, and canceled gives it back to the provider with all 500 tokens and removes the escrow |
| EscrowProgram.TestSecondDeal | tests/escrow.ts:186-230 | on any chain where the deposit holds 500 tokens of the provider and the second escrow is unused, initialize then cancel leaves the deposit with the provider and its 500 tokens |
| EscrowProgram.Ledger.constructor | programs/escrow/src/lib.rs:168-175 | the ledger starts in the given chain state |
| EscrowProgram.Ledger.InitializeEscrow | programs/escrow/src/lib.rs:26-54 | the in-place instruction leaves exactly the state InitializeEscrowStep computes, or reports its error and changes nothing |
| EscrowProgram.Ledger.Exchange | programs/escrow/src/lib.rs:71-106 | the in-place instruction leaves exactly the state ExchangeStep computes, or reports its error and changes nothing |
| EscrowProgram.Ledger.CancelEscrow | programs/escrow/src/lib.rs:56-69 | the in-place instruction leaves exactly the state CancelEscrowStep computes, or reports its error and changes nothing |
| EscrowInstructions.InitAccountInstruction | app/src/web3/escrowInstructions.ts:30-59 | exactly two token-program instructions, in order: initialize the temp account for the mint under the payer, then transfer totalAmount from the mint account into it with the payer's authority |
| EscrowInstructions.CreateAccountInstruction | app/src/web3/escrowInstructions.ts:61-81 | a create-account of the token-account span, assigned to the token program, paid by the payer with the rent-exempt balance |
| EscrowInstructions.CreateInitEscrowInstruction | app/src/web3/escrowInstructions.ts:83-141 | targets the escrow program id, carries the six keys and the payload of amount then fee |
| EscrowInstructions.InitEscrowKeys | app/src/web3/escrowInstructions.ts:103-134 | six keys; the first is the initializer, signing and read-only; the fifth the rent sysvar and the sixth the token program |
| EscrowInstructions.InitEscrowKeyOrder | app/src/web3/escrowInstructions.ts:103-134 | the keys are initializer, temp, receive, escrow, rent sysvar and token program, in that order |
| EscrowInstructions.InitEscrowKeyFlags | app/src/web3/escrowInstructions.ts:103-134 | an entry signs iff it is the initializer; an entry is writable iff it is the temp account or the escrow account |
| EscrowInstructions.CreateAssociatedAccountInstruction | app/src/web3/escrowInstructions.ts:143-162 | an associated-account creation for the given account, mint, owner and payer under the associated-token and token programs |
| EscrowInstructions.CreateWrappedNativeAccountInstructions | app/src/web3/escrowInstructions.ts:164-198 | exactly two instructions: create the account, then initialize that same account for the native mint and the owner |
| EscrowInstructions.CreateCloseAccountInstruction | app/src/web3/escrowInstructions.ts:200-216 | a token-program close of the account into the destination under the owner |
| Web3Client.Transaction.constructor | app/src/web3/requestOffer.ts:87-90 | a new transaction has the fee payer and no instructions |
| Web3Client.Transaction.Add | app/src/web3/requestOffer.ts:92 | appends one instruction |
| Web3Client.AddEach | app/src/web3/acceptOffer.ts:104 | adding each instruction appends all of them, in order |
| Web3Client.AssembleTransaction | app/src/web3/acceptOffer.ts:99-104 | a fresh transaction for the fee payer holding exactly the instructions, in order |
| OfferRequest.TotalAmountInLamports | app/src/web3/requestOffer.ts:44-47 | the total is (amountInSol + fee) × LAMPORTS_PER_SOL |
| OfferRequest.InitializeAccounts | app/src/web3/requestOffer.ts:113-120 | the wallet is both initializer and receive wallet, Ata(seller, nft) is the deposit, the fresh key is the escrow, with the system and token programs |
| OfferRequest.RequestOffer | app/src/web3/requestOffer.ts:23-134 | no seller: TypeError before any call; the seller's native-mint account is looked up first; one transaction paid by the seller, holding the create instruction iff the lookup returned null; at most one initializeEscrow, only with a program, for 1 token and the lamport total, with Ata(seller, nft) as deposit, the wallet as initializer and receive wallet, and the fresh escrow key as co-signer; it resolves iff every awaited step resolved, including when no program is given; the record has status REQUESTED, the fresh escrow key, offeredAmount = amountInSol and the input addresses |
| OfferAcceptance.CheckExistenceOfAssociatedAccount | app/src/web3/acceptOffer.ts:28-41 | false for a missing account and for a data length other than the token-account span; otherwise true iff the decoded mint is the NFT address |
| OfferAcceptance.BuyerAccountInstructions | app/src/web3/acceptOffer.ts:66-91 | at most one instruction, and one exactly when the check is false: the creation of Ata(buyer, nft) paid by the buyer |
| OfferAcceptance.ExchangeAccounts | app/src/web3/acceptOffer.ts:125-137 | the wallet is the taker with the given receive account; deposit, receive wallet and initializer are copied from the stored escrow; the escrow, the PDA, and the token and system programs |
| OfferAcceptance.AcceptOffer | app/src/web3/acceptOffer.ts:43-139 | no program: nothing fetched or sent; the escrow is fetched, then Ata(buyer, nft) is checked, then the buyer's transaction is sent; exchange names that same account as taker receive account, copies deposit, receive wallet and initializer from the fetched escrow, and uses the PDA of "escrow"; it resolves iff there is no program or the exchange resolves |
| OfferCancellation.CancelAccounts | app/src/web3/cancelOffer.ts:27-54 | the PDA of "escrow", Ata(seller, nft) as the deposit, the wallet as initializer and the given escrow |
| OfferCancellation.CancelOffer | app/src/web3/cancelOffer.ts:12-58 | no program: no call; otherwise exactly one cancelEscrow with those accounts, whose answer is the result |
| OfferWiring.ClientPdaIsProgramPda | app/src/web3/cancelOffer.ts:29-32 | the client's PDA is the program's PDA for seed "escrow" |
| OfferWiring.CancelNamesRequestedDeposit | app/src/web3/cancelOffer.ts:36-41 | cancelOffer names the deposit requestOffer put in escrow for the same seller and NFT |
| OfferWiring.RequestThenCancel | app/src/web3/cancelOffer.ts:46-54 | after requestOffer initialized an escrow, cancelOffer from the same wallet is accepted by the program and returns the deposit to the wallet with its balance |
| OfferWiring.AcceptMeetsExchangeConstraints | app/src/web3/acceptOffer.ts:125-137 | the exchange accounts equal the stored escrow's fields and the program's PDA, so given the balances and the buyer's NFT account the program accepts the call |
| OfferWiring.RequestThenAccept | app/src/web3/acceptOffer.ts:125-137 | after requestOffer, acceptOffer by a buyer who holds an account for the NFT and the lamports asked succeeds on chain: the buyer's account gains the token, the deposit goes back to the requesting wallet, the escrow is gone; a buyer other than the requesting wallet pays exactly the total asked, and the requesting wallet gains that total plus the escrow's rent, so over the whole trade it gains exactly the total |
| Offers.TransactionTypeCode | app/src/types.ts:54-57 | Seller is 0 and Buyer is 1 |
| Offers.WithStatus | app/src/components/Main.tsx:57-59 | an update writes only the status of the record with that id, creating a status-only child for an unknown id; every other child is unchanged |
| Offers.WithStatusOverwrites | app/src/components/Main.tsx:93-95 | of two status writes to one record the later wins |
| Offers.WithChild | app/src/components/SellerInput.tsx:122-124 | an update of a child replaces it and leaves every other child unchanged |
| TransactionView.ShortAddress | app/src/components/Transaction.tsx:10-12 | the first 3 characters, "..", then the last 4, with JavaScript's clamping for short addresses |
| TransactionView.StatusLabel | app/src/components/Transaction.tsx:14-41 | the label is "Accepted", "Canceled" or "Requested" exactly for ACCEPTED, CANCELED or REQUESTED |
| TransactionView.StatusLabelInjective | app/src/components/Transaction.tsx:14-41 | each status has its own label |
| TransactionView.Actions | app/src/components/Transaction.tsx:49-89 | on a REQUESTED record a seller gets only Discard and a buyer Accept and Discard; on any other status no action |
| TransactionView.Dialog | app/src/components/Transaction.tsx:107-144 | Discard opens CancelOffer and Accept opens AcceptOffer with amount = offeredAmount; both carry the record's id, escrow, seller, buyer and NFT address |
| TransactionView.DialogsOnlyForRequested | app/src/components/Transaction.tsx:49-89 | a dialog is opened only for a REQUESTED record, and an acceptance only by a buyer |
| UseTransactions.FetcherFor | app/src/hooks/useTransactions.ts:84-91 | Buyer picks the buyer fetcher, Seller the seller fetcher, any other type fails with "TranasactionType is missing" |
| UseTransactions.QueryResult | app/src/hooks/useTransactions.ts:16 | the records whose buyerAddress (or sellerAddress) equals the address, under their keys |
| UseTransactions.SortKey | app/src/hooks/useTransactions.ts:26-30 | updatedAt when the record has one, otherwise createdAt, otherwise 0 |
| UseTransactions.NewestFirst | app/src/hooks/useTransactions.ts:26-32 | the order the comparator produces: the first record of a newest-first list is at least as new as every other, and dropping it leaves a newest-first list |
| UseTransactions.Collect | app/src/hooks/useTransactions.ts:23-25 | the loop collects every value once, in visiting order: a permutation of the snapshot's values |
| UseTransactions.Insert | app/src/hooks/useTransactions.ts:26-32 | inserting adds exactly the element |
| UseTransactions.InsertSorted | app/src/hooks/useTransactions.ts:26-32 | inserting into a newest-first list keeps it newest first |
| UseTransactions.SortNewestFirst | app/src/hooks/useTransactions.ts:26-32 | the result is non-increasing in updatedAt-else-createdAt and a permutation of the input |
| UseTransactions.TransactionsHook.Fetch | app/src/hooks/useTransactions.ts:13-47 | no query for an empty address; a failed read or an empty result keeps the previous list; otherwise the list is exactly the matching records, newest first |
| UseTransactions.UseTransactionsHook | app/src/hooks/useTransactions.ts:84-91 | a hook with no list yet for a known type, the error for any other |
| UseTransactions.FetchedRecordsMatch | app/src/hooks/useTransactions.ts:48-83 | every fetched record has the address on the fetcher's side |
| MainActions.ActionEffects | app/src/components/Main.tsx:48-65 | loading shown, the chain call, then the status write iff it resolved (else a toast of its message), loading hidden |
| MainActions.StoreAfter | app/src/components/Main.tsx:49-63 | the store is written only when the call resolved |
| MainActions.MainPage.constructor | app/src/components/Main.tsx:25-30 | the page starts with the store it is given and no loading |
| MainActions.MainPage.CancelArgs | app/src/components/Main.tsx:50-56 | cancelOffer gets the page's wallet and program, the connected key as seller, and the record's escrow and NFT |
| MainActions.MainPage.AcceptArgs | app/src/components/Main.tsx:85-92 | acceptOffer gets the page's wallet and program, the connected key as buyer, the record's escrow and NFT, no seller address and no signer |
| MainActions.MainPage.CancelOfferAction | app/src/components/Main.tsx:35-66 | no key or signer: nothing happens; otherwise CANCELED is written only after cancelOffer resolved, and loading ends hidden |
| MainActions.MainPage.AcceptOfferAction | app/src/components/Main.tsx:68-102 | no key or signer: nothing happens; otherwise ACCEPTED is written only after acceptOffer resolved, and loading ends hidden |
| MainActions.MainPage.HandleConfirm | app/src/components/Main.tsx:104-122 | a CancelOffer payload runs the cancel action and an AcceptOffer payload the accept action, with the payload's id, escrow and NFT |
| MainActions.AcceptActionSendsUnsigned | app/src/components/Main.tsx:85-92 | the accept action's transaction is sent without a signer |
| MainActions.ConfirmWritesOnlyThatRecord | app/src/components/Main.tsx:93-95 | a confirmed status write changes only the status of that record |
| FormInputs.Fee | app/src/components/BuyerInput.tsx:38 | the fee is amount × feePercentage: zero for no amount, at least the amount for a percentage of 1 or more |
| FormInputs.Disabled | app/src/components/SellerInput.tsx:50-58 | an offer already requested, the loading overlay or a missing key disables the button whatever the amount and seller |
| FormInputs.EnabledIff | app/src/components/SellerInput.tsx:50-58 | the button is enabled iff the offer is not requested, the amount is positive, there is a seller address, loading is hidden and a key is connected |
| FormInputs.ResetDisables | app/src/components/BuyerInput.tsx:42-59 | after a reset the button is disabled |
| SellerInput.SellerInputForm.HandleChangeAmount | app/src/components/SellerInput.tsx:41-48 | the amount is the typed value and the fee its Fee |
| SellerInput.SellerInputForm.ResetInputs | app/src/components/SellerInput.tsx:60-67 | amount and fee are zero, the error is cleared, and the button is disabled |
| SellerInput.SellerInputForm.NewRecord | app/src/components/SellerInput.tsx:110-119 | status REQUESTED, id the generated key, buyer the wallet key, the fresh escrow key, and seller, NFT and amount from the form |
| SellerInput.SellerInputForm.HandleSubmit | app/src/components/SellerInput.tsx:74-134 | no wallet: the wallet message and nothing else; an invalid amount: the amount message and nothing else; otherwise the record is written under "newTxHistoryKey", the form is reset and loading ends hidden |
| SellerInput.SecondSubmissionOverwrites | app/src/components/SellerInput.tsx:122-124 | a second submission replaces the first record |
| SellerInput.DiscardMissesLiteralRecord | app/src/components/SellerInput.tsx:108-124 | discarding such a record writes CANCELED under its id, a different child, and the stored record stays REQUESTED |
| BuyerInput.SubmittedArgs | app/src/components/BuyerInput.tsx:83-91 | requestOffer gets no seller, buyer address, wallet or program, and gets the amount, the current fee and the signer |
| BuyerInput.BuyerInputForm.HandleChangeAmount | app/src/components/BuyerInput.tsx:33-40 | the amount is the typed value and the fee its Fee |
| BuyerInput.BuyerInputForm.ResetInputs | app/src/components/BuyerInput.tsx:52-59 | amount and fee are zero, the error is cleared, and the button is disabled |
| BuyerInput.BuyerInputForm.HandleSubmit | app/src/components/BuyerInput.tsx:66-105 | no wallet or an invalid amount: a message and no call; otherwise requestOffer runs with the amount and fee, loading is shown only if it resolved, a throw leaves its message, loading ends hidden; as called, it always ends with the TypeError and no call |
| BuyerInput.SubmitNeverReachesTheChain | app/src/components/BuyerInput.tsx:83-91 | the form's request makes no call and throws the TypeError |
| BuyerInput.TenSolAtFour | app/src/components/BuyerInput.tsx:38 | 10 SOL at percentage 4 has a 40 SOL fee and asks 50 SOL |

## Left out

- Network, wallet and store I/O: every answer of `getAccountInfo`, `signAndSendTransaction`, `program.rpc.*`, `program.account.*.fetch` and Firebase `get`/`push` is a parameter. The un-awaited Firebase `update` writes are taken to succeed (see below). No effect of a sent transaction on the chain is modelled on the client side, so the wiring lemmas take the chain state as given (for example, that the buyer's NFT account exists).
- Address cryptography: `findProgramAddress` and `getAssociatedTokenAddress` are uninterpreted functions. The bump seed is not modelled.
- Base58 parsing: `new PublicKey(...)` is the identity on key text, so a parse error is not modelled. This includes `acceptOffer` parsing the seller address that the accept action leaves undefined; the model takes that parse to succeed.
- Byte layouts: the Borsh payload and the `AccountLayout` decode are kept as the values they are built from and decoded into.
- `FormInputs.Fee` computes exactly amount × feePercentage. How bn.js treats a fractional amount is not visible, so its effect on the fee is not modelled.
- `isValidAmount` is an opaque predicate held by each form, for the same reason.
- `OfferRequest.TotalAmountInLamports` works in integer tenths of SOL. Floating-point rounding of `BigNumber` and `toNumber` is not modelled.
- `EscrowProgram.InitializeEscrowStep` and the other step functions use unbounded amounts. u64 overflow and the runtime's exact rent rules are not modelled; the rent is one value of the runtime.
- `EscrowProgram.InitializeEscrowError`, `EscrowProgram.ExchangeError` and `EscrowProgram.CancelEscrowError` report errors in the phase order of Anchor's generated account validation: typed deserialization and program ids, then `init`, then `signer` and `constraint =`, then the handler's calls. The exact order within a phase follows declaration order, but depends on the Anchor version, which is not part of this model. Anchor's deserialization and account-owner checks are folded into `AccountNotInitialized` and `OwnerMismatch`.
- `UseTransactions.SortNewestFirst` states sortedness and permutation, not stability: the in-place `sort` is modelled as insertion into a new list. A record with neither timestamp sorts as time 0.
- Dates are integers, so `new Date(...)` parsing is not modelled.
- `SellerInput.SellerInputForm.HandleSubmit` does not model the `update` write failing, because it is not awaited. No other step inside its `try` can throw in the model.
- `MainActions.StoreAfter`, `MainActions.MainPage.CancelOfferAction` and `MainActions.MainPage.AcceptOfferAction` take the status `update` to succeed whenever the chain call resolved. The source does not await that write, so a failed write would leave the store unchanged and show no toast. That failure is not modelled.
- Rendering, toasts' display and `console` logging are not modelled; a toast is one effect carrying its message.
- Concurrency: each action is one sequential step, and React state updates take effect at once.
- `Wallet.tsx`, `_app.tsx`, `index.tsx`, `useProgram.ts`, `SellerTab.tsx`, `Escrow.ts` and the helper `signAndSendTransaction` are not part of this model: they are provider setup, configuration and I/O. What `generateTransaction` returns is modelled by `Web3Client.Transaction`, and the adding of instructions by `Web3Client.AssembleTransaction`.
- `OfferRequest.RequestOffer` and `OfferAcceptance.AcceptOffer` are functions, so they cannot run the `Transaction` methods. They record the fee payer and the instruction list of the transaction they send. `Web3Client.AssembleTransaction` is proved to build a transaction holding exactly that list, but no lemma joins the two.
- `EscrowProgram.ExchangeStep` and `EscrowProgram.ExchangeLamports` state the lamport movement only when neither the taker nor the receive wallet is the escrow account. The system program's refusal to debit an account that holds data is not modelled, so a taker that is the escrow account is not rejected.
