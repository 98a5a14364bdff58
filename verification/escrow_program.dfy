/** The on-chain escrow program: an initializer deposits a token account
    under the program's authority together with the terms of a deal; a taker
    then either exchanges lamports for the deposited tokens, or the
    initializer cancels and gets the account back. Either way the escrow
    account is closed and its rent goes back to the initializer.

    The ledger holds token accounts, lamport balances and escrow accounts.
    Each instruction is specified by a pure step function (`...Step`) and
    carried out by a method of `Ledger`; every check the runtime, Anchor's
    account constraints or a cross-program call performs is one error case,
    and a failing instruction changes nothing. */
module EscrowProgram {
  import opened Common

  const PUBKEY_BYTES: nat := 32
  const U64_BYTES: nat := 8
  const DISCRIMINATOR_BYTES: nat := 8

  /** `EscrowAccount::LEN`: three keys and two u64 amounts. */
  const LEN: nat := PUBKEY_BYTES + PUBKEY_BYTES + PUBKEY_BYTES + U64_BYTES + U64_BYTES

  /** Bytes allocated by `init` for an escrow account: discriminator plus LEN. */
  const SPACE: nat := DISCRIMINATOR_BYTES + LEN

  datatype TokenAccount = TokenAccount(owner: Pubkey, mint: Pubkey, amount: nat)

  /** The terms of one deal, as stored in the escrow account. */
  datatype EscrowAccount = EscrowAccount(
    initializerKey: Pubkey,
    initializerDepositTokenAccount: Pubkey,
    initializerReceiveWalletAccount: Pubkey,
    initializerAmount: nat,
    takerAmount: nat)

  /** What the program can see of the chain. */
  datatype Chain = Chain(
    tokens: map<Pubkey, TokenAccount>,
    lamports: map<Pubkey, nat>,
    escrows: map<Pubkey, EscrowAccount>)

  /** The deployed program: its id, the address derivations of the runtime,
      and the rent-exempt balance for SPACE bytes. */
  datatype Runtime = Runtime(programId: Pubkey, derive: Derivations, rent: nat)

  datatype ProgramError =
    | MissingRequiredSignature
    | AccountNotInitialized
    | AccountInUse
    | ConstraintRaw
    | InvalidProgramId
    | InsufficientLamports
    | OwnerMismatch
    | MintMismatch
    | InsufficientFunds
    | UnbalancedInstruction

  datatype Result<T> = Ok(value: T) | Err(error: ProgramError)

  /** The accounts of each instruction, in the order the program declares them. */
  datatype InitializeEscrowAccounts = InitializeEscrowAccounts(
    initializer: Pubkey,
    initializerDepositTokenAccount: Pubkey,
    initializerReceiveWalletAccount: Pubkey,
    escrowAccount: Pubkey,
    systemProgram: Pubkey,
    tokenProgram: Pubkey)

  datatype ExchangeAccounts = ExchangeAccounts(
    taker: Pubkey,
    takerReceiveTokenAccount: Pubkey,
    pdaDepositTokenAccount: Pubkey,
    initializerReceiveWalletAccount: Pubkey,
    initializerMainAccount: Pubkey,
    escrowAccount: Pubkey,
    pdaAccount: Pubkey,
    tokenProgram: Pubkey,
    systemProgram: Pubkey)

  datatype CancelEscrowAccounts = CancelEscrowAccounts(
    initializer: Pubkey,
    pdaDepositTokenAccount: Pubkey,
    pdaAccount: Pubkey,
    escrowAccount: Pubkey,
    tokenProgram: Pubkey)

  /** The address that holds authority over deposits: seed "escrow". */
  function Pda(rt: Runtime): Pubkey
  {
    rt.derive.pda(rt.programId, ESCROW_PDA_SEED)
  }

  /** Lamports of an account; an account the chain does not know holds none. */
  function Balance(lamports: map<Pubkey, nat>, k: Pubkey): nat
  {
    if k in lamports then lamports[k] else 0
  }

  /** The token program's `transfer`: debit `source`, then credit `destination`. */
  function TokenTransfer(tokens: map<Pubkey, TokenAccount>, source: Pubkey, destination: Pubkey,
                         amount: nat): (r: map<Pubkey, TokenAccount>)
    requires source in tokens && destination in tokens && tokens[source].amount >= amount
    ensures r.Keys == tokens.Keys
    ensures source != destination ==>
      && r[source] == tokens[source].(amount := tokens[source].amount - amount)
      && r[destination] == tokens[destination].(amount := tokens[destination].amount + amount)
    ensures source == destination ==> r[source] == tokens[source]
    ensures forall k :: k in tokens && k != source && k != destination ==> r[k] == tokens[k]
    ensures Supply(r) == Supply(tokens)
  {
    var debited := tokens[source := tokens[source].(amount := tokens[source].amount - amount)];
    SupplyUpdate(tokens, source, debited[source]);
    SupplyUpdate(debited, destination, debited[destination].(amount := debited[destination].amount + amount));
    debited[destination := debited[destination].(amount := debited[destination].amount + amount)]
  }

  /** The token program's `set_authority` for the account owner. */
  function SetOwner(tokens: map<Pubkey, TokenAccount>, account: Pubkey, owner: Pubkey): (r: map<Pubkey, TokenAccount>)
    requires account in tokens
    ensures r.Keys == tokens.Keys
    ensures r[account].owner == owner && r[account].mint == tokens[account].mint
    ensures r[account].amount == tokens[account].amount
    ensures forall k :: k in tokens && k != account ==> r[k] == tokens[k]
    ensures Supply(r) == Supply(tokens)
  {
    SupplyUpdate(tokens, account, tokens[account].(owner := owner));
    tokens[account := tokens[account].(owner := owner)]
  }

  /** The system program's `transfer` of lamports. */
  function SystemTransfer(lamports: map<Pubkey, nat>, from: Pubkey, to: Pubkey, amount: nat): (r: map<Pubkey, nat>)
    requires Balance(lamports, from) >= amount
    ensures forall k ::
      Balance(r, k) == Balance(lamports, k) - (if k == from then amount else 0) + (if k == to then amount else 0)
    ensures Total(r) == Total(lamports)
  {
    var paid := lamports[from := Balance(lamports, from) - amount];
    TotalUpdate(lamports, from, Balance(lamports, from) - amount);
    TotalUpdate(paid, to, Balance(paid, to) + amount);
    paid[to := Balance(paid, to) + amount]
  }

  /** Anchor's `close`: all lamports of `account` go to `destination`. */
  function Close(lamports: map<Pubkey, nat>, account: Pubkey, destination: Pubkey): (r: map<Pubkey, nat>)
    ensures Balance(r, account) == 0
    ensures forall k :: k != account ==>
      Balance(r, k) == Balance(lamports, k) + (if k == destination then Balance(lamports, account) else 0)
  {
    var credited := lamports[destination := Balance(lamports, destination) + Balance(lamports, account)];
    credited[account := 0]
  }

  // ---------------------------------------------------------------------
  // Totals of lamports and of token amounts

  ghost function Total(m: map<Pubkey, nat>): nat
    decreases |m|
  {
    if m == map[] then 0
    else
      var k :| k in m;
      assert (m - {k}).Keys == m.Keys - {k};
      m[k] + Total(m - {k})
  }

  /** Token amounts held in all token accounts together. */
  ghost function Supply(tokens: map<Pubkey, TokenAccount>): nat
  {
    Total(Amounts(tokens))
  }

  ghost function Amounts(tokens: map<Pubkey, TokenAccount>): map<Pubkey, nat>
  {
    map k | k in tokens :: tokens[k].amount
  }

  lemma {:induction false} TotalRemove(m: map<Pubkey, nat>, k: Pubkey)
    requires k in m
    ensures Total(m) == m[k] + Total(m - {k})
    decreases |m|
  {
    var j :| j in m && Total(m) == m[j] + Total(m - {j});
    if j != k {
      assert (m - {j}).Keys == m.Keys - {j};
      assert (m - {k}).Keys == m.Keys - {k};
      TotalRemove(m - {j}, k);
      TotalRemove(m - {k}, j);
      assert m - {j} - {k} == m - {k} - {j};
    }
  }

  /** Overwriting one balance changes the total by the difference. */
  lemma {:induction false} TotalUpdate(m: map<Pubkey, nat>, k: Pubkey, v: nat)
    ensures Total(m[k := v]) + Balance(m, k) == Total(m) + v
  {
    TotalRemove(m[k := v], k);
    assert m[k := v] - {k} == m - {k};
    if k in m {
      TotalRemove(m, k);
    } else {
      assert m - {k} == m;
    }
  }

  /** Changing one token account changes the supply by the difference of its amounts. */
  lemma SupplyUpdate(tokens: map<Pubkey, TokenAccount>, k: Pubkey, a: TokenAccount)
    requires k in tokens
    ensures Supply(tokens[k := a]) + tokens[k].amount == Supply(tokens) + a.amount
  {
    assert Amounts(tokens[k := a]) == Amounts(tokens)[k := a.amount];
    TotalUpdate(Amounts(tokens), k, a.amount);
  }

  /** Closing an account into another one keeps the lamport total. */
  lemma CloseConserves(lamports: map<Pubkey, nat>, account: Pubkey, destination: Pubkey)
    requires account != destination
    ensures Total(Close(lamports, account, destination)) == Total(lamports)
    ensures Balance(Close(lamports, account, destination), account) == 0
  {
    var credited := lamports[destination := Balance(lamports, destination) + Balance(lamports, account)];
    TotalUpdate(lamports, destination, Balance(lamports, destination) + Balance(lamports, account));
    TotalUpdate(credited, account, 0);
  }

  // ---------------------------------------------------------------------
  // initialize_escrow

  /** The first check `initialize_escrow` fails; None when all pass. The order
      is that of Anchor's generated validation: the typed accounts are
      deserialized in declaration order (the `Signer`, the token account, the
      two `Program` ids), then the `init` account is created, then the
      `constraint =` checks run, and last the handler's `set_authority`. */
  function InitializeEscrowError(rt: Runtime, c: Chain, signers: set<Pubkey>,
                                 a: InitializeEscrowAccounts, initializerAmount: nat): (e: Option<ProgramError>)
    // no error exactly when every constraint holds
    ensures e.None? <==>
      && a.initializer in signers && a.escrowAccount in signers
      && a.initializerDepositTokenAccount in c.tokens
      && c.tokens[a.initializerDepositTokenAccount].amount >= initializerAmount
      && c.tokens[a.initializerDepositTokenAccount].owner == a.initializer
      && a.escrowAccount != a.initializer && a.escrowAccount !in c.escrows && a.escrowAccount !in c.tokens
      && Balance(c.lamports, a.escrowAccount) == 0 && Balance(c.lamports, a.initializer) >= rt.rent
      && a.systemProgram == SYSTEM_PROGRAM_ID && a.tokenProgram == TOKEN_PROGRAM_ID
    // the initializer's signature is checked first, the deposit's owner last
    ensures a.initializer !in signers ==> e == Some(MissingRequiredSignature)
    ensures e == Some(AccountNotInitialized) ==> a.initializerDepositTokenAccount !in c.tokens
    // a wrong program id is reported before the escrow is created and before any constraint
    ensures && a.initializer in signers && a.initializerDepositTokenAccount in c.tokens
            && (a.systemProgram != SYSTEM_PROGRAM_ID || a.tokenProgram != TOKEN_PROGRAM_ID)
            ==> e == Some(InvalidProgramId)
    ensures e == Some(ConstraintRaw) ==>
      && a.initializerDepositTokenAccount in c.tokens
      && c.tokens[a.initializerDepositTokenAccount].amount < initializerAmount
      && a.escrowAccount in signers && Balance(c.lamports, a.initializer) >= rt.rent
    ensures e == Some(InsufficientLamports) ==> Balance(c.lamports, a.initializer) < rt.rent
    ensures e == Some(OwnerMismatch) ==>
      && a.initializerDepositTokenAccount in c.tokens
      && c.tokens[a.initializerDepositTokenAccount].owner != a.initializer
      && a.systemProgram == SYSTEM_PROGRAM_ID && a.tokenProgram == TOKEN_PROGRAM_ID
  {
    var deposit := a.initializerDepositTokenAccount;
    if a.initializer !in signers then Some(MissingRequiredSignature)
    else if deposit !in c.tokens then Some(AccountNotInitialized)
    else if a.systemProgram != SYSTEM_PROGRAM_ID || a.tokenProgram != TOKEN_PROGRAM_ID then Some(InvalidProgramId)
    else if a.escrowAccount !in signers then Some(MissingRequiredSignature)
    else if a.escrowAccount == a.initializer || a.escrowAccount in c.escrows
         || a.escrowAccount in c.tokens || Balance(c.lamports, a.escrowAccount) != 0 then Some(AccountInUse)
    else if Balance(c.lamports, a.initializer) < rt.rent then Some(InsufficientLamports)
    else if c.tokens[deposit].amount < initializerAmount then Some(ConstraintRaw)
    else if c.tokens[deposit].owner != a.initializer then Some(OwnerMismatch)
    else None
  }

  function InitializeEscrowStep(rt: Runtime, c: Chain, signers: set<Pubkey>, a: InitializeEscrowAccounts,
                                initializerAmount: nat, takerAmount: nat): (r: Result<Chain>)
    ensures r.Ok? <==> InitializeEscrowError(rt, c, signers, a, initializerAmount).None?
    ensures r.Err? ==> r.error == InitializeEscrowError(rt, c, signers, a, initializerAmount).value
    // the deal is stored exactly as given
    ensures r.Ok? ==> r.value.escrows == c.escrows[a.escrowAccount := EscrowAccount(
              a.initializer, a.initializerDepositTokenAccount, a.initializerReceiveWalletAccount,
              initializerAmount, takerAmount)]
    // rejected unless the deposit holds at least initializer_amount
    ensures r.Ok? ==>
      && a.initializerDepositTokenAccount in c.tokens
      && c.tokens[a.initializerDepositTokenAccount].amount >= initializerAmount
    // the deposit now belongs to the PDA; mint and balance are unchanged
    ensures r.Ok? ==> r.value.tokens == c.tokens[a.initializerDepositTokenAccount :=
              c.tokens[a.initializerDepositTokenAccount].(owner := Pda(rt))]
    ensures r.Ok? ==> Supply(r.value.tokens) == Supply(c.tokens)
    // the initializer pays the escrow account's rent; lamports are conserved
    ensures r.Ok? ==>
      && Balance(r.value.lamports, a.escrowAccount) == rt.rent
      && Balance(r.value.lamports, a.initializer) == Balance(c.lamports, a.initializer) - rt.rent
      && Total(r.value.lamports) == Total(c.lamports)
    ensures r.Ok? ==> forall k :: k != a.initializer && k != a.escrowAccount ==>
      Balance(r.value.lamports, k) == Balance(c.lamports, k)
  {
    match InitializeEscrowError(rt, c, signers, a, initializerAmount)
    case Some(e) => Err(e)
    case None =>
      var deposit := a.initializerDepositTokenAccount;
      var paid := c.lamports[a.initializer := Balance(c.lamports, a.initializer) - rt.rent];
      var funded := paid[a.escrowAccount := rt.rent];
      TotalUpdate(c.lamports, a.initializer, Balance(c.lamports, a.initializer) - rt.rent);
      TotalUpdate(paid, a.escrowAccount, rt.rent);
      SupplyUpdate(c.tokens, deposit, c.tokens[deposit].(owner := Pda(rt)));
      var deal := EscrowAccount(a.initializer, deposit, a.initializerReceiveWalletAccount,
                                initializerAmount, takerAmount);
      Ok(Chain(c.tokens[deposit := c.tokens[deposit].(owner := Pda(rt))],
               funded,
               c.escrows[a.escrowAccount := deal]))
  }

  // ---------------------------------------------------------------------
  // exchange

  /** The first check `exchange` fails: the typed accounts and the program ids
      in declaration order, then the `signer` and `constraint =` checks, then
      the handler's transfers and close. */
  function ExchangeError(rt: Runtime, c: Chain, signers: set<Pubkey>, a: ExchangeAccounts): (e: Option<ProgramError>)
    // no error exactly when every constraint holds
    ensures e.None? <==>
      && a.taker in signers
      && a.takerReceiveTokenAccount in c.tokens && a.pdaDepositTokenAccount in c.tokens
      && a.escrowAccount in c.escrows
      && var stored := c.escrows[a.escrowAccount];
      && stored.takerAmount <= Balance(c.lamports, a.taker)
      && stored.initializerDepositTokenAccount == a.pdaDepositTokenAccount
      && stored.initializerReceiveWalletAccount == a.initializerReceiveWalletAccount
      && stored.initializerKey == a.initializerMainAccount
      && a.tokenProgram == TOKEN_PROGRAM_ID && a.systemProgram == SYSTEM_PROGRAM_ID
      && a.pdaAccount == Pda(rt)
      && c.tokens[a.pdaDepositTokenAccount].owner == a.pdaAccount
      && c.tokens[a.pdaDepositTokenAccount].mint == c.tokens[a.takerReceiveTokenAccount].mint
      && c.tokens[a.pdaDepositTokenAccount].amount >= stored.initializerAmount
      && a.initializerMainAccount != a.escrowAccount
    // an escrow that is gone is reported before anything else, the taker's signature only once the
    // accounts and programs are in place
    ensures a.escrowAccount !in c.escrows ==> e == Some(AccountNotInitialized)
    // a wrong program id is reported before the signature and the constraints
    ensures && a.takerReceiveTokenAccount in c.tokens && a.pdaDepositTokenAccount in c.tokens
            && a.escrowAccount in c.escrows
            && (a.tokenProgram != TOKEN_PROGRAM_ID || a.systemProgram != SYSTEM_PROGRAM_ID)
            ==> e == Some(InvalidProgramId)
    ensures && a.takerReceiveTokenAccount in c.tokens && a.pdaDepositTokenAccount in c.tokens
            && a.escrowAccount in c.escrows
            && a.tokenProgram == TOKEN_PROGRAM_ID && a.systemProgram == SYSTEM_PROGRAM_ID
            && a.taker !in signers
            ==> e == Some(MissingRequiredSignature)
    ensures e == Some(MintMismatch) ==>
      && a.pdaDepositTokenAccount in c.tokens && a.takerReceiveTokenAccount in c.tokens
      && c.tokens[a.pdaDepositTokenAccount].mint != c.tokens[a.takerReceiveTokenAccount].mint
    ensures e == Some(InsufficientFunds) ==>
      && a.pdaDepositTokenAccount in c.tokens && a.escrowAccount in c.escrows
      && c.tokens[a.pdaDepositTokenAccount].amount < c.escrows[a.escrowAccount].initializerAmount
  {
    var deposit := a.pdaDepositTokenAccount;
    if a.takerReceiveTokenAccount !in c.tokens || deposit !in c.tokens
       || a.escrowAccount !in c.escrows then Some(AccountNotInitialized)
    else if a.tokenProgram != TOKEN_PROGRAM_ID || a.systemProgram != SYSTEM_PROGRAM_ID then Some(InvalidProgramId)
    else if a.taker !in signers then Some(MissingRequiredSignature)
    else
      var e := c.escrows[a.escrowAccount];
      if e.takerAmount > Balance(c.lamports, a.taker)
         || e.initializerDepositTokenAccount != deposit
         || e.initializerReceiveWalletAccount != a.initializerReceiveWalletAccount
         || e.initializerKey != a.initializerMainAccount then Some(ConstraintRaw)
      else if a.pdaAccount != Pda(rt) then Some(MissingRequiredSignature)
      else if c.tokens[deposit].owner != a.pdaAccount then Some(OwnerMismatch)
      else if c.tokens[deposit].mint != c.tokens[a.takerReceiveTokenAccount].mint then Some(MintMismatch)
      else if c.tokens[deposit].amount < e.initializerAmount then Some(InsufficientFunds)
      else if a.initializerMainAccount == a.escrowAccount then Some(UnbalancedInstruction)
      else None
  }

  /** What a passing `exchange` check guarantees about the accounts. */
  lemma ExchangeChecksPassed(rt: Runtime, c: Chain, signers: set<Pubkey>, a: ExchangeAccounts)
    requires ExchangeError(rt, c, signers, a).None?
    ensures a.pdaDepositTokenAccount in c.tokens && a.takerReceiveTokenAccount in c.tokens
    ensures a.escrowAccount in c.escrows && a.escrowAccount != a.initializerMainAccount
    ensures c.tokens[a.pdaDepositTokenAccount].amount >= c.escrows[a.escrowAccount].initializerAmount
    ensures Balance(c.lamports, a.taker) >= c.escrows[a.escrowAccount].takerAmount
    ensures ExchangeStep(rt, c, signers, a) == Ok(Chain(
              ExchangeTokens(c.tokens, a.pdaDepositTokenAccount, a.takerReceiveTokenAccount,
                             c.escrows[a.escrowAccount].initializerAmount, c.escrows[a.escrowAccount].initializerKey),
              ExchangeLamports(c.lamports, a.taker, a.initializerReceiveWalletAccount,
                               c.escrows[a.escrowAccount].takerAmount, a.escrowAccount, a.initializerMainAccount),
              c.escrows - {a.escrowAccount}))
  {
  }

  /** The token movement of `exchange`: initializer_amount from the deposit to
      the taker's account, then the deposit's owner back to the initializer. */
  function ExchangeTokens(tokens: map<Pubkey, TokenAccount>, deposit: Pubkey, receive: Pubkey,
                          amount: nat, newOwner: Pubkey): (r: map<Pubkey, TokenAccount>)
    requires deposit in tokens && receive in tokens && tokens[deposit].amount >= amount
    ensures r.Keys == tokens.Keys
    ensures r[deposit].owner == newOwner && r[deposit].mint == tokens[deposit].mint
    ensures receive != deposit ==>
      && r[deposit].amount == tokens[deposit].amount - amount
      && r[receive] == tokens[receive].(amount := tokens[receive].amount + amount)
    ensures receive == deposit ==> r[deposit].amount == tokens[deposit].amount
    ensures forall k :: k in tokens && k != deposit && k != receive ==> r[k] == tokens[k]
    ensures Supply(r) == Supply(tokens)
  {
    var credited := TokenTransfer(tokens, deposit, receive, amount);
    SetOwner(credited, deposit, newOwner)
  }

  /** The lamport movement of `exchange`: taker_amount from the taker to the
      initializer's receive wallet, then the escrow's rent to the initializer. */
  function ExchangeLamports(lamports: map<Pubkey, nat>, taker: Pubkey, wallet: Pubkey, amount: nat,
                            escrow: Pubkey, initializer: Pubkey): (r: map<Pubkey, nat>)
    requires Balance(lamports, taker) >= amount
    requires escrow != initializer
    ensures Total(r) == Total(lamports)
    ensures Balance(r, escrow) == 0
    // unless the escrow is itself taker or wallet: the taker pays, the wallet is paid, the
    // initializer gets the escrow's balance, and no other account changes
    ensures taker != escrow && wallet != escrow ==>
      forall k :: k != escrow ==>
        Balance(r, k) == Balance(lamports, k) - (if k == taker then amount else 0)
                         + (if k == wallet then amount else 0)
                         + (if k == initializer then Balance(lamports, escrow) else 0)
  {
    var received := SystemTransfer(lamports, taker, wallet, amount);
    CloseConserves(received, escrow, initializer);
    Close(received, escrow, initializer)
  }

  function ExchangeStep(rt: Runtime, c: Chain, signers: set<Pubkey>, a: ExchangeAccounts): (r: Result<Chain>)
    ensures r.Ok? <==> ExchangeError(rt, c, signers, a).None?
    ensures r.Err? ==> r.error == ExchangeError(rt, c, signers, a).value
    // the stored terms were met: taker lamports, deposit, receive wallet, initializer
    ensures r.Ok? ==>
      && a.escrowAccount in c.escrows
      && c.escrows[a.escrowAccount].takerAmount <= Balance(c.lamports, a.taker)
      && c.escrows[a.escrowAccount].initializerDepositTokenAccount == a.pdaDepositTokenAccount
      && c.escrows[a.escrowAccount].initializerReceiveWalletAccount == a.initializerReceiveWalletAccount
      && c.escrows[a.escrowAccount].initializerKey == a.initializerMainAccount
    // the escrow is closed and no other escrow changes
    ensures r.Ok? ==> r.value.escrows == c.escrows - {a.escrowAccount}
    // exactly initializer_amount tokens move from the deposit to the taker
    ensures r.Ok? && a.takerReceiveTokenAccount != a.pdaDepositTokenAccount ==>
      && a.pdaDepositTokenAccount in r.value.tokens && a.takerReceiveTokenAccount in r.value.tokens
      && r.value.tokens[a.pdaDepositTokenAccount].amount
         == c.tokens[a.pdaDepositTokenAccount].amount - c.escrows[a.escrowAccount].initializerAmount
      && r.value.tokens[a.takerReceiveTokenAccount] == c.tokens[a.takerReceiveTokenAccount].(
           amount := c.tokens[a.takerReceiveTokenAccount].amount + c.escrows[a.escrowAccount].initializerAmount)
    // ownership of the deposit goes back to the initializer
    ensures r.Ok? ==>
      && a.pdaDepositTokenAccount in r.value.tokens
      && r.value.tokens[a.pdaDepositTokenAccount].owner == a.initializerMainAccount
    ensures r.Ok? ==>
      && r.value.tokens.Keys == c.tokens.Keys
      && forall k :: k in c.tokens && k != a.pdaDepositTokenAccount && k != a.takerReceiveTokenAccount
                     ==> r.value.tokens[k] == c.tokens[k]
    // taker_amount lamports go from the taker to the receive wallet, the escrow's lamports go to the
    // initializer, and no other balance changes; this covers a receive wallet that is the initializer
    // (as the client sets it) and a taker that is the initializer (as the program's test does)
    ensures r.Ok? && a.taker != a.escrowAccount && a.initializerReceiveWalletAccount != a.escrowAccount ==>
      forall k :: k != a.escrowAccount ==>
        Balance(r.value.lamports, k)
        == Balance(c.lamports, k)
           - (if k == a.taker then c.escrows[a.escrowAccount].takerAmount else 0)
           + (if k == a.initializerReceiveWalletAccount then c.escrows[a.escrowAccount].takerAmount else 0)
           + (if k == a.initializerMainAccount then Balance(c.lamports, a.escrowAccount) else 0)
    // both totals are conserved
    ensures r.Ok? ==> Supply(r.value.tokens) == Supply(c.tokens) && Total(r.value.lamports) == Total(c.lamports)
    ensures r.Ok? ==> Balance(r.value.lamports, a.escrowAccount) == 0
  {
    match ExchangeError(rt, c, signers, a)
    case Some(err) => Err(err)
    case None =>
      var e := c.escrows[a.escrowAccount];
      Ok(Chain(ExchangeTokens(c.tokens, a.pdaDepositTokenAccount, a.takerReceiveTokenAccount,
                              e.initializerAmount, e.initializerKey),
               ExchangeLamports(c.lamports, a.taker, a.initializerReceiveWalletAccount, e.takerAmount,
                                a.escrowAccount, a.initializerMainAccount),
               c.escrows - {a.escrowAccount}))
  }

  // ---------------------------------------------------------------------
  // cancel_escrow

  /** The checks of `cancel_escrow`: the typed accounts and the program id in
      declaration order, then the `constraint =` checks, then the handler's
      `set_authority` and the close. The initializer is a plain account, so no
      signature is asked of it. */
  function CancelEscrowError(rt: Runtime, c: Chain, a: CancelEscrowAccounts): (e: Option<ProgramError>)
    // no error exactly when every constraint holds; no signature is among them
    ensures e.None? <==>
      && a.pdaDepositTokenAccount in c.tokens && a.escrowAccount in c.escrows
      && c.escrows[a.escrowAccount].initializerKey == a.initializer
      && c.escrows[a.escrowAccount].initializerDepositTokenAccount == a.pdaDepositTokenAccount
      && a.tokenProgram == TOKEN_PROGRAM_ID && a.pdaAccount == Pda(rt)
      && c.tokens[a.pdaDepositTokenAccount].owner == a.pdaAccount
      && a.initializer != a.escrowAccount
    // an escrow that is gone is reported before any other check
    ensures a.escrowAccount !in c.escrows ==> e == Some(AccountNotInitialized)
    // a wrong token program is reported before the constraints
    ensures && a.pdaDepositTokenAccount in c.tokens && a.escrowAccount in c.escrows
            && a.tokenProgram != TOKEN_PROGRAM_ID
            ==> e == Some(InvalidProgramId)
    ensures e == Some(ConstraintRaw) ==>
      || c.escrows[a.escrowAccount].initializerKey != a.initializer
      || c.escrows[a.escrowAccount].initializerDepositTokenAccount != a.pdaDepositTokenAccount
    ensures e == Some(OwnerMismatch) ==>
      a.pdaDepositTokenAccount in c.tokens && c.tokens[a.pdaDepositTokenAccount].owner != a.pdaAccount
  {
    var deposit := a.pdaDepositTokenAccount;
    if deposit !in c.tokens || a.escrowAccount !in c.escrows then Some(AccountNotInitialized)
    else
      var e := c.escrows[a.escrowAccount];
      if a.tokenProgram != TOKEN_PROGRAM_ID then Some(InvalidProgramId)
      else if e.initializerKey != a.initializer || e.initializerDepositTokenAccount != deposit then Some(ConstraintRaw)
      else if a.pdaAccount != Pda(rt) then Some(MissingRequiredSignature)
      else if c.tokens[deposit].owner != a.pdaAccount then Some(OwnerMismatch)
      else if a.initializer == a.escrowAccount then Some(UnbalancedInstruction)
      else None
  }

  function CancelEscrowStep(rt: Runtime, c: Chain, a: CancelEscrowAccounts): (r: Result<Chain>)
    ensures r.Ok? <==> CancelEscrowError(rt, c, a).None?
    ensures r.Err? ==> r.error == CancelEscrowError(rt, c, a).value
    ensures r.Ok? ==>
      && a.escrowAccount in c.escrows
      && c.escrows[a.escrowAccount].initializerKey == a.initializer
      && c.escrows[a.escrowAccount].initializerDepositTokenAccount == a.pdaDepositTokenAccount
    // the deposit goes back to the initializer with its balance and mint
    ensures r.Ok? ==> r.value.tokens == c.tokens[a.pdaDepositTokenAccount :=
              c.tokens[a.pdaDepositTokenAccount].(owner := a.initializer)]
    // the escrow is closed and its rent returned to the initializer
    ensures r.Ok? ==> r.value.escrows == c.escrows - {a.escrowAccount}
    ensures r.Ok? ==>
      && Balance(r.value.lamports, a.initializer) == Balance(c.lamports, a.initializer) + Balance(c.lamports, a.escrowAccount)
      && Balance(r.value.lamports, a.escrowAccount) == 0
    ensures r.Ok? ==> Supply(r.value.tokens) == Supply(c.tokens) && Total(r.value.lamports) == Total(c.lamports)
    ensures r.Ok? ==> forall k :: k != a.initializer && k != a.escrowAccount ==>
      Balance(r.value.lamports, k) == Balance(c.lamports, k)
  {
    match CancelEscrowError(rt, c, a)
    case Some(err) => Err(err)
    case None =>
      var deposit := a.pdaDepositTokenAccount;
      var e := c.escrows[a.escrowAccount];
      SupplyUpdate(c.tokens, deposit, c.tokens[deposit].(owner := e.initializerKey));
      CloseConserves(c.lamports, a.escrowAccount, a.initializer);
      Ok(Chain(c.tokens[deposit := c.tokens[deposit].(owner := e.initializerKey)],
               Close(c.lamports, a.escrowAccount, e.initializerKey),
               c.escrows - {a.escrowAccount}))
  }

  // ---------------------------------------------------------------------
  // Properties across instructions

  /** `EscrowAccount::LEN` is 112 bytes and `init` allocates 120. */
  lemma EscrowAccountSize()
    ensures LEN == 112 && SPACE == 8 + LEN == 120
  {
  }

  /** After `exchange` the escrow is gone: neither a second `exchange` nor a
      `cancel_escrow` naming it can succeed. */
  lemma ExchangeConsumesEscrow(rt: Runtime, c: Chain, signers: set<Pubkey>, a: ExchangeAccounts,
                               signers': set<Pubkey>, again: ExchangeAccounts, cancel: CancelEscrowAccounts)
    requires ExchangeStep(rt, c, signers, a).Ok?
    requires again.escrowAccount == a.escrowAccount && cancel.escrowAccount == a.escrowAccount
    ensures ExchangeStep(rt, ExchangeStep(rt, c, signers, a).value, signers', again).Err?
    ensures CancelEscrowStep(rt, ExchangeStep(rt, c, signers, a).value, cancel) == Err(AccountNotInitialized)
  {
  }

  /** After `cancel_escrow` the escrow is gone: neither `exchange` nor a
      second `cancel_escrow` naming it can succeed. */
  lemma CancelConsumesEscrow(rt: Runtime, c: Chain, a: CancelEscrowAccounts,
                             signers: set<Pubkey>, exchange: ExchangeAccounts, again: CancelEscrowAccounts)
    requires CancelEscrowStep(rt, c, a).Ok?
    requires exchange.escrowAccount == a.escrowAccount && again.escrowAccount == a.escrowAccount
    ensures ExchangeStep(rt, CancelEscrowStep(rt, c, a).value, signers, exchange).Err?
    ensures CancelEscrowStep(rt, CancelEscrowStep(rt, c, a).value, again) == Err(AccountNotInitialized)
  {
  }

  /** `cancel_escrow` asks no signature of the initializer: whoever submits
      it, with the stored initializer key and deposit named, it succeeds. */
  lemma CancelNeedsNoInitializerSignature(rt: Runtime, c: Chain, init: InitializeEscrowAccounts,
                                          signers: set<Pubkey>, initializerAmount: nat, takerAmount: nat,
                                          cancel: CancelEscrowAccounts)
    requires InitializeEscrowStep(rt, c, signers, init, initializerAmount, takerAmount).Ok?
    requires cancel == CancelEscrowAccounts(init.initializer, init.initializerDepositTokenAccount,
                                            Pda(rt), init.escrowAccount, TOKEN_PROGRAM_ID)
    ensures CancelEscrowStep(rt, InitializeEscrowStep(rt, c, signers, init, initializerAmount, takerAmount).value, cancel).Ok?
  {
    var c1 := InitializeEscrowStep(rt, c, signers, init, initializerAmount, takerAmount).value;
    assert c1.tokens[init.initializerDepositTokenAccount].owner == Pda(rt);
    assert c1.escrows[init.escrowAccount].initializerKey == init.initializer;
  }

  // The scenario of the program's test suite: 500 tokens deposited for one
  // SOL by the provider wallet, which is also the taker.

  function TestRuntime(d: Derivations): Runtime
  {
    Runtime(ESCROW_PROGRAM_ID, d, 2_000_000)
  }

  ghost predicate TestPdaIsFresh(d: Derivations)
  {
    d.pda(ESCROW_PROGRAM_ID, ESCROW_PDA_SEED) !in {"provider", "initializerA", "takerA", "escrow1", "escrow2"}
  }

  function TestGenesis(): Chain
  {
    Chain(map["initializerA" := TokenAccount("provider", "mintA", 500),
              "takerA" := TokenAccount("provider", "mintA", 0)],
          map["provider" := 10 * LAMPORTS_PER_SOL, "initializer" := 10 * LAMPORTS_PER_SOL],
          map[])
  }

  function TestInitialize(escrow: Pubkey): InitializeEscrowAccounts
  {
    InitializeEscrowAccounts("provider", "initializerA", "initializer", escrow, SYSTEM_PROGRAM_ID, TOKEN_PROGRAM_ID)
  }

  /** "Initialize escrow": the PDA owns the deposit and the terms are stored as given. */
  lemma TestInitializeEscrow(d: Derivations)
    requires TestPdaIsFresh(d)
    ensures var r := InitializeEscrowStep(TestRuntime(d), TestGenesis(), {"provider", "escrow1"},
                                          TestInitialize("escrow1"), 500, LAMPORTS_PER_SOL);
      && r.Ok?
      && r.value.tokens["initializerA"].owner == Pda(TestRuntime(d))
      && r.value.escrows["escrow1"] == EscrowAccount("provider", "initializerA", "initializer", 500, LAMPORTS_PER_SOL)
  {
  }

  /** "Exchange escrow": the taker's account holds the 500 tokens and the deposit none. */
  lemma TestExchangeEscrow(d: Derivations, c: Chain)
    requires TestPdaIsFresh(d)
    requires InitializeEscrowStep(TestRuntime(d), TestGenesis(), {"provider", "escrow1"},
                                  TestInitialize("escrow1"), 500, LAMPORTS_PER_SOL) == Ok(c)
    ensures var r := ExchangeStep(TestRuntime(d), c, {"provider"},
                                  ExchangeAccounts("provider", "takerA", "initializerA", "initializer", "provider",
                                                   "escrow1", Pda(TestRuntime(d)), TOKEN_PROGRAM_ID, SYSTEM_PROGRAM_ID));
      && r.Ok?
      && r.value.tokens["takerA"] == TokenAccount("provider", "mintA", 500)
      && r.value.tokens["initializerA"] == TokenAccount("provider", "mintA", 0)
  {
    TestInitializeEscrow(d);
  }

  /** The token program's `mintTo`: `amount` new tokens in `account`. */
  function MintTo(c: Chain, account: Pubkey, amount: nat): (r: Chain)
    requires account in c.tokens
    ensures r.tokens == c.tokens[account := c.tokens[account].(amount := c.tokens[account].amount + amount)]
    ensures r.lamports == c.lamports && r.escrows == c.escrows
  {
    c.(tokens := c.tokens[account := c.tokens[account].(amount := c.tokens[account].amount + amount)])
  }

  /** "Initialize escrow and cancel escrow": after the exchange, the deposit is
      refilled with 500 tokens and put in a second escrow; canceling gives the
      account back to the provider with all 500 tokens. */
  lemma TestCancelEscrow(d: Derivations, c1: Chain, c2: Chain)
    requires TestPdaIsFresh(d)
    requires InitializeEscrowStep(TestRuntime(d), TestGenesis(), {"provider", "escrow1"},
                                  TestInitialize("escrow1"), 500, LAMPORTS_PER_SOL) == Ok(c1)
    requires ExchangeStep(TestRuntime(d), c1, {"provider"},
                          ExchangeAccounts("provider", "takerA", "initializerA", "initializer", "provider",
                                           "escrow1", Pda(TestRuntime(d)), TOKEN_PROGRAM_ID, SYSTEM_PROGRAM_ID)) == Ok(c2)
    ensures "initializerA" in c2.tokens
    ensures var init := InitializeEscrowStep(TestRuntime(d), MintTo(c2, "initializerA", 500), {"provider", "escrow2"},
                                             TestInitialize("escrow2"), 500, LAMPORTS_PER_SOL);
      && init.Ok?
      && init.value.tokens["initializerA"].owner == Pda(TestRuntime(d))
      && var r := CancelEscrowStep(TestRuntime(d), init.value,
                                   CancelEscrowAccounts("provider", "initializerA", Pda(TestRuntime(d)),
                                                        "escrow2", TOKEN_PROGRAM_ID));
      && r.Ok?
      && r.value.tokens["initializerA"] == TokenAccount("provider", "mintA", 500)
      && "escrow2" !in r.value.escrows
  {
    TestExchangeEscrow(d, c1);
    var rt := TestRuntime(d);
    assert c1.tokens.Keys == c2.tokens.Keys == {"initializerA", "takerA"};
    assert Balance(c1.lamports, "escrow2") == 0 && Balance(c2.lamports, "escrow2") == 0;
    assert Balance(c1.lamports, "provider") == 10 * LAMPORTS_PER_SOL - rt.rent;
    assert Balance(c2.lamports, "provider") == Balance(c1.lamports, "provider") - LAMPORTS_PER_SOL + rt.rent;
    TestSecondDeal(d, MintTo(c2, "initializerA", 500));
  }

  /** The second deal of that test, on any chain where the deposit holds the
      refilled 500 tokens and "escrow2" is unused. */
  lemma TestSecondDeal(d: Derivations, c: Chain)
    requires TestPdaIsFresh(d)
    requires "initializerA" in c.tokens && c.tokens["initializerA"] == TokenAccount("provider", "mintA", 500)
    requires "escrow2" !in c.tokens && "escrow2" !in c.escrows
    requires Balance(c.lamports, "provider") >= 2_000_000 && Balance(c.lamports, "escrow2") == 0
    ensures var init := InitializeEscrowStep(TestRuntime(d), c, {"provider", "escrow2"},
                                             TestInitialize("escrow2"), 500, LAMPORTS_PER_SOL);
      && init.Ok?
      && init.value.tokens["initializerA"].owner == Pda(TestRuntime(d))
      && var r := CancelEscrowStep(TestRuntime(d), init.value,
                                   CancelEscrowAccounts("provider", "initializerA", Pda(TestRuntime(d)),
                                                        "escrow2", TOKEN_PROGRAM_ID));
      && r.Ok?
      && r.value.tokens["initializerA"] == TokenAccount("provider", "mintA", 500)
      && "escrow2" !in r.value.escrows
  {
  }

  // ---------------------------------------------------------------------
  // The ledger, updated in place by the three instructions

  class Ledger {
    const runtime: Runtime
    var tokens: map<Pubkey, TokenAccount>
    var lamports: map<Pubkey, nat>
    var escrows: map<Pubkey, EscrowAccount>

    function State(): Chain
      reads this
    {
      Chain(tokens, lamports, escrows)
    }

    constructor (runtime: Runtime, genesis: Chain)
      ensures this.runtime == runtime && State() == genesis
    {
      this.runtime := runtime;
      tokens, lamports, escrows := genesis.tokens, genesis.lamports, genesis.escrows;
    }

    /** `initialize_escrow`: `init` funds a zeroed escrow account, the handler
        fills in its fields, then hands the deposit to the PDA. */
    method InitializeEscrow(signers: set<Pubkey>, a: InitializeEscrowAccounts,
                            initializerAmount: nat, takerAmount: nat) returns (r: Result<()>)
      modifies this
      ensures var step := InitializeEscrowStep(runtime, old(State()), signers, a, initializerAmount, takerAmount);
        && (step.Ok? ==> r == Ok(()) && State() == step.value)
        && (step.Err? ==> r == Err(step.error) && State() == old(State()))
    {
      var failure := InitializeEscrowError(runtime, State(), signers, a, initializerAmount);
      if failure.Some? {
        return Err(failure.value);
      }
      lamports := lamports[a.initializer := Balance(lamports, a.initializer) - runtime.rent];
      lamports := lamports[a.escrowAccount := runtime.rent];
      escrows := escrows[a.escrowAccount := EscrowAccount("", "", "", 0, 0)];
      var deal := escrows[a.escrowAccount];
      deal := deal.(initializerKey := a.initializer);
      deal := deal.(initializerDepositTokenAccount := a.initializerDepositTokenAccount);
      deal := deal.(initializerReceiveWalletAccount := a.initializerReceiveWalletAccount);
      deal := deal.(initializerAmount := initializerAmount);
      deal := deal.(takerAmount := takerAmount);
      escrows := escrows[a.escrowAccount := deal];
      var pda := runtime.derive.pda(runtime.programId, ESCROW_PDA_SEED);
      var deposit := tokens[a.initializerDepositTokenAccount];
      tokens := tokens[a.initializerDepositTokenAccount := deposit.(owner := pda)];
      r := Ok(());
    }

    /** `exchange`: token transfer to the taker, lamport transfer to the
        initializer, ownership back to the initializer, then `close`. */
    method Exchange(signers: set<Pubkey>, a: ExchangeAccounts) returns (r: Result<()>)
      modifies this
      ensures var step := ExchangeStep(runtime, old(State()), signers, a);
        && (step.Ok? ==> r == Ok(()) && State() == step.value)
        && (step.Err? ==> r == Err(step.error) && State() == old(State()))
    {
      var failure := ExchangeError(runtime, State(), signers, a);
      if failure.Some? {
        return Err(failure.value);
      }
      ghost var before := State();
      ExchangeChecksPassed(runtime, before, signers, a);
      var deal := escrows[a.escrowAccount];
      tokens := TokenTransfer(tokens, a.pdaDepositTokenAccount, a.takerReceiveTokenAccount, deal.initializerAmount);
      lamports := SystemTransfer(lamports, a.taker, a.initializerReceiveWalletAccount, deal.takerAmount);
      tokens := SetOwner(tokens, a.pdaDepositTokenAccount, deal.initializerKey);
      lamports := Close(lamports, a.escrowAccount, a.initializerMainAccount);
      escrows := escrows - {a.escrowAccount};
      r := Ok(());
    }

    /** `cancel_escrow`: ownership back to the initializer, then `close`. */
    method CancelEscrow(a: CancelEscrowAccounts) returns (r: Result<()>)
      modifies this
      ensures var step := CancelEscrowStep(runtime, old(State()), a);
        && (step.Ok? ==> r == Ok(()) && State() == step.value)
        && (step.Err? ==> r == Err(step.error) && State() == old(State()))
    {
      var failure := CancelEscrowError(runtime, State(), a);
      if failure.Some? {
        return Err(failure.value);
      }
      var deal := escrows[a.escrowAccount];
      tokens := SetOwner(tokens, a.pdaDepositTokenAccount, deal.initializerKey);
      lamports := Close(lamports, a.escrowAccount, a.initializer);
      escrows := escrows - {a.escrowAccount};
      r := Ok(());
    }
  }
}
