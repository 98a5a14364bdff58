/** Builders of the instructions the client puts into transactions: SPL
    token and system program instructions, and a hand-built instruction for
    an escrow program with an explicit key list. Instruction data that the
    libraries serialize is kept as the values it is built from. */
module EscrowInstructions {
  import opened Common

  /** One entry of an instruction's key list. */
  datatype AccountMeta = AccountMeta(pubkey: Pubkey, isSigner: bool, isWritable: bool)

  /** The Borsh payload `InitEscrowdata(amount, fee)`, as its two fields in order. */
  datatype InitEscrowData = InitEscrowData(amount: int, fee: int)

  datatype Instruction =
      /** `Token.createInitAccountInstruction(programId, mint, account, owner)` */
    | InitializeAccount(programId: Pubkey, mint: Pubkey, account: Pubkey, owner: Pubkey)
      /** `Token.createTransferInstruction(programId, source, destination, owner, [], amount)` */
    | Transfer(programId: Pubkey, source: Pubkey, destination: Pubkey, owner: Pubkey, amount: int)
      /** `SystemProgram.createAccount(...)`: the new account is assigned to `programId`. */
    | CreateAccount(fromPubkey: Pubkey, newAccountPubkey: Pubkey, lamports: nat, space: nat, programId: Pubkey)
      /** `Token.createAssociatedTokenAccountInstruction(...)` */
    | CreateAssociatedTokenAccount(associatedProgramId: Pubkey, programId: Pubkey, mint: Pubkey,
                                   associatedAccount: Pubkey, owner: Pubkey, payer: Pubkey)
      /** `Token.createCloseAccountInstruction(programId, account, destination, owner, [])` */
    | CloseAccount(programId: Pubkey, account: Pubkey, destination: Pubkey, owner: Pubkey)
      /** A `TransactionInstruction` built from its parts. */
    | Custom(programId: Pubkey, keys: seq<AccountMeta>, data: InitEscrowData)

  /** `initAccountInstruction`: initialize the temporary token account for
      `mint` under the payer, then fill it from the payer's token account. */
  function InitAccountInstruction(tempTokenAccount: Pubkey, mint: Pubkey, mintTokenAccount: Pubkey,
                                  payer: Pubkey, totalAmount: int): (r: seq<Instruction>)
    ensures |r| == 2 && r[0].InitializeAccount? && r[1].Transfer?
    // both go to the token program; the transfer fills the account the first one initializes
    ensures r[0].programId == r[1].programId == TOKEN_PROGRAM_ID
    ensures r[1].destination == r[0].account == tempTokenAccount && r[0].mint == mint
    // the payer owns the new account and authorizes the transfer of exactly totalAmount
    ensures r[0].owner == r[1].owner == payer
    ensures r[1].source == mintTokenAccount && r[1].amount == totalAmount
  {
    [InitializeAccount(TOKEN_PROGRAM_ID, mint, tempTokenAccount, payer),
     Transfer(TOKEN_PROGRAM_ID, mintTokenAccount, tempTokenAccount, payer, totalAmount)]
  }

  /** `createAccountInstruction`: a rent-exempt account of token-account size,
      assigned to the token program. The rent-exempt balance is asked of the
      network and is a parameter here. */
  function CreateAccountInstruction(tokenAccount: Pubkey, payer: Pubkey, rentExemptBalance: nat): (r: Instruction)
    ensures r.CreateAccount? && r.newAccountPubkey == tokenAccount && r.fromPubkey == payer
    ensures r.space == TOKEN_ACCOUNT_SPAN && r.programId == TOKEN_PROGRAM_ID
    ensures r.lamports == rentExemptBalance
  {
    CreateAccount(payer, tokenAccount, rentExemptBalance, TOKEN_ACCOUNT_SPAN, TOKEN_PROGRAM_ID)
  }

  /** The key list of `createInitEscrowInstruction`. */
  function InitEscrowKeys(initializer: Pubkey, tempTokenAccount: Pubkey, receiveTokenAccount: Pubkey,
                          escrowAccount: Pubkey): (keys: seq<AccountMeta>)
    ensures |keys| == 6
    ensures keys[0] == AccountMeta(initializer, true, false)
    ensures keys[4].pubkey == SYSVAR_RENT_PUBKEY && keys[5].pubkey == TOKEN_PROGRAM_ID
  {
    [AccountMeta(initializer, true, false),
     AccountMeta(tempTokenAccount, false, true),
     AccountMeta(receiveTokenAccount, false, false),
     AccountMeta(escrowAccount, false, true),
     AccountMeta(SYSVAR_RENT_PUBKEY, false, false),
     AccountMeta(TOKEN_PROGRAM_ID, false, false)]
  }

  function CreateInitEscrowInstruction(initializer: Pubkey, tempTokenAccount: Pubkey, receiveTokenAccount: Pubkey,
                                       escrowAccount: Pubkey, escrowProgramId: Pubkey,
                                       amount: int, fee: int): (r: Instruction)
    ensures r.Custom? && r.programId == escrowProgramId
    ensures r.keys == InitEscrowKeys(initializer, tempTokenAccount, receiveTokenAccount, escrowAccount)
    ensures r.data.amount == amount && r.data.fee == fee
  {
    Custom(escrowProgramId,
           InitEscrowKeys(initializer, tempTokenAccount, receiveTokenAccount, escrowAccount),
           InitEscrowData(amount, fee))
  }

  function Pubkeys(keys: seq<AccountMeta>): (r: seq<Pubkey>)
    ensures |r| == |keys| && forall i :: 0 <= i < |keys| ==> r[i] == keys[i].pubkey
  {
    if keys == [] then [] else [keys[0].pubkey] + Pubkeys(keys[1..])
  }

  /** The six keys, in order: initializer, temp, receive, escrow, rent sysvar, token program. */
  lemma InitEscrowKeyOrder(initializer: Pubkey, temp: Pubkey, receive: Pubkey, escrow: Pubkey)
    ensures Pubkeys(InitEscrowKeys(initializer, temp, receive, escrow))
            == [initializer, temp, receive, escrow, SYSVAR_RENT_PUBKEY, TOKEN_PROGRAM_ID]
  {
    var keys := InitEscrowKeys(initializer, temp, receive, escrow);
    var ps := Pubkeys(keys);
    assert ps[0] == keys[0].pubkey && ps[1] == keys[1].pubkey && ps[2] == keys[2].pubkey;
    assert ps[3] == keys[3].pubkey && ps[4] == keys[4].pubkey && ps[5] == keys[5].pubkey;
  }

  /** Only the initializer signs; only the temp account and the escrow account are writable. */
  lemma InitEscrowKeyFlags(initializer: Pubkey, temp: Pubkey, receive: Pubkey, escrow: Pubkey)
    ensures var keys := InitEscrowKeys(initializer, temp, receive, escrow);
      && (forall i :: 0 <= i < |keys| ==> (keys[i].isSigner <==> i == 0))
      && (forall i :: 0 <= i < |keys| ==> (keys[i].isWritable <==> i == 1 || i == 3))
  {
  }

  /** `createAssociatedAccountInstruction`: create `associatedToken` for
      `owner` and `mintToken`, paid by `payer`. */
  function CreateAssociatedAccountInstruction(associatedToken: Pubkey, mintToken: Pubkey,
                                              owner: Pubkey, payer: Pubkey): (r: Instruction)
    ensures r.CreateAssociatedTokenAccount?
    ensures r.associatedProgramId == ASSOCIATED_TOKEN_PROGRAM_ID && r.programId == TOKEN_PROGRAM_ID
    ensures r.associatedAccount == associatedToken && r.mint == mintToken
    ensures r.owner == owner && r.payer == payer
  {
    CreateAssociatedTokenAccount(ASSOCIATED_TOKEN_PROGRAM_ID, TOKEN_PROGRAM_ID, mintToken, associatedToken, owner, payer)
  }

  /** `createWrappedNativeAccountInstructions`: allocate a rent-exempt account
      for the token program, then initialize it as a wrapped-SOL account of
      `owner`. The rent-exempt balance is asked of the network and is a
      parameter here. */
  method CreateWrappedNativeAccountInstructions(nativeAccount: Pubkey, owner: Pubkey, payer: Pubkey,
                                                balanceNeeded: nat) returns (instructions: seq<Instruction>)
    ensures |instructions| == 2
    ensures instructions[0] == CreateAccountInstruction(nativeAccount, payer, balanceNeeded)
    // the account initialized is the one just created, for the native mint and the owner
    ensures instructions[1].InitializeAccount? && instructions[1].programId == instructions[0].programId
    ensures instructions[1].account == instructions[0].newAccountPubkey
    ensures instructions[1].mint == NATIVE_MINT && instructions[1].owner == owner
  {
    instructions := [];
    instructions := instructions + [CreateAccount(payer, nativeAccount, balanceNeeded, TOKEN_ACCOUNT_SPAN, TOKEN_PROGRAM_ID)];
    instructions := instructions + [InitializeAccount(TOKEN_PROGRAM_ID, NATIVE_MINT, nativeAccount, owner)];
  }

  /** `createCloseAccountInstruction`: close `accountToClose` into
      `receiveAmountAccount` under the authority of `owner`. */
  function CreateCloseAccountInstruction(accountToClose: Pubkey, receiveAmountAccount: Pubkey,
                                         owner: Pubkey): (r: Instruction)
    ensures r.CloseAccount? && r.programId == TOKEN_PROGRAM_ID
    ensures r.account == accountToClose && r.destination == receiveAmountAccount && r.owner == owner
  {
    CloseAccount(TOKEN_PROGRAM_ID, accountToClose, receiveAmountAccount, owner)
  }
}
