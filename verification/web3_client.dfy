/** What the browser client exchanges with the network: the calls it makes,
    in order, and the answers it gets. Every answer (account lookups,
    sending a transaction, Anchor RPCs, account fetches) is a parameter;
    what the client does with the answers is the model. */
module Web3Client {
  import opened Common
  import opened EscrowInstructions
  import EscrowProgram

  /** An Anchor program handle, as far as the client uses it: its id. */
  datatype Program = Program(programId: Pubkey)

  /** What `getAccountInfo` returns for an existing account: the length of
      its data and the mint that `AccountLayout.decode` reads from it. */
  datatype RawAccount = RawAccount(dataLength: nat, decodedMint: Pubkey)

  datatype ChainCall =
    | GetAccountInfo(account: Pubkey)
      /** A transaction of `instructions` paid by `feePayer`; `signed` says
          whether a wallet signer was handed over with it. */
    | SendTransaction(feePayer: Pubkey, instructions: seq<Instruction>, signed: bool)
    | FetchEscrow(address: Pubkey)
    | InitializeEscrowRpc(initializerAmount: int, takerAmount: int,
                          accounts: EscrowProgram.InitializeEscrowAccounts, signers: seq<Pubkey>)
    | ExchangeRpc(exchangeAccounts: EscrowProgram.ExchangeAccounts)
    | CancelEscrowRpc(cancelAccounts: EscrowProgram.CancelEscrowAccounts)

  /** The answers of the network and the wallet. */
  datatype Network = Network(
    accountInfo: Pubkey -> Outcome<Option<RawAccount>>,
    fetchEscrow: Pubkey -> Outcome<EscrowProgram.EscrowAccount>,
    answer: ChainCall -> Outcome<()>)

  /** The calls an asynchronous client function made, and how it ended. */
  datatype Run<T> = Run(calls: seq<ChainCall>, result: Outcome<T>)

  /** The message of the TypeError thrown by reading a property of
      `undefined`, such as "Cannot read properties of undefined (reading ...)";
      its text is not modelled, so one constant stands for it. */
  const TYPE_ERROR: string := "TypeError"

  /** Prefix `calls` to a run that continues after them. */
  function After<T>(calls: seq<ChainCall>, rest: Run<T>): (r: Run<T>)
    ensures r.calls == calls + rest.calls && r.result == rest.result
  {
    Run(calls + rest.calls, rest.result)
  }

  /** The transaction built by `generateTransaction`, to which instructions are added. */
  class Transaction {
    const feePayer: Pubkey
    var instructions: seq<Instruction>

    constructor (feePayer: Pubkey)
      ensures this.feePayer == feePayer && instructions == []
    {
      this.feePayer := feePayer;
      instructions := [];
    }

    method Add(instruction: Instruction)
      modifies this
      ensures instructions == old(instructions) + [instruction]
    {
      instructions := instructions + [instruction];
    }
  }

  /** `instructions.forEach((instruction) => transaction.add(instruction))`. */
  method AddEach(transaction: Transaction, instructions: seq<Instruction>)
    modifies transaction
    ensures transaction.instructions == old(transaction.instructions) + instructions
  {
    for i := 0 to |instructions|
      invariant transaction.instructions == old(transaction.instructions) + instructions[..i]
    {
      transaction.Add(instructions[i]);
    }
  }

  /** A fresh transaction for `feePayer` holding exactly `instructions`, in order. */
  method AssembleTransaction(feePayer: Pubkey, instructions: seq<Instruction>) returns (transaction: Transaction)
    ensures fresh(transaction)
    ensures transaction.feePayer == feePayer && transaction.instructions == instructions
  {
    transaction := new Transaction(feePayer);
    AddEach(transaction, instructions);
  }
}
