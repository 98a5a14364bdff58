/** Shared vocabulary: optional values, results, public keys and the
    well-known addresses of the Solana runtime and SPL token programs. */
module Common {

  datatype Option<T> = None | Some(value: T)

  /** An asynchronous step either resolves with a value or throws an error
      carrying a message. Network, wallet and store answers are given to the
      model as values of this type. */
  datatype Outcome<T> = Resolved(value: T) | Thrown(message: string)

  /** A public key, represented by its base58 text: `new PublicKey(s)` and
      `k.toBase58()` are then the identity. */
  type Pubkey = string

  const SYSTEM_PROGRAM_ID: Pubkey := "11111111111111111111111111111111"
  const TOKEN_PROGRAM_ID: Pubkey := "TokenkegQfeZyiNwAJbNbGKPFXCWuBvf9Ss623VQ5DA"
  const ASSOCIATED_TOKEN_PROGRAM_ID: Pubkey := "ATokenGPvbdGVxr1b2hvZbsiqW5xWH25efTNsLJA8knL"
  const NATIVE_MINT: Pubkey := "So11111111111111111111111111111111111111112"
  const SYSVAR_RENT_PUBKEY: Pubkey := "SysvarRent111111111111111111111111111111111"

  /** The escrow program's id as declared in the program. */
  const ESCROW_PROGRAM_ID: Pubkey := "Fg6PaFpoGXkYsidMpWTK6W2BeZ7FEfcYkg476zPFsLnS"

  /** The seed of the program-derived address that holds deposited tokens;
      the program and the client both use this literal. */
  const ESCROW_PDA_SEED: string := "escrow"

  const LAMPORTS_PER_SOL: nat := 1_000_000_000

  /** Size in bytes of an SPL token account (`AccountLayout.span`). */
  const TOKEN_ACCOUNT_SPAN: nat := 165

  /** Address derivations, left uninterpreted: `pda(programId, seed)` is
      `findProgramAddress([seed], programId)` and `ata(owner, mint)` is
      `getAssociatedTokenAddress(mint, owner)`. Being total functions they
      are deterministic: equal inputs give equal addresses. */
  datatype Derivations = Derivations(
    pda: (Pubkey, string) -> Pubkey,
    ata: (Pubkey, Pubkey) -> Pubkey)
}
