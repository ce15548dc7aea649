/** Primitive values shared by every part of the vault program: bytes, unsigned
    64-bit integers, 32-byte public keys, the runtime's error codes and the
    failure-compatible Result/Option wrappers. */
module Base {

  /** An unsigned byte (Rust `u8`). */
  type Byte = b: int | 0 <= b < 256

  /** An unsigned 64-bit integer (Rust `u64`): amounts and lamport balances. */
  type U64 = n: int | 0 <= n < 0x1_0000_0000_0000_0000

  /** A public key: an opaque 32-byte value. */
  type Pubkey = s: seq<Byte> | |s| == 32 witness seq(32, _ => 0)

  /** The subset of the runtime's `ProgramError` codes that the vault program can return. */
  datatype ProgramError =
    | NotEnoughAccountKeys       // next_account_info ran past the end of the account list
    | MissingRequiredSignature
    | InvalidAccountData
    | AccountAlreadyInitialized
    | IncorrectProgramId
    | InvalidAccountOwner
    | IllegalOwner
    | UninitializedAccount
    | BorshIoError               // a Borsh decode or encode failed

  datatype Option<+T> = None | Some(value: T)

  datatype Result<+T, +E> = Success(value: T) | Failure(error: E)
}
