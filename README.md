# Native/token vault program — Dafny model

This project models the on-chain core of a single-authority custodial vault
program. The vault holds either native lamports or one SPL token. The model
covers:

- the 99-byte `VaultState` record and its Borsh encoding;
- the `VaultInstruction` enum and its Borsh wire format;
- the processor that decodes an instruction and dispatches it;
- the four handlers `initialize`, `deposit`, `withdraw` and `close`.

A handler run is modelled as an `Execution`, which records three things:

- the cross-program calls it issued, in order, with their signer seeds;
- the bytes it wrote into the state account, if any;
- whether it returned `Ok` or an error.

The host rolls a failed transaction back, so `Execution.Committed()` is empty
whenever the status is an error. A failed run still records the calls issued
before the error: `initialize` creates the state account before its token or
native checks.

Every handler is modelled twice:

- a pure specification function (`XOutcome`, which delegates to `XWith`
  once the accounts are bound to their roles);
- an imperative method (`X`, then `XRoles`). It takes the accounts off a
  cursor as `next_account_info` does and appends each call to a call log as
  `invoke` and `invoke_signed` do. Its postcondition is that it computes
  exactly the specification function.

`initialize` also serialises the record into a 99-byte buffer, byte by byte,
the way Borsh writes into `&mut [u8]`.

The lemmas state:

- the order of each handler's checks;
- the calls each path issues, including the exact signer seeds;
- the Borsh round trips;
- the checks the code does *not* make (deposit and withdraw never look at the
  state account's owner; whether a deposit passes, and with which error,
  does not depend on the amount);
- cross-handler facts: a written vault cannot be initialized again; only the
  recorded authority can withdraw or close; for native and token vaults
  alike, the holding account created by `initialize` is the one that
  `deposit`, `withdraw` and `close` later accept.

Where the code differs from its own comments or from what a custodial vault
would be expected to do, the model follows the code:

- `initialize` consumes seven accounts; its doc comment in
  `src/instructions/mod.rs` lists six and omits the associated-token program.
- The state and native holding addresses are checked against the canonical
  `find_program_address(["state", authority])` and
  `find_program_address(["vault", state])`. The caller's `state_bump` and
  `vault_bump` are never compared with the canonical bumps. `state_bump`
  signs the state account's creation; `vault_bump` signs the native holding
  account's creation (the token holding account is created by an unsigned
  call). Both go into the record on both paths, and `withdraw` and `close`
  later sign with the recorded values.
- The native holding account is created with the *supplied* system-program
  account as owner, and `initialize` never checks that account.
- A non-empty token holding account at `close` fails with
  `InvalidAccountData`. There is no separate non-zero-balance error.
- A state record that does not decode fails with the Borsh I/O error, not
  `InvalidAccountData`.
- Native `close` sends the holding balance to account 3, the "authority's
  token account", not to the authority. Only the state account's balance goes
  to the authority.
- Token `withdraw` and `close` name the state account as token authority but
  sign with `["vault", state, vault_bump]`, the seeds of the native holding
  address, not the state address's `["state", authority, state_bump]`.
- `deposit` and `withdraw` never check the state account's owner; only `close`
  does. `close` has no mint check because it moves no tokens between two
  accounts.

## Model

| member | source | states |
|---|---|---|
| `State.Space` | src/state/vault_state.rs:14-18 | The record is 32+32+32+1+1+1 = 99 bytes. |
| `State.Encode` | src/state/vault_state.rs:4-12 | The encoding is exactly 99 bytes: authority at 0..32, mint at 32..64, holding account at 64..96, then state bump, vault bump, and the flag as 0/1. |
| `State.Decode` | src/state/vault_state.rs:4-12 | `try_from_slice` succeeds iff the input is exactly 99 bytes with a flag byte of 0 or 1. Whatever it accepts is the encoding of what it returns. Every failure is the Borsh I/O error. |
| `State.DecodeEncode` | src/state/vault_state.rs:4-12 | Decoding an encoded record returns that record. |
| `State.SerializeInto` | src/instructions/initialize.rs:137-138 | Serialising into an account buffer writes the encoding into its first 99 bytes and leaves the rest alone. A shorter buffer gets the prefix that fits and the write fails. |
| `Instructions.FromLe` | src/instructions/mod.rs:32 | A little-endian byte string's value is below 256 to the power of its length. |
| `Instructions.LeBytes` | src/instructions/mod.rs:32 | The fixed-width little-endian encoding of a `u64` has the given width and reads back as the same value. |
| `Instructions.LeBytesFromLe` | src/instructions/mod.rs:32 | Every byte string is the encoding of its own value, so the integer codec is a bijection. |
| `Instructions.Tag` | src/instructions/mod.rs:8-53 | Variant indices follow declaration order: Initialize 0, Deposit 1, Withdraw 2, Close 3. |
| `Instructions.Encode` | src/instructions/mod.rs:8-53 | The encoding starts with the variant index and has the variant's length: 4 bytes, 9 bytes, 9 bytes, or 1 byte. |
| `Instructions.Decode` | src/processor.rs:16 | Whatever `try_from_slice` accepts is the encoding of the instruction it returns. Every failure is the Borsh I/O error. |
| `Instructions.DecodeEncode` | src/instructions/mod.rs:8-53 | Decoding an encoded instruction returns that instruction. |
| `Instructions.DecodeSucceedsIffEncoding` | src/processor.rs:16 | Decoding succeeds exactly on the encodings of instructions. |
| `Instructions.EncodeLayout` | src/instructions/mod.rs:18-52 | Exact bytes of each variant: `[0, vault_bump, state_bump, flag]`; `[1]` or `[2]` followed by the amount in 8 little-endian bytes; `[3]`. |
| `Instructions.DecodeRejectsUnknownTag` | src/processor.rs:16 | A first byte of 4 or more is rejected. |
| `Instructions.DecodeRejectsTrailingBytes` | src/processor.rs:16 | An encoding followed by further bytes is rejected. |
| `Instructions.DecodeRejectsTruncated` | src/processor.rs:16 | Every proper prefix of an encoding is rejected. |
| `Runtime.AccountCursor.Next` | src/instructions/initialize.rs:26-34 | `next_account_info` yields the next account and advances. At the end of the list it fails with `NotEnoughAccountKeys` and does not advance. |
| `Runtime.CallLog.Invoke` | src/instructions/initialize.rs:55-69 | Each `invoke`/`invoke_signed` appends exactly its call to the calls issued so far. |
| `InitializeHandler.InitializeOutcome` | src/instructions/initialize.rs:19-143 | On success there were at least seven accounts and exactly two calls. The state account receives the encoding of (signer key, mint key, holding key, state bump, vault bump, flag). Nothing is written on failure. |
| `InitializeHandler.InitializeWith` | src/instructions/initialize.rs:36-138 | The same, for the seven accounts bound to their roles. |
| `InitializeHandler.Initialize` | src/instructions/initialize.rs:19-34 | Binding seven accounts through the cursor and running the body computes exactly `InitializeOutcome`, including `NotEnoughAccountKeys` for a short list. |
| `InitializeHandler.InitializeRoles` | src/instructions/initialize.rs:36-138 | The imperative body (checks, calls through the log, serialisation into the state buffer) computes exactly `InitializeWith`. |
| `InitializeHandler.WriteRecord` | src/instructions/initialize.rs:128-138 | Serialising the record into the freshly created 99-byte state buffer leaves exactly its encoding there. |
| `InitializeHandler.InitializeCheckOrder` | src/instructions/initialize.rs:26-50 | The first failing check decides the error, with nothing issued. The checks, in order: account count; signer; state key equals the address derived from `["state", authority]`; state account empty and not owned by the program (else `AccountAlreadyInitialized`). |
| `InitializeHandler.InitializeCreatesStateFirst` | src/instructions/initialize.rs:52-69 | Once those checks pass, the first call always creates a 99-byte state account owned by the program, paid by the authority and signed with `["state", authority, state_bump]`. |
| `InitializeHandler.InitializeTokenPath` | src/instructions/initialize.rs:71-102 | Token path: token program id, then associated-token program id (each `IncorrectProgramId`), then holding key equals the associated token address of (state, mint) (`InvalidAccountData`). Success iff all three hold. The second call creates that account with the state account as wallet. |
| `InitializeHandler.InitializeNativePath` | src/instructions/initialize.rs:103-126 | Native path: success iff the holding key equals the address derived from `["vault", state]`. The second call creates a zero-space account there, owned by the supplied system-program account and signed with `["vault", state, vault_bump]`. |
| `InitializeHandler.InitializeWritesRecord` | src/instructions/initialize.rs:128-138 | After a success, the written data decodes to the record naming the authority, mint, holding account and both bumps. The state key is the authority's derived address, and the holding key is re-derivable from the state key (and mint). |
| `DepositHandler.DepositOutcome` | src/instructions/deposit.rs:16-101 | Deposit never writes state and issues nothing on failure. On success the depositor signed, the record decodes, the destination is the recorded holding account, and exactly one call is issued. |
| `DepositHandler.DepositWith` | src/instructions/deposit.rs:26-96 | The same, for the six accounts bound to their roles. |
| `DepositHandler.Deposit` | src/instructions/deposit.rs:16-24 | Binding six accounts through the cursor and running the body computes exactly `DepositOutcome`. |
| `DepositHandler.DepositRoles` | src/instructions/deposit.rs:26-96 | The imperative body computes exactly `DepositWith`. |
| `DepositHandler.DepositCheckOrder` | src/instructions/deposit.rs:17-34 | Account count, then signer, then record decoding (Borsh error), then destination key equals the recorded holding account (`InvalidAccountData`). |
| `DepositHandler.DepositNativePath` | src/instructions/deposit.rs:36-48 | Native: success iff the system-program id matches. The single call is an unsigned system transfer of exactly `amount` from the depositor to the holding account. |
| `DepositHandler.DepositTokenPath` | src/instructions/deposit.rs:49-96 | Token, in source order: token program id (`IncorrectProgramId`); both accounts owned by the token program (`InvalidAccountOwner`); the source unpacks, then the destination (each fails with its own unpack error); the source belongs to the depositor and the destination to the state account (`InvalidAccountOwner`). Success iff all of these hold and the mints agree. The single call is a token transfer authorised by the depositor with no signer seeds. |
| `DepositHandler.DepositRejectsMintMismatch` | src/instructions/deposit.rs:74-76 | With every earlier check passing, different mints fail with `InvalidAccountData` and issue nothing. |
| `DepositHandler.DepositIgnoresAmount` | src/instructions/deposit.rs:16-101 | Whether a deposit succeeds, and with which error, does not depend on the amount; zero is accepted. |
| `DepositHandler.DepositIgnoresStateOwner` | src/instructions/deposit.rs:20-34 | Changing the state account's owner never changes the outcome. |
| `WithdrawHandler.WithdrawOutcome` | src/instructions/withdraw.rs:16-123 | Withdraw never writes state and issues nothing on failure. On success the signer is the recorded authority, the source is the recorded holding account, and exactly one call is issued. |
| `WithdrawHandler.WithdrawWith` | src/instructions/withdraw.rs:26-118 | The same, for the six accounts bound to their roles. |
| `WithdrawHandler.Withdraw` | src/instructions/withdraw.rs:16-24 | Binding six accounts through the cursor and running the body computes exactly `WithdrawOutcome`. |
| `WithdrawHandler.WithdrawRoles` | src/instructions/withdraw.rs:26-118 | The imperative body computes exactly `WithdrawWith`. |
| `WithdrawHandler.WithdrawCheckOrder` | src/instructions/withdraw.rs:17-38 | Account count, signer, record decoding, then authority equals the recorded one (`IllegalOwner`), then source equals the recorded holding account (`InvalidAccountData`). |
| `WithdrawHandler.WithdrawOnlyByAuthority` | src/instructions/withdraw.rs:32-34 | Any signer other than the recorded authority fails and commits nothing, whatever the other accounts. |
| `WithdrawHandler.WithdrawNativePath` | src/instructions/withdraw.rs:40-65 | Native: system-program id, then the holding account owned by the system program. Success iff both hold. The single call moves exactly `amount` from the holding account, signed with `["vault", state, vault_bump]`. |
| `WithdrawHandler.WithdrawTokenPath` | src/instructions/withdraw.rs:66-118 | Token, in source order: token program id (`IncorrectProgramId`); both accounts owned by the token program (`InvalidAccountOwner`); the source unpacks, then the destination (each fails with its own unpack error); the source belongs to the state account and the destination to the authority (`InvalidAccountOwner`). Success iff all of these hold and the mints agree. The transfer names the state account as authority but is signed with the "vault" seeds. |
| `WithdrawHandler.WithdrawRejectsMintMismatch` | src/instructions/withdraw.rs:91-93 | With every earlier check passing, different mints fail with `InvalidAccountData`. |
| `WithdrawHandler.WithdrawIgnoresStateOwner` | src/instructions/withdraw.rs:20-38 | Changing the state account's owner never changes the outcome. |
| `CloseHandler.CloseOutcome` | src/instructions/close.rs:17-142 | Close never writes state and issues nothing on failure. On success all common checks held (including program ownership of the state account) and exactly two calls were issued. The last sweeps the state account's whole balance to the authority with `["state", authority, state_bump]`. |
| `CloseHandler.CloseWith` | src/instructions/close.rs:27-137 | The same, for the six accounts bound to their roles. |
| `CloseHandler.Close` | src/instructions/close.rs:17-25 | Binding six accounts through the cursor and running the body computes exactly `CloseOutcome`. |
| `CloseHandler.CloseRoles` | src/instructions/close.rs:27-137 | The imperative body computes exactly `CloseWith`. |
| `CloseHandler.CloseCheckOrder` | src/instructions/close.rs:18-43 | Account count, signer, decoding, authority (`IllegalOwner`), holding key (`InvalidAccountData`), then state account owned by the program (`InvalidAccountOwner`), in that order. |
| `CloseHandler.CloseRequiresStateOwnership` | src/instructions/close.rs:41-43 | A state account not owned by the program is never closed, and nothing is committed. |
| `CloseHandler.CloseNativePath` | src/instructions/close.rs:45-84 | Native: success iff the system-program id matches and the holding account is system-owned. It issues two calls: the holding balance to account 3 with the "vault" seeds, then the state balance to the authority with the "state" seeds. |
| `CloseHandler.CloseTokenPath` | src/instructions/close.rs:85-137 | Token: an unpack error or a non-zero balance fails before either program id is checked (`InvalidAccountData` for the balance). With a zero balance, a wrong token or system program id fails with `IncorrectProgramId`. Success iff the balance is zero and both ids match. It closes the holding account to the authority, with the state account as its authority, then sweeps the state account. |
| `Processor.Process` | src/processor.rs:11-28 | Undecodable data fails with the Borsh error before any account is read. Success needs a decodable instruction and issues at least one call. Only an Initialize (tag 0) writes. |
| `Processor.ProcessEncoded` | src/processor.rs:16-27 | An encoded instruction reaches its own handler with the same bumps, flag and amount. |
| `Processor.ProcessRejectsMalformed` | src/processor.rs:16 | An encoding followed by further bytes fails with the Borsh error, whatever the accounts. |
| `Lifecycle.ReinitializeRejected` | src/instructions/initialize.rs:40-50 | Once a vault is initialized, initializing it again fails with `AccountAlreadyInitialized`, whatever the new arguments. |
| `Lifecycle.OnlyAuthorityMovesFunds` | src/instructions/withdraw.rs:32-34 | After initialize, withdraw and close by anyone but the recorded authority fail and commit nothing. |
| `Lifecycle.DepositAfterNativeInitialize` | src/instructions/deposit.rs:36-48 | After a native initialize, any signer's deposit into the created holding account is one transfer of exactly `amount`. |
| `Lifecycle.DepositAfterTokenInitialize` | src/instructions/deposit.rs:49-96 | After a token initialize, any signer's deposit from its own token account of the same mint into the state account's associated token account is one token transfer of `amount`, authorised by the depositor with no signer seeds. |
| `Lifecycle.WithdrawAfterNativeInitialize` | src/instructions/withdraw.rs:40-65 | After a native initialize, the authority's withdraw moves exactly `amount` from the holding account. It signs with that account's derivation seeds plus the recorded vault bump. |
| `Lifecycle.WithdrawAfterTokenInitialize` | src/instructions/withdraw.rs:66-118 | After a token initialize, the authority's withdraw from the state account's associated token account is one token transfer that names the state account and carries the "vault" seeds. |
| `Lifecycle.CloseAfterNativeInitialize` | src/instructions/close.rs:45-84 | After a native initialize, the authority's close issues a sweep of the holding account and then a sweep of the state account. It signs each with its own derivation seeds plus the recorded bump. |
| `Lifecycle.CloseAfterTokenInitialize` | src/instructions/close.rs:85-137 | After a token initialize, the authority's close of the emptied associated token account issues the token close to the authority (state account as its authority, "vault" seeds), then the state sweep with the seeds that derived the state address plus the recorded state bump. |
| `Lifecycle.ProcessNativeRound` | src/processor.rs:16-27 | Through the processor: an encoded native Initialize that succeeds, then an encoded Withdraw from the authority, commits exactly one transfer of `amount` out of the vault. |

## Left out

- `CloseHandler.CloseOutcome`: `Pass` means "the checks pass and these calls are issued", not that the vault's storage is reclaimed. Both paths end with a system `transfer` out of the state account. That account is owned by the program and carries 99 bytes of data. The system program refuses a transfer whose source carries data, and the runtime lets only an account's owner debit it. So that final call cannot succeed on the deployed program. The model assumes every callee succeeds, so `CloseHandler.CloseNativePath`, `CloseHandler.CloseTokenPath`, `Lifecycle.CloseAfterNativeInitialize` and `Lifecycle.CloseAfterTokenInitialize` describe the calls issued, not a completed close.

- Address derivation (`find_program_address`, `get_associated_token_address`) is a deterministic function the model takes as a parameter. Hashing, the off-curve search and running out of bump candidates are not modelled.
- `Rent::get()?.minimum_balance(n)` is a function the model takes as a parameter. A failing `Rent::get()` is not modelled.
- The system, token and associated-token programs are not modelled beyond the call each handler issues. Therefore:
  - a callee's own failure is not modelled;
  - no balances change;
  - whether the runtime accepts the signer seeds (for example, those of the token path) is not decided;
  - the balance round trips and the funded scenarios of a full vault lifetime are outside the model.
- The token account layout is not modelled. `TokenAccount::unpack` is a per-account view: either mint, owner and amount, or the error it returns.
- `close` reads lamport balances from the snapshot taken at entry. If account 3 is the state account itself, the source would read the state's balance after the first sweep. That aliasing is not modelled.
- The account lists passed to `invoke`/`invoke_signed`, `is_writable` flags and `RefCell` borrowing are not modelled. The model records only the instruction and the signer seeds.
- `msg!` logging and the program entrypoint are not modelled.
- Atomicity is modelled only as "an error means none of the issued calls take effect" (`Execution.Committed`).
- `InitializeHandler.WriteRecord`: its buffer is exactly the 99 bytes that `create_account` allocates, so the short-buffer error of `State.SerializeInto` cannot occur there. The model does not carry that error.
