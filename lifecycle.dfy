/** Properties that tie the handlers together: what a successful Initialize
    leaves behind is exactly what Deposit, Withdraw and Close later accept,
    and nobody but the recorded authority can move the vault's funds. */
module Lifecycle {
  import opened Base
  import opened Runtime
  import State
  import Instructions
  import InitializeHandler
  import DepositHandler
  import WithdrawHandler
  import CloseHandler
  import Processor

  /** The record a successful `initialize` writes for these accounts and arguments. */
  function InitialRecord(accounts: seq<AccountInfo>, vaultBump: Byte, stateBump: Byte, isNative: bool): State.VaultState
    requires |accounts| >= InitializeHandler.ACCOUNTS
  {
    State.VaultState(accounts[0].key, accounts[2].key, accounts[3].key, stateBump, vaultBump, isNative)
  }

  /** `later` presents the state account that `init` created, holding the
      data the successful initialize wrote. */
  predicate PresentsState(init: seq<AccountInfo>, vaultBump: Byte, stateBump: Byte, isNative: bool, later: seq<AccountInfo>)
    requires |init| >= InitializeHandler.ACCOUNTS
  {
    && |later| >= 6
    && later[1].key == init[1].key
    && later[1].data == State.Encode(InitialRecord(init, vaultBump, stateBump, isNative))
  }

  /** The state account, once written, can never be initialized again, by
      the same authority or with other arguments. */
  lemma ReinitializeRejected(env: Env, programId: Pubkey, init: seq<AccountInfo>,
                             vaultBump: Byte, stateBump: Byte, isNative: bool,
                             again: seq<AccountInfo>, vaultBump2: Byte, stateBump2: Byte, isNative2: bool)
    requires InitializeHandler.InitializeOutcome(env, programId, init, vaultBump, stateBump, isNative).status.Pass?
    requires |again| >= InitializeHandler.ACCOUNTS && again[0].key == init[0].key && again[0].isSigner
    requires again[1].key == init[1].key
    requires again[1].data == InitializeHandler.InitializeOutcome(env, programId, init, vaultBump, stateBump, isNative).written.value
    ensures InitializeHandler.InitializeOutcome(env, programId, again, vaultBump2, stateBump2, isNative2)
         == Halt([], AccountAlreadyInitialized)
  {
    InitializeHandler.InitializeWritesRecord(env, programId, init, vaultBump, stateBump, isNative);
    InitializeHandler.InitializeCheckOrder(env, programId, again, vaultBump2, stateBump2, isNative2);
  }

  /** Only the recorded authority controls an initialized vault: any other
      signer is refused by Withdraw and by Close and nothing is committed. */
  lemma OnlyAuthorityMovesFunds(env: Env, programId: Pubkey, init: seq<AccountInfo>,
                                vaultBump: Byte, stateBump: Byte, isNative: bool,
                                later: seq<AccountInfo>, amount: U64)
    requires InitializeHandler.InitializeOutcome(env, programId, init, vaultBump, stateBump, isNative).status.Pass?
    requires PresentsState(init, vaultBump, stateBump, isNative, later)
    requires later[0].key != init[0].key
    ensures WithdrawHandler.WithdrawOutcome(env, programId, later, amount).status.Fail?
    ensures WithdrawHandler.WithdrawOutcome(env, programId, later, amount).Committed() == []
    ensures CloseHandler.CloseOutcome(env, programId, later).status.Fail?
    ensures CloseHandler.CloseOutcome(env, programId, later).Committed() == []
  {
    State.DecodeEncode(InitialRecord(init, vaultBump, stateBump, isNative));
  }

  /** After a native initialize, any signer can deposit: one unsigned system
      transfer of `amount` into the holding account created at initialize. */
  lemma DepositAfterNativeInitialize(env: Env, programId: Pubkey, init: seq<AccountInfo>,
                                     vaultBump: Byte, stateBump: Byte,
                                     later: seq<AccountInfo>, amount: U64)
    requires InitializeHandler.InitializeOutcome(env, programId, init, vaultBump, stateBump, true).status.Pass?
    requires PresentsState(init, vaultBump, stateBump, true, later)
    requires later[0].isSigner && later[3].key == init[3].key && later[5].key == env.systemProgramId
    ensures DepositHandler.DepositOutcome(env, programId, later, amount)
         == Execution([SystemTransfer(later[0].key, init[3].key, amount, [])], None, Pass)
  {
    State.DecodeEncode(InitialRecord(init, vaultBump, stateBump, true));
  }

  /** After a native initialize, the authority can withdraw from the holding
      account it created: the transfer is signed with exactly the seeds that
      derived the holding address, followed by the bump recorded at initialize. */
  lemma WithdrawAfterNativeInitialize(env: Env, programId: Pubkey, init: seq<AccountInfo>,
                                      vaultBump: Byte, stateBump: Byte,
                                      later: seq<AccountInfo>, amount: U64)
    requires InitializeHandler.InitializeOutcome(env, programId, init, vaultBump, stateBump, true).status.Pass?
    requires PresentsState(init, vaultBump, stateBump, true, later)
    requires later[0].key == init[0].key && later[0].isSigner
    requires later[2].key == init[3].key && later[2].owner == env.systemProgramId
    requires later[5].key == env.systemProgramId
    ensures later[2].key == env.findProgramAddress(VaultAddressSeeds(later[1].key), programId)
    ensures WithdrawHandler.WithdrawOutcome(env, programId, later, amount)
         == Execution([SystemTransfer(later[2].key, later[3].key, amount,
                                      [VaultAddressSeeds(later[1].key) + [[vaultBump]]])], None, Pass)
  {
    InitializeHandler.InitializeWritesRecord(env, programId, init, vaultBump, stateBump, true);
    State.DecodeEncode(InitialRecord(init, vaultBump, stateBump, true));
    assert VaultAddressSeeds(later[1].key) + [[vaultBump]] == VaultSigner(later[1].key, vaultBump);
  }

  /** After a token initialize, the authority can withdraw from the associated
      token account created for the state account. The transfer names the
      state account as token authority but carries the "vault" signer seeds,
      not the "state" seeds that derived the state address. */
  lemma WithdrawAfterTokenInitialize(env: Env, programId: Pubkey, init: seq<AccountInfo>,
                                     vaultBump: Byte, stateBump: Byte,
                                     later: seq<AccountInfo>, amount: U64)
    requires InitializeHandler.InitializeOutcome(env, programId, init, vaultBump, stateBump, false).status.Pass?
    requires PresentsState(init, vaultBump, stateBump, false, later)
    requires later[0].key == init[0].key && later[0].isSigner
    requires later[2].key == init[3].key && later[4].key == env.tokenProgramId
    requires later[2].owner == env.tokenProgramId && later[3].owner == env.tokenProgramId
    requires later[2].tokenUnpack.Success? && later[3].tokenUnpack.Success?
    requires later[2].tokenUnpack.value.owner == later[1].key
    requires later[3].tokenUnpack.value.owner == later[0].key
    requires later[2].tokenUnpack.value.mint == later[3].tokenUnpack.value.mint
    ensures later[2].key == env.associatedTokenAddress(later[1].key, init[2].key)
    ensures WithdrawHandler.WithdrawOutcome(env, programId, later, amount)
         == Execution([TokenTransfer(env.tokenProgramId, later[2].key, later[3].key, later[1].key, amount,
                                     [VaultAddressSeeds(later[1].key) + [[vaultBump]]])], None, Pass)
  {
    InitializeHandler.InitializeWritesRecord(env, programId, init, vaultBump, stateBump, false);
    State.DecodeEncode(InitialRecord(init, vaultBump, stateBump, false));
    assert VaultAddressSeeds(later[1].key) + [[vaultBump]] == VaultSigner(later[1].key, vaultBump);
  }

  /** After a token initialize, any signer can deposit from its own token
      account of the same mint into the associated token account created for
      the state account: one token transfer of `amount`, authorised by the
      depositor alone. */
  lemma DepositAfterTokenInitialize(env: Env, programId: Pubkey, init: seq<AccountInfo>,
                                    vaultBump: Byte, stateBump: Byte,
                                    later: seq<AccountInfo>, amount: U64)
    requires InitializeHandler.InitializeOutcome(env, programId, init, vaultBump, stateBump, false).status.Pass?
    requires PresentsState(init, vaultBump, stateBump, false, later)
    requires later[0].isSigner && later[3].key == init[3].key && later[4].key == env.tokenProgramId
    requires later[2].owner == env.tokenProgramId && later[3].owner == env.tokenProgramId
    requires later[2].tokenUnpack.Success? && later[3].tokenUnpack.Success?
    requires later[2].tokenUnpack.value.owner == later[0].key
    requires later[3].tokenUnpack.value.owner == later[1].key
    requires later[2].tokenUnpack.value.mint == later[3].tokenUnpack.value.mint
    ensures later[3].key == env.associatedTokenAddress(later[1].key, init[2].key)
    ensures DepositHandler.DepositOutcome(env, programId, later, amount)
         == Execution([TokenTransfer(env.tokenProgramId, later[2].key, init[3].key, later[0].key, amount, [])], None, Pass)
  {
    InitializeHandler.InitializeWritesRecord(env, programId, init, vaultBump, stateBump, false);
    State.DecodeEncode(InitialRecord(init, vaultBump, stateBump, false));
  }

  /** After a native initialize, the authority's close passes every check and
      issues two sweeps: the holding account's balance to account 3, then the
      state account's balance to the authority, signed with the seeds that
      derived the state address and the recorded state bump. Whether the
      system program carries out the second sweep is outside this model. */
  lemma CloseAfterNativeInitialize(env: Env, programId: Pubkey, init: seq<AccountInfo>,
                                   vaultBump: Byte, stateBump: Byte, later: seq<AccountInfo>)
    requires InitializeHandler.InitializeOutcome(env, programId, init, vaultBump, stateBump, true).status.Pass?
    requires PresentsState(init, vaultBump, stateBump, true, later)
    requires later[0].key == init[0].key && later[0].isSigner && later[1].owner == programId
    requires later[2].key == init[3].key && later[2].owner == env.systemProgramId
    requires later[5].key == env.systemProgramId
    ensures later[1].key == env.findProgramAddress(StateAddressSeeds(later[0].key), programId)
    ensures CloseHandler.CloseOutcome(env, programId, later)
         == Execution([SystemTransfer(later[2].key, later[3].key, later[2].lamports,
                                      [VaultAddressSeeds(later[1].key) + [[vaultBump]]]),
                       SystemTransfer(later[1].key, later[0].key, later[1].lamports,
                                      [StateAddressSeeds(later[0].key) + [[stateBump]]])], None, Pass)
  {
    InitializeHandler.InitializeWritesRecord(env, programId, init, vaultBump, stateBump, true);
    State.DecodeEncode(InitialRecord(init, vaultBump, stateBump, true));
    assert VaultAddressSeeds(later[1].key) + [[vaultBump]] == VaultSigner(later[1].key, vaultBump);
    assert StateAddressSeeds(later[0].key) + [[stateBump]] == StateSigner(later[0].key, stateBump);
  }

  /** After a token initialize, the authority's close of the emptied
      associated token account passes every check and issues two calls: the
      token program closes the holding account to the authority with the state
      account named as its authority and the "vault" seeds, then the state
      account's balance is swept to the authority with the seeds that derived
      the state address. Whether the system program carries out the sweep is
      outside this model. */
  lemma CloseAfterTokenInitialize(env: Env, programId: Pubkey, init: seq<AccountInfo>,
                                  vaultBump: Byte, stateBump: Byte, later: seq<AccountInfo>)
    requires InitializeHandler.InitializeOutcome(env, programId, init, vaultBump, stateBump, false).status.Pass?
    requires PresentsState(init, vaultBump, stateBump, false, later)
    requires later[0].key == init[0].key && later[0].isSigner && later[1].owner == programId
    requires later[2].key == init[3].key
    requires later[2].tokenUnpack.Success? && later[2].tokenUnpack.value.amount == 0
    requires later[4].key == env.tokenProgramId && later[5].key == env.systemProgramId
    ensures later[2].key == env.associatedTokenAddress(later[1].key, init[2].key)
    ensures CloseHandler.CloseOutcome(env, programId, later)
         == Execution([CloseAccount(env.tokenProgramId, later[2].key, later[0].key, later[1].key,
                                    [VaultAddressSeeds(later[1].key) + [[vaultBump]]]),
                       SystemTransfer(later[1].key, later[0].key, later[1].lamports,
                                      [StateAddressSeeds(later[0].key) + [[stateBump]]])], None, Pass)
  {
    InitializeHandler.InitializeWritesRecord(env, programId, init, vaultBump, stateBump, false);
    State.DecodeEncode(InitialRecord(init, vaultBump, stateBump, false));
    assert VaultAddressSeeds(later[1].key) + [[vaultBump]] == VaultSigner(later[1].key, vaultBump);
    assert StateAddressSeeds(later[0].key) + [[stateBump]] == StateSigner(later[0].key, stateBump);
  }

  /** The same native round through the processor: the encoded Initialize
      creates the vault, and the encoded Withdraw sent by the authority then
      moves exactly `amount` out of it. */
  lemma ProcessNativeRound(env: Env, programId: Pubkey, init: seq<AccountInfo>,
                           vaultBump: Byte, stateBump: Byte, later: seq<AccountInfo>, amount: U64)
    requires Processor.Process(env, programId, init,
                               Instructions.Encode(Instructions.Initialize(vaultBump, stateBump, true))).status.Pass?
    requires PresentsState(init, vaultBump, stateBump, true, later)
    requires later[0].key == init[0].key && later[0].isSigner
    requires later[2].key == init[3].key && later[2].owner == env.systemProgramId
    requires later[5].key == env.systemProgramId
    ensures Processor.Process(env, programId, later, Instructions.Encode(Instructions.Withdraw(amount))).Committed()
         == [SystemTransfer(later[2].key, later[3].key, amount, [VaultAddressSeeds(later[1].key) + [[vaultBump]]])]
  {
    Processor.ProcessEncoded(env, programId, init, Instructions.Initialize(vaultBump, stateBump, true));
    Processor.ProcessEncoded(env, programId, later, Instructions.Withdraw(amount));
    WithdrawAfterNativeInitialize(env, programId, init, vaultBump, stateBump, later, amount);
  }
}
