/** The instruction processor: decode the instruction data, then hand the
    program id and the whole account list to the matching handler. */
module Processor {
  import opened Base
  import opened Runtime
  import Instructions
  import InitializeHandler
  import DepositHandler
  import WithdrawHandler
  import CloseHandler

  /** `Processor::process`. Data that is not exactly one encoded instruction
      fails with the Borsh error before any account is looked at; only an
      Initialize writes a record; nothing passes without issuing a call. */
  function Process(env: Env, programId: Pubkey, accounts: seq<AccountInfo>, data: seq<Byte>): (x: Execution)
    ensures Instructions.Decode(data).Failure? ==> x == Halt([], BorshIoError)
    ensures x.status.Pass? ==> Instructions.Decode(data).Success? && |x.issued| >= 1
    ensures x.written.Some? ==> data != [] && data[0] == 0
  {
    match Instructions.Decode(data)
    case Failure(e) => Halt([], e)
    case Success(ix) =>
      match ix
      case Initialize(vaultBump, stateBump, isNative) =>
        InitializeHandler.InitializeOutcome(env, programId, accounts, vaultBump, stateBump, isNative)
      case Deposit(amount) => DepositHandler.DepositOutcome(env, programId, accounts, amount)
      case Withdraw(amount) => WithdrawHandler.WithdrawOutcome(env, programId, accounts, amount)
      case Close => CloseHandler.CloseOutcome(env, programId, accounts)
  }

  /** The data a client builds for an instruction reaches the handler of that
      instruction with the same arguments, in the same order. */
  lemma ProcessEncoded(env: Env, programId: Pubkey, accounts: seq<AccountInfo>, ix: Instructions.VaultInstruction)
    ensures var x := Process(env, programId, accounts, Instructions.Encode(ix));
      match ix
      case Initialize(vaultBump, stateBump, isNative) =>
        x == InitializeHandler.InitializeOutcome(env, programId, accounts, vaultBump, stateBump, isNative)
      case Deposit(amount) => x == DepositHandler.DepositOutcome(env, programId, accounts, amount)
      case Withdraw(amount) => x == WithdrawHandler.WithdrawOutcome(env, programId, accounts, amount)
      case Close => x == CloseHandler.CloseOutcome(env, programId, accounts)
  {
    Instructions.DecodeEncode(ix);
  }

  /** An encoded instruction followed by further bytes is refused with the
      Borsh error whatever the accounts. */
  lemma ProcessRejectsMalformed(env: Env, programId: Pubkey, accounts: seq<AccountInfo>,
                                ix: Instructions.VaultInstruction, extra: seq<Byte>)
    requires extra != []
    ensures Process(env, programId, accounts, Instructions.Encode(ix) + extra) == Halt([], BorshIoError)
  {
    Instructions.DecodeRejectsTrailingBytes(ix, extra);
  }
}
