/** The Deposit handler: any signer moves `amount` into the vault's holding
    account, natively from its own balance or by a token transfer from its
    own token account. */
module DepositHandler {
  import opened Base
  import opened Runtime
  import State

  /** Number of accounts the handler takes off the account list. */
  const ACCOUNTS: nat := 6

  /** The checks common to both paths pass: enough accounts, the depositor
      signed, the state data decodes, and the destination is the recorded
      holding account. */
  predicate CommonChecksPass(accounts: seq<AccountInfo>)
  {
    && |accounts| >= ACCOUNTS
    && accounts[0].isSigner
    && State.Decode(accounts[1].data).Success?
    && accounts[3].key == State.Decode(accounts[1].data).value.tokenAccount
  }

  /** What `deposit` does, given the account snapshots
      [depositor, state, source, destination, token program, system program]. */
  function DepositOutcome(env: Env, programId: Pubkey, accounts: seq<AccountInfo>, amount: U64): (x: Execution)
    ensures x.written == None
    ensures x.status.Fail? ==> x.issued == []
    ensures x.status.Pass? ==> CommonChecksPass(accounts) && |x.issued| == 1
  {
    if |accounts| < ACCOUNTS then Halt([], NotEnoughAccountKeys)
    else DepositWith(env, accounts[0], accounts[1], accounts[2], accounts[3], accounts[4], accounts[5], amount)
  }

  /** The checks and the transfer of `deposit` once the six accounts are bound to their roles. */
  function DepositWith(env: Env, depositor: AccountInfo, vaultStatePda: AccountInfo, source: AccountInfo,
                       destination: AccountInfo, tokenProgram: AccountInfo, systemProgram: AccountInfo,
                       amount: U64): (x: Execution)
    ensures x.written == None
    ensures x.status.Fail? ==> x.issued == []
    ensures x.status.Pass? ==>
      && depositor.isSigner && State.Decode(vaultStatePda.data).Success?
      && destination.key == State.Decode(vaultStatePda.data).value.tokenAccount
      && |x.issued| == 1
  {
    if !depositor.isSigner then Halt([], MissingRequiredSignature)
    else match State.Decode(vaultStatePda.data)
      case Failure(e) => Halt([], e)
      case Success(vault) =>
        if destination.key != vault.tokenAccount then Halt([], InvalidAccountData)
        else if vault.isNative then
          if systemProgram.key != env.systemProgramId then Halt([], IncorrectProgramId)
          else Execution([SystemTransfer(depositor.key, destination.key, amount, [])], None, Pass)
        else if tokenProgram.key != env.tokenProgramId then Halt([], IncorrectProgramId)
        else if source.owner != tokenProgram.key then Halt([], InvalidAccountOwner)
        else if destination.owner != tokenProgram.key then Halt([], InvalidAccountOwner)
        else match (source.tokenUnpack, destination.tokenUnpack)
          case (Failure(e), _) => Halt([], e)
          case (_, Failure(e)) => Halt([], e)
          case (Success(sourceToken), Success(destinationToken)) =>
            if sourceToken.owner != depositor.key then Halt([], InvalidAccountOwner)
            else if destinationToken.owner != vaultStatePda.key then Halt([], InvalidAccountOwner)
            else if sourceToken.mint != destinationToken.mint then Halt([], InvalidAccountData)
            else Execution([TokenTransfer(tokenProgram.key, source.key, destination.key, depositor.key, amount, [])],
                           None, Pass)
  }

  /** `deposit`: bind the six accounts through the iterator, then run the handler body. */
  method Deposit(env: Env, programId: Pubkey, accounts: seq<AccountInfo>, amount: U64) returns (x: Execution)
    ensures x == DepositOutcome(env, programId, accounts, amount)
  {
    var cursor := new AccountCursor(accounts);
    var next := cursor.Next();
    if next.Failure? { return Halt([], next.error); }
    var depositor := next.value;
    next := cursor.Next();
    if next.Failure? { return Halt([], next.error); }
    var vaultStatePda := next.value;
    next := cursor.Next();
    if next.Failure? { return Halt([], next.error); }
    var source := next.value;
    next := cursor.Next();
    if next.Failure? { return Halt([], next.error); }
    var destination := next.value;
    next := cursor.Next();
    if next.Failure? { return Halt([], next.error); }
    var tokenProgram := next.value;
    next := cursor.Next();
    if next.Failure? { return Halt([], next.error); }
    var systemProgram := next.value;
    assert accounts[..ACCOUNTS] == [depositor, vaultStatePda, source, destination, tokenProgram, systemProgram];
    x := DepositRoles(env, depositor, vaultStatePda, source, destination, tokenProgram, systemProgram, amount);
  }

  /** The body of `deposit` after the accounts are bound: run the checks and
      issue the one transfer. */
  method DepositRoles(env: Env, depositor: AccountInfo, vaultStatePda: AccountInfo, source: AccountInfo,
                      destination: AccountInfo, tokenProgram: AccountInfo, systemProgram: AccountInfo,
                      amount: U64) returns (x: Execution)
    ensures x == DepositWith(env, depositor, vaultStatePda, source, destination, tokenProgram, systemProgram, amount)
  {
    var log := new CallLog();
    if !depositor.isSigner {
      return Halt(log.calls, MissingRequiredSignature);
    }
    var decoded := State.Decode(vaultStatePda.data);
    if decoded.Failure? {
      return Halt(log.calls, decoded.error);
    }
    var vault := decoded.value;
    if destination.key != vault.tokenAccount {
      return Halt(log.calls, InvalidAccountData);
    }

    if vault.isNative {
      if systemProgram.key != env.systemProgramId {
        return Halt(log.calls, IncorrectProgramId);
      }
      log.Invoke(SystemTransfer(depositor.key, destination.key, amount, []));
    } else {
      if tokenProgram.key != env.tokenProgramId {
        return Halt(log.calls, IncorrectProgramId);
      }
      if source.owner != tokenProgram.key {
        return Halt(log.calls, InvalidAccountOwner);
      }
      if destination.owner != tokenProgram.key {
        return Halt(log.calls, InvalidAccountOwner);
      }
      if source.tokenUnpack.Failure? {
        return Halt(log.calls, source.tokenUnpack.error);
      }
      var sourceToken := source.tokenUnpack.value;
      if destination.tokenUnpack.Failure? {
        return Halt(log.calls, destination.tokenUnpack.error);
      }
      var destinationToken := destination.tokenUnpack.value;
      if sourceToken.owner != depositor.key {
        return Halt(log.calls, InvalidAccountOwner);
      }
      if destinationToken.owner != vaultStatePda.key {
        return Halt(log.calls, InvalidAccountOwner);
      }
      if sourceToken.mint != destinationToken.mint {
        return Halt(log.calls, InvalidAccountData);
      }
      log.Invoke(TokenTransfer(tokenProgram.key, source.key, destination.key, depositor.key, amount, []));
    }
    x := Execution(log.calls, None, Pass);
  }

  /** The common checks run in source order before anything is issued; an
      unsigned depositor is refused before the state data is read. */
  lemma DepositCheckOrder(env: Env, programId: Pubkey, accounts: seq<AccountInfo>, amount: U64)
    ensures var x := DepositOutcome(env, programId, accounts, amount);
      && (|accounts| < ACCOUNTS ==> x == Halt([], NotEnoughAccountKeys))
      && (|accounts| >= ACCOUNTS && !accounts[0].isSigner ==> x == Halt([], MissingRequiredSignature))
      && (|accounts| >= ACCOUNTS && accounts[0].isSigner && State.Decode(accounts[1].data).Failure?
          ==> x == Halt([], BorshIoError))
      && (|accounts| >= ACCOUNTS && accounts[0].isSigner && State.Decode(accounts[1].data).Success?
          && accounts[3].key != State.Decode(accounts[1].data).value.tokenAccount
          ==> x == Halt([], InvalidAccountData))
  {
  }

  /** Native vault: only the system-program id is checked; the depositor's
      own balance pays an unsigned transfer of exactly `amount` to the holding
      account (the source account in role 2 is not used). */
  lemma DepositNativePath(env: Env, programId: Pubkey, accounts: seq<AccountInfo>, amount: U64)
    requires CommonChecksPass(accounts) && State.Decode(accounts[1].data).value.isNative
    ensures var x := DepositOutcome(env, programId, accounts, amount);
      && (x.status.Pass? <==> accounts[5].key == env.systemProgramId)
      && (!x.status.Pass? ==> x == Halt([], IncorrectProgramId))
      && (x.status.Pass? ==> x.issued == [SystemTransfer(accounts[0].key, accounts[3].key, amount, [])])
  {
  }

  /** Token vault: the source must be the depositor's token account and the
      destination the state account's, both held by the token program, with
      one mint; the transfer is authorised by the depositor alone. */
  lemma DepositTokenPath(env: Env, programId: Pubkey, accounts: seq<AccountInfo>, amount: U64)
    requires CommonChecksPass(accounts) && !State.Decode(accounts[1].data).value.isNative
    ensures var x := DepositOutcome(env, programId, accounts, amount);
      var source, destination := accounts[2], accounts[3];
      && (accounts[4].key != env.tokenProgramId ==> x == Halt([], IncorrectProgramId))
      && (accounts[4].key == env.tokenProgramId && (source.owner != accounts[4].key || destination.owner != accounts[4].key)
          ==> x == Halt([], InvalidAccountOwner))
      && (accounts[4].key == env.tokenProgramId && source.owner == accounts[4].key && destination.owner == accounts[4].key
          && source.tokenUnpack.Failure?
          ==> x == Halt([], source.tokenUnpack.error))
      && (accounts[4].key == env.tokenProgramId && source.owner == accounts[4].key && destination.owner == accounts[4].key
          && source.tokenUnpack.Success? && destination.tokenUnpack.Failure?
          ==> x == Halt([], destination.tokenUnpack.error))
      && (accounts[4].key == env.tokenProgramId && source.owner == accounts[4].key && destination.owner == accounts[4].key
          && source.tokenUnpack.Success? && destination.tokenUnpack.Success?
          && (source.tokenUnpack.value.owner != accounts[0].key || destination.tokenUnpack.value.owner != accounts[1].key)
          ==> x == Halt([], InvalidAccountOwner))
      && (x.status.Pass? <==>
            && accounts[4].key == env.tokenProgramId
            && source.owner == env.tokenProgramId && destination.owner == env.tokenProgramId
            && source.tokenUnpack.Success? && destination.tokenUnpack.Success?
            && source.tokenUnpack.value.owner == accounts[0].key
            && destination.tokenUnpack.value.owner == accounts[1].key
            && source.tokenUnpack.value.mint == destination.tokenUnpack.value.mint)
      && (x.status.Pass? ==>
            x.issued == [TokenTransfer(accounts[4].key, source.key, destination.key, accounts[0].key, amount, [])])
  {
  }

  /** A token deposit whose two accounts carry different mints is refused with
      `InvalidAccountData`, whatever the amount. */
  lemma DepositRejectsMintMismatch(env: Env, programId: Pubkey, accounts: seq<AccountInfo>, amount: U64)
    requires CommonChecksPass(accounts) && !State.Decode(accounts[1].data).value.isNative
    requires accounts[4].key == env.tokenProgramId
    requires accounts[2].owner == env.tokenProgramId && accounts[3].owner == env.tokenProgramId
    requires accounts[2].tokenUnpack.Success? && accounts[3].tokenUnpack.Success?
    requires accounts[2].tokenUnpack.value.owner == accounts[0].key
    requires accounts[3].tokenUnpack.value.owner == accounts[1].key
    requires accounts[2].tokenUnpack.value.mint != accounts[3].tokenUnpack.value.mint
    ensures DepositOutcome(env, programId, accounts, amount) == Halt([], InvalidAccountData)
  {
  }

  /** `amount` is never range-checked: whether a deposit passes does not
      depend on it, so a zero deposit passes exactly when any other would. */
  lemma DepositIgnoresAmount(env: Env, programId: Pubkey, accounts: seq<AccountInfo>, amount: U64, other: U64)
    ensures DepositOutcome(env, programId, accounts, amount).status
         == DepositOutcome(env, programId, accounts, other).status
  {
  }

  /** The owner of the state account is never checked: replacing it changes nothing. */
  lemma DepositIgnoresStateOwner(env: Env, programId: Pubkey, accounts: seq<AccountInfo>, amount: U64, owner: Pubkey)
    requires |accounts| >= ACCOUNTS
    ensures DepositOutcome(env, programId, accounts[1 := accounts[1].(owner := owner)], amount)
         == DepositOutcome(env, programId, accounts, amount)
  {
  }
}
