/** The Withdraw handler: the recorded authority moves `amount` out of the
    holding account, signing as the program with the "vault" seeds. */
module WithdrawHandler {
  import opened Base
  import opened Runtime
  import State

  /** Number of accounts the handler takes off the account list. */
  const ACCOUNTS: nat := 6

  /** The checks common to both paths pass: enough accounts, the authority
      signed, the state data decodes, the signer is the recorded authority,
      and the source is the recorded holding account. */
  predicate CommonChecksPass(accounts: seq<AccountInfo>)
  {
    && |accounts| >= ACCOUNTS
    && accounts[0].isSigner
    && State.Decode(accounts[1].data).Success?
    && accounts[0].key == State.Decode(accounts[1].data).value.authority
    && accounts[2].key == State.Decode(accounts[1].data).value.tokenAccount
  }

  /** What `withdraw` does, given the account snapshots
      [authority, state, source, destination, token program, system program]. */
  function WithdrawOutcome(env: Env, programId: Pubkey, accounts: seq<AccountInfo>, amount: U64): (x: Execution)
    ensures x.written == None
    ensures x.status.Fail? ==> x.issued == []
    ensures x.status.Pass? ==> CommonChecksPass(accounts) && |x.issued| == 1
  {
    if |accounts| < ACCOUNTS then Halt([], NotEnoughAccountKeys)
    else WithdrawWith(env, accounts[0], accounts[1], accounts[2], accounts[3], accounts[4], accounts[5], amount)
  }

  /** The checks and the transfer of `withdraw` once the six accounts are bound to their roles. */
  function WithdrawWith(env: Env, authority: AccountInfo, vaultStatePda: AccountInfo, source: AccountInfo,
                        destination: AccountInfo, tokenProgram: AccountInfo, systemProgram: AccountInfo,
                        amount: U64): (x: Execution)
    ensures x.written == None
    ensures x.status.Fail? ==> x.issued == []
    ensures x.status.Pass? ==>
      && authority.isSigner && State.Decode(vaultStatePda.data).Success?
      && authority.key == State.Decode(vaultStatePda.data).value.authority
      && source.key == State.Decode(vaultStatePda.data).value.tokenAccount
      && |x.issued| == 1
  {
    if !authority.isSigner then Halt([], MissingRequiredSignature)
    else match State.Decode(vaultStatePda.data)
      case Failure(e) => Halt([], e)
      case Success(vault) =>
        var signer := VaultSigner(vaultStatePda.key, vault.vaultBump);
        if vault.authority != authority.key then Halt([], IllegalOwner)
        else if source.key != vault.tokenAccount then Halt([], InvalidAccountData)
        else if vault.isNative then
          if systemProgram.key != env.systemProgramId then Halt([], IncorrectProgramId)
          else if source.owner != systemProgram.key then Halt([], InvalidAccountOwner)
          else Execution([SystemTransfer(source.key, destination.key, amount, [signer])], None, Pass)
        else if tokenProgram.key != env.tokenProgramId then Halt([], IncorrectProgramId)
        else if source.owner != tokenProgram.key then Halt([], InvalidAccountOwner)
        else if destination.owner != tokenProgram.key then Halt([], InvalidAccountOwner)
        else match (source.tokenUnpack, destination.tokenUnpack)
          case (Failure(e), _) => Halt([], e)
          case (_, Failure(e)) => Halt([], e)
          case (Success(sourceToken), Success(destinationToken)) =>
            if sourceToken.owner != vaultStatePda.key then Halt([], InvalidAccountOwner)
            else if destinationToken.owner != authority.key then Halt([], InvalidAccountOwner)
            else if sourceToken.mint != destinationToken.mint then Halt([], InvalidAccountData)
            else Execution([TokenTransfer(tokenProgram.key, source.key, destination.key, vaultStatePda.key, amount, [signer])],
                           None, Pass)
  }

  /** `withdraw`: bind the six accounts through the iterator, then run the handler body. */
  method Withdraw(env: Env, programId: Pubkey, accounts: seq<AccountInfo>, amount: U64) returns (x: Execution)
    ensures x == WithdrawOutcome(env, programId, accounts, amount)
  {
    var cursor := new AccountCursor(accounts);
    var next := cursor.Next();
    if next.Failure? { return Halt([], next.error); }
    var authority := next.value;
    next := cursor.Next();
    if next.Failure? { return Halt([], next.error); }
    var vaultStatePda := next.value;
    next := cursor.Next();
    if next.Failure? { return Halt([], next.error); }
    var source := next.value;
    next := cursor.Next();
    if next.Failure? { return Halt([], next.error); }
    var destination := next.value;
    next := cursor.Next();
    if next.Failure? { return Halt([], next.error); }
    var tokenProgram := next.value;
    next := cursor.Next();
    if next.Failure? { return Halt([], next.error); }
    var systemProgram := next.value;
    assert accounts[..ACCOUNTS] == [authority, vaultStatePda, source, destination, tokenProgram, systemProgram];
    x := WithdrawRoles(env, authority, vaultStatePda, source, destination, tokenProgram, systemProgram, amount);
  }

  /** The body of `withdraw` after the accounts are bound: run the checks and
      issue the one signed transfer. */
  method WithdrawRoles(env: Env, authority: AccountInfo, vaultStatePda: AccountInfo, source: AccountInfo,
                       destination: AccountInfo, tokenProgram: AccountInfo, systemProgram: AccountInfo,
                       amount: U64) returns (x: Execution)
    ensures x == WithdrawWith(env, authority, vaultStatePda, source, destination, tokenProgram, systemProgram, amount)
  {
    var log := new CallLog();
    if !authority.isSigner {
      return Halt(log.calls, MissingRequiredSignature);
    }
    var decoded := State.Decode(vaultStatePda.data);
    if decoded.Failure? {
      return Halt(log.calls, decoded.error);
    }
    var vault := decoded.value;
    if vault.authority != authority.key {
      return Halt(log.calls, IllegalOwner);
    }
    if source.key != vault.tokenAccount {
      return Halt(log.calls, InvalidAccountData);
    }

    if vault.isNative {
      if systemProgram.key != env.systemProgramId {
        return Halt(log.calls, IncorrectProgramId);
      }
      if source.owner != systemProgram.key {
        return Halt(log.calls, InvalidAccountOwner);
      }
      log.Invoke(SystemTransfer(source.key, destination.key, amount, [VaultSigner(vaultStatePda.key, vault.vaultBump)]));
    } else {
      if tokenProgram.key != env.tokenProgramId {
        return Halt(log.calls, IncorrectProgramId);
      }
      if source.owner != tokenProgram.key {
        return Halt(log.calls, InvalidAccountOwner);
      }
      if destination.owner != tokenProgram.key {
        return Halt(log.calls, InvalidAccountOwner);
      }
      if source.tokenUnpack.Failure? {
        return Halt(log.calls, source.tokenUnpack.error);
      }
      var sourceToken := source.tokenUnpack.value;
      if destination.tokenUnpack.Failure? {
        return Halt(log.calls, destination.tokenUnpack.error);
      }
      var destinationToken := destination.tokenUnpack.value;
      if sourceToken.owner != vaultStatePda.key {
        return Halt(log.calls, InvalidAccountOwner);
      }
      if destinationToken.owner != authority.key {
        return Halt(log.calls, InvalidAccountOwner);
      }
      if sourceToken.mint != destinationToken.mint {
        return Halt(log.calls, InvalidAccountData);
      }
      log.Invoke(TokenTransfer(tokenProgram.key, source.key, destination.key, vaultStatePda.key, amount,
                               [VaultSigner(vaultStatePda.key, vault.vaultBump)]));
    }
    x := Execution(log.calls, None, Pass);
  }

  /** The common checks run in source order before anything is issued. */
  lemma WithdrawCheckOrder(env: Env, programId: Pubkey, accounts: seq<AccountInfo>, amount: U64)
    ensures var x := WithdrawOutcome(env, programId, accounts, amount);
      && (|accounts| < ACCOUNTS ==> x == Halt([], NotEnoughAccountKeys))
      && (|accounts| >= ACCOUNTS && !accounts[0].isSigner ==> x == Halt([], MissingRequiredSignature))
      && (|accounts| >= ACCOUNTS && accounts[0].isSigner && State.Decode(accounts[1].data).Failure?
          ==> x == Halt([], BorshIoError))
      && (|accounts| >= ACCOUNTS && accounts[0].isSigner && State.Decode(accounts[1].data).Success?
          && accounts[0].key != State.Decode(accounts[1].data).value.authority
          ==> x == Halt([], IllegalOwner))
      && (|accounts| >= ACCOUNTS && accounts[0].isSigner && State.Decode(accounts[1].data).Success?
          && accounts[0].key == State.Decode(accounts[1].data).value.authority
          && accounts[2].key != State.Decode(accounts[1].data).value.tokenAccount
          ==> x == Halt([], InvalidAccountData))
  {
  }

  /** A signer other than the recorded authority never withdraws, however
      the other accounts are chosen. */
  lemma WithdrawOnlyByAuthority(env: Env, programId: Pubkey, accounts: seq<AccountInfo>, amount: U64)
    requires |accounts| >= ACCOUNTS && State.Decode(accounts[1].data).Success?
    requires accounts[0].key != State.Decode(accounts[1].data).value.authority
    ensures WithdrawOutcome(env, programId, accounts, amount).status.Fail?
    ensures WithdrawOutcome(env, programId, accounts, amount).Committed() == []
  {
  }

  /** Native vault: the source must be system-owned; one transfer of exactly
      `amount` from the holding account to the destination, signed with
      ["vault", state key, recorded vault bump]. */
  lemma WithdrawNativePath(env: Env, programId: Pubkey, accounts: seq<AccountInfo>, amount: U64)
    requires CommonChecksPass(accounts) && State.Decode(accounts[1].data).value.isNative
    ensures var x := WithdrawOutcome(env, programId, accounts, amount);
      var vault := State.Decode(accounts[1].data).value;
      && (accounts[5].key != env.systemProgramId ==> x == Halt([], IncorrectProgramId))
      && (accounts[5].key == env.systemProgramId && accounts[2].owner != accounts[5].key
          ==> x == Halt([], InvalidAccountOwner))
      && (x.status.Pass? <==> accounts[5].key == env.systemProgramId && accounts[2].owner == env.systemProgramId)
      && (x.status.Pass? ==>
            x.issued == [SystemTransfer(vault.tokenAccount, accounts[3].key, amount,
                                        [[VAULT_SEED, accounts[1].key, [vault.vaultBump]]])])
  {
  }

  /** Token vault: the source must belong to the state account and the
      destination to the authority, both held by the token program, with one
      mint. The transfer names the state account as token authority while
      its signer seeds are the "vault" seeds. */
  lemma WithdrawTokenPath(env: Env, programId: Pubkey, accounts: seq<AccountInfo>, amount: U64)
    requires CommonChecksPass(accounts) && !State.Decode(accounts[1].data).value.isNative
    ensures var x := WithdrawOutcome(env, programId, accounts, amount);
      var vault := State.Decode(accounts[1].data).value;
      var source, destination := accounts[2], accounts[3];
      && (accounts[4].key != env.tokenProgramId ==> x == Halt([], IncorrectProgramId))
      && (accounts[4].key == env.tokenProgramId && (source.owner != accounts[4].key || destination.owner != accounts[4].key)
          ==> x == Halt([], InvalidAccountOwner))
      && (accounts[4].key == env.tokenProgramId && source.owner == accounts[4].key && destination.owner == accounts[4].key
          && source.tokenUnpack.Failure?
          ==> x == Halt([], source.tokenUnpack.error))
      && (accounts[4].key == env.tokenProgramId && source.owner == accounts[4].key && destination.owner == accounts[4].key
          && source.tokenUnpack.Success? && destination.tokenUnpack.Failure?
          ==> x == Halt([], destination.tokenUnpack.error))
      && (accounts[4].key == env.tokenProgramId && source.owner == accounts[4].key && destination.owner == accounts[4].key
          && source.tokenUnpack.Success? && destination.tokenUnpack.Success?
          && (source.tokenUnpack.value.owner != accounts[1].key || destination.tokenUnpack.value.owner != accounts[0].key)
          ==> x == Halt([], InvalidAccountOwner))
      && (x.status.Pass? <==>
            && accounts[4].key == env.tokenProgramId
            && source.owner == env.tokenProgramId && destination.owner == env.tokenProgramId
            && source.tokenUnpack.Success? && destination.tokenUnpack.Success?
            && source.tokenUnpack.value.owner == accounts[1].key
            && destination.tokenUnpack.value.owner == accounts[0].key
            && source.tokenUnpack.value.mint == destination.tokenUnpack.value.mint)
      && (x.status.Pass? ==>
            x.issued == [TokenTransfer(accounts[4].key, source.key, destination.key, accounts[1].key, amount,
                                       [[VAULT_SEED, accounts[1].key, [vault.vaultBump]]])])
  {
  }

  /** A token withdrawal whose two accounts carry different mints is refused
      with `InvalidAccountData`, whatever the amount. */
  lemma WithdrawRejectsMintMismatch(env: Env, programId: Pubkey, accounts: seq<AccountInfo>, amount: U64)
    requires CommonChecksPass(accounts) && !State.Decode(accounts[1].data).value.isNative
    requires accounts[4].key == env.tokenProgramId
    requires accounts[2].owner == env.tokenProgramId && accounts[3].owner == env.tokenProgramId
    requires accounts[2].tokenUnpack.Success? && accounts[3].tokenUnpack.Success?
    requires accounts[2].tokenUnpack.value.owner == accounts[1].key
    requires accounts[3].tokenUnpack.value.owner == accounts[0].key
    requires accounts[2].tokenUnpack.value.mint != accounts[3].tokenUnpack.value.mint
    ensures WithdrawOutcome(env, programId, accounts, amount) == Halt([], InvalidAccountData)
  {
  }

  /** The owner of the state account is never checked: replacing it changes nothing. */
  lemma WithdrawIgnoresStateOwner(env: Env, programId: Pubkey, accounts: seq<AccountInfo>, amount: U64, owner: Pubkey)
    requires |accounts| >= ACCOUNTS
    ensures WithdrawOutcome(env, programId, accounts[1 := accounts[1].(owner := owner)], amount)
         == WithdrawOutcome(env, programId, accounts, amount)
  {
  }
}
