/** The Close handler: the recorded authority empties and closes the holding
    account, then sweeps the state account's lamports back to itself. */
module CloseHandler {
  import opened Base
  import opened Runtime
  import State

  /** Number of accounts the handler takes off the account list. */
  const ACCOUNTS: nat := 6

  /** The checks common to both paths pass: enough accounts, the authority
      signed, the state data decodes, the signer is the recorded authority,
      account 2 is the recorded holding account, and the state account is
      owned by this program. */
  predicate CommonChecksPass(programId: Pubkey, accounts: seq<AccountInfo>)
  {
    && |accounts| >= ACCOUNTS
    && accounts[0].isSigner
    && State.Decode(accounts[1].data).Success?
    && accounts[0].key == State.Decode(accounts[1].data).value.authority
    && accounts[2].key == State.Decode(accounts[1].data).value.tokenAccount
    && accounts[1].owner == programId
  }

  /** The last call of every close: the state account's whole balance goes
      to the authority, signed with the "state" seeds and the recorded bump. */
  function SweepStateCall(authority: AccountInfo, vaultStatePda: AccountInfo, vault: State.VaultState): Call
  {
    SystemTransfer(vaultStatePda.key, authority.key, vaultStatePda.lamports,
                   [StateSigner(authority.key, vault.stateBump)])
  }

  /** What `close` does, given the account snapshots
      [authority, state, holding account, authority's receiving account, token program, system program]. */
  function CloseOutcome(env: Env, programId: Pubkey, accounts: seq<AccountInfo>): (x: Execution)
    ensures x.written == None
    ensures x.status.Fail? ==> x.issued == []
    ensures x.status.Pass? ==>
      && CommonChecksPass(programId, accounts) && |x.issued| == 2
      && x.issued[1] == SweepStateCall(accounts[0], accounts[1], State.Decode(accounts[1].data).value)
  {
    if |accounts| < ACCOUNTS then Halt([], NotEnoughAccountKeys)
    else CloseWith(env, programId, accounts[0], accounts[1], accounts[2], accounts[3], accounts[4], accounts[5])
  }

  /** The checks and the calls of `close` once the six accounts are bound to their roles. */
  function CloseWith(env: Env, programId: Pubkey, authority: AccountInfo, vaultStatePda: AccountInfo,
                     holding: AccountInfo, recipient: AccountInfo, tokenProgram: AccountInfo,
                     systemProgram: AccountInfo): (x: Execution)
    ensures x.written == None
    ensures x.status.Fail? ==> x.issued == []
    ensures x.status.Pass? ==>
      && authority.isSigner && State.Decode(vaultStatePda.data).Success?
      && authority.key == State.Decode(vaultStatePda.data).value.authority
      && holding.key == State.Decode(vaultStatePda.data).value.tokenAccount
      && vaultStatePda.owner == programId
      && |x.issued| == 2
      && x.issued[1] == SweepStateCall(authority, vaultStatePda, State.Decode(vaultStatePda.data).value)
  {
    if !authority.isSigner then Halt([], MissingRequiredSignature)
    else match State.Decode(vaultStatePda.data)
      case Failure(e) => Halt([], e)
      case Success(vault) =>
        var sweep := SweepStateCall(authority, vaultStatePda, vault);
        var vaultSigner := VaultSigner(vaultStatePda.key, vault.vaultBump);
        if vault.authority != authority.key then Halt([], IllegalOwner)
        else if holding.key != vault.tokenAccount then Halt([], InvalidAccountData)
        else if vaultStatePda.owner != programId then Halt([], InvalidAccountOwner)
        else if vault.isNative then
          if systemProgram.key != env.systemProgramId then Halt([], IncorrectProgramId)
          else if holding.owner != systemProgram.key then Halt([], InvalidAccountOwner)
          else Execution([SystemTransfer(holding.key, recipient.key, holding.lamports, [vaultSigner]), sweep], None, Pass)
        else match holding.tokenUnpack
          case Failure(e) => Halt([], e)
          case Success(holdingToken) =>
            if holdingToken.amount != 0 then Halt([], InvalidAccountData)
            else if tokenProgram.key != env.tokenProgramId then Halt([], IncorrectProgramId)
            else if systemProgram.key != env.systemProgramId then Halt([], IncorrectProgramId)
            else Execution([CloseAccount(tokenProgram.key, holding.key, authority.key, vaultStatePda.key, [vaultSigner]), sweep],
                           None, Pass)
  }

  /** `close`: bind the six accounts through the iterator, then run the handler body. */
  method Close(env: Env, programId: Pubkey, accounts: seq<AccountInfo>) returns (x: Execution)
    ensures x == CloseOutcome(env, programId, accounts)
  {
    var cursor := new AccountCursor(accounts);
    var next := cursor.Next();
    if next.Failure? { return Halt([], next.error); }
    var authority := next.value;
    next := cursor.Next();
    if next.Failure? { return Halt([], next.error); }
    var vaultStatePda := next.value;
    next := cursor.Next();
    if next.Failure? { return Halt([], next.error); }
    var holding := next.value;
    next := cursor.Next();
    if next.Failure? { return Halt([], next.error); }
    var recipient := next.value;
    next := cursor.Next();
    if next.Failure? { return Halt([], next.error); }
    var tokenProgram := next.value;
    next := cursor.Next();
    if next.Failure? { return Halt([], next.error); }
    var systemProgram := next.value;
    assert accounts[..ACCOUNTS] == [authority, vaultStatePda, holding, recipient, tokenProgram, systemProgram];
    x := CloseRoles(env, programId, authority, vaultStatePda, holding, recipient, tokenProgram, systemProgram);
  }

  /** The body of `close` after the accounts are bound: run the checks, then
      empty the holding account and sweep the state account. */
  method CloseRoles(env: Env, programId: Pubkey, authority: AccountInfo, vaultStatePda: AccountInfo,
                    holding: AccountInfo, recipient: AccountInfo, tokenProgram: AccountInfo,
                    systemProgram: AccountInfo) returns (x: Execution)
    ensures x == CloseWith(env, programId, authority, vaultStatePda, holding, recipient, tokenProgram, systemProgram)
  {
    var log := new CallLog();
    if !authority.isSigner {
      return Halt(log.calls, MissingRequiredSignature);
    }
    var decoded := State.Decode(vaultStatePda.data);
    if decoded.Failure? {
      return Halt(log.calls, decoded.error);
    }
    var vault := decoded.value;
    if vault.authority != authority.key {
      return Halt(log.calls, IllegalOwner);
    }
    if holding.key != vault.tokenAccount {
      return Halt(log.calls, InvalidAccountData);
    }
    if vaultStatePda.owner != programId {
      return Halt(log.calls, InvalidAccountOwner);
    }

    if vault.isNative {
      if systemProgram.key != env.systemProgramId {
        return Halt(log.calls, IncorrectProgramId);
      }
      if holding.owner != systemProgram.key {
        return Halt(log.calls, InvalidAccountOwner);
      }
      log.Invoke(SystemTransfer(holding.key, recipient.key, holding.lamports,
                                [VaultSigner(vaultStatePda.key, vault.vaultBump)]));
      log.Invoke(SweepStateCall(authority, vaultStatePda, vault));
    } else {
      if holding.tokenUnpack.Failure? {
        return Halt(log.calls, holding.tokenUnpack.error);
      }
      if holding.tokenUnpack.value.amount != 0 {
        return Halt(log.calls, InvalidAccountData);
      }
      if tokenProgram.key != env.tokenProgramId {
        return Halt(log.calls, IncorrectProgramId);
      }
      if systemProgram.key != env.systemProgramId {
        return Halt(log.calls, IncorrectProgramId);
      }
      log.Invoke(CloseAccount(tokenProgram.key, holding.key, authority.key, vaultStatePda.key,
                              [VaultSigner(vaultStatePda.key, vault.vaultBump)]));
      log.Invoke(SweepStateCall(authority, vaultStatePda, vault));
    }
    x := Execution(log.calls, None, Pass);
  }

  /** The common checks run in source order; the state account's owner is
      checked only after the signer, the record and the holding key. */
  lemma CloseCheckOrder(env: Env, programId: Pubkey, accounts: seq<AccountInfo>)
    ensures var x := CloseOutcome(env, programId, accounts);
      && (|accounts| < ACCOUNTS ==> x == Halt([], NotEnoughAccountKeys))
      && (|accounts| >= ACCOUNTS && !accounts[0].isSigner ==> x == Halt([], MissingRequiredSignature))
      && (|accounts| >= ACCOUNTS && accounts[0].isSigner && State.Decode(accounts[1].data).Failure?
          ==> x == Halt([], BorshIoError))
      && (|accounts| >= ACCOUNTS && accounts[0].isSigner && State.Decode(accounts[1].data).Success?
          && accounts[0].key != State.Decode(accounts[1].data).value.authority
          ==> x == Halt([], IllegalOwner))
      && (|accounts| >= ACCOUNTS && accounts[0].isSigner && State.Decode(accounts[1].data).Success?
          && accounts[0].key == State.Decode(accounts[1].data).value.authority
          && accounts[2].key != State.Decode(accounts[1].data).value.tokenAccount
          ==> x == Halt([], InvalidAccountData))
      && (|accounts| >= ACCOUNTS && accounts[0].isSigner && State.Decode(accounts[1].data).Success?
          && accounts[0].key == State.Decode(accounts[1].data).value.authority
          && accounts[2].key == State.Decode(accounts[1].data).value.tokenAccount
          && accounts[1].owner != programId
          ==> x == Halt([], InvalidAccountOwner))
  {
  }

  /** Only a state account owned by this program can be closed, whoever signs. */
  lemma CloseRequiresStateOwnership(env: Env, programId: Pubkey, accounts: seq<AccountInfo>)
    requires |accounts| >= ACCOUNTS && accounts[1].owner != programId
    ensures CloseOutcome(env, programId, accounts).status.Fail?
    ensures CloseOutcome(env, programId, accounts).Committed() == []
  {
  }

  /** Native vault: the holding account must be system-owned; its whole
      balance goes to account 3 signed with the "vault" seeds, then the state
      account's whole balance goes to the authority. */
  lemma CloseNativePath(env: Env, programId: Pubkey, accounts: seq<AccountInfo>)
    requires CommonChecksPass(programId, accounts) && State.Decode(accounts[1].data).value.isNative
    ensures var x := CloseOutcome(env, programId, accounts);
      var vault := State.Decode(accounts[1].data).value;
      && (accounts[5].key != env.systemProgramId ==> x == Halt([], IncorrectProgramId))
      && (accounts[5].key == env.systemProgramId && accounts[2].owner != accounts[5].key
          ==> x == Halt([], InvalidAccountOwner))
      && (x.status.Pass? <==> accounts[5].key == env.systemProgramId && accounts[2].owner == env.systemProgramId)
      && (x.status.Pass? ==>
            x.issued == [SystemTransfer(accounts[2].key, accounts[3].key, accounts[2].lamports,
                                        [[VAULT_SEED, accounts[1].key, [vault.vaultBump]]]),
                         SystemTransfer(accounts[1].key, accounts[0].key, accounts[1].lamports,
                                        [[STATE_SEED, accounts[0].key, [vault.stateBump]]])])
  {
  }

  /** Token vault: a holding account that still holds tokens is refused with
      `InvalidAccountData` before either program id is looked at; an empty
      one is closed to the authority, with the state account named as its
      authority, and the state account is swept. */
  lemma CloseTokenPath(env: Env, programId: Pubkey, accounts: seq<AccountInfo>)
    requires CommonChecksPass(programId, accounts) && !State.Decode(accounts[1].data).value.isNative
    ensures var x := CloseOutcome(env, programId, accounts);
      var vault := State.Decode(accounts[1].data).value;
      var holding := accounts[2];
      && (holding.tokenUnpack.Failure? ==> x == Halt([], holding.tokenUnpack.error))
      && (holding.tokenUnpack.Success? && holding.tokenUnpack.value.amount != 0 ==> x == Halt([], InvalidAccountData))
      && (holding.tokenUnpack.Success? && holding.tokenUnpack.value.amount == 0
          && (accounts[4].key != env.tokenProgramId || accounts[5].key != env.systemProgramId)
          ==> x == Halt([], IncorrectProgramId))
      && (x.status.Pass? <==>
            && holding.tokenUnpack.Success? && holding.tokenUnpack.value.amount == 0
            && accounts[4].key == env.tokenProgramId && accounts[5].key == env.systemProgramId)
      && (x.status.Pass? ==>
            x.issued == [CloseAccount(accounts[4].key, holding.key, accounts[0].key, accounts[1].key,
                                      [[VAULT_SEED, accounts[1].key, [vault.vaultBump]]]),
                         SystemTransfer(accounts[1].key, accounts[0].key, accounts[1].lamports,
                                        [[STATE_SEED, accounts[0].key, [vault.stateBump]]])])
  {
  }
}
