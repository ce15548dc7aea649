/** The Initialize handler: create the state account at the authority's derived
    address, create the holding account (an associated token account owned by
    the state account, or a zero-size system account at the derived "vault"
    address), then write the vault record into the state account. */
module InitializeHandler {
  import opened Base
  import opened Runtime
  import State

  /** Number of accounts the handler takes off the account list. */
  const ACCOUNTS: nat := 7

  /** The first call: create the 99-byte state account owned by the program,
      paid by the authority, signed with the state seeds. */
  function CreateStateCall(env: Env, programId: Pubkey, authority: Pubkey, vaultState: Pubkey, stateBump: Byte): Call
  {
    CreateAccount(authority, vaultState, env.minimumBalance(State.Space()), State.Space(),
                  programId, [StateSigner(authority, stateBump)])
  }

  /** What `initialize` does, given the account snapshots
      [authority, state, mint, holding, token program, system program, associated-token program]. */
  function InitializeOutcome(env: Env, programId: Pubkey, accounts: seq<AccountInfo>,
                             vaultBump: Byte, stateBump: Byte, isNative: bool): (x: Execution)
    ensures x.status.Pass? ==> |accounts| >= ACCOUNTS
    ensures x.status.Pass? ==>
      x.written == Some(State.Encode(State.VaultState(accounts[0].key, accounts[2].key, accounts[3].key,
                                                      stateBump, vaultBump, isNative)))
    ensures x.status.Fail? ==> x.written == None
    ensures x.status.Pass? ==> |x.issued| == 2
  {
    if |accounts| < ACCOUNTS then Halt([], NotEnoughAccountKeys)
    else InitializeWith(env, programId, accounts[0], accounts[1], accounts[2], accounts[3], accounts[4], accounts[5],
                        accounts[6], vaultBump, stateBump, isNative)
  }

  /** The checks and calls of `initialize` once the seven accounts are bound to their roles. */
  function InitializeWith(env: Env, programId: Pubkey,
                          authority: AccountInfo, vaultState: AccountInfo, tokenMint: AccountInfo,
                          tokenAccount: AccountInfo, tokenProgram: AccountInfo, systemProgram: AccountInfo,
                          associatedTokenProgram: AccountInfo,
                          vaultBump: Byte, stateBump: Byte, isNative: bool): (x: Execution)
    ensures x.status.Pass? ==>
      x.written == Some(State.Encode(State.VaultState(authority.key, tokenMint.key, tokenAccount.key,
                                                      stateBump, vaultBump, isNative)))
    ensures x.status.Fail? ==> x.written == None
    ensures x.status.Pass? ==> |x.issued| == 2
  {
    if !authority.isSigner then Halt([], MissingRequiredSignature)
    else if vaultState.key != env.findProgramAddress(StateAddressSeeds(authority.key), programId) then
      Halt([], InvalidAccountData)
    else if |vaultState.data| > 0 || vaultState.owner == programId then
      Halt([], AccountAlreadyInitialized)
    else
      var created := [CreateStateCall(env, programId, authority.key, vaultState.key, stateBump)];
      var written := Some(State.Encode(State.VaultState(authority.key, tokenMint.key, tokenAccount.key,
                                                        stateBump, vaultBump, isNative)));
      if !isNative then
        if tokenProgram.key != env.tokenProgramId then Halt(created, IncorrectProgramId)
        else if associatedTokenProgram.key != env.associatedTokenProgramId then Halt(created, IncorrectProgramId)
        else if tokenAccount.key != env.associatedTokenAddress(vaultState.key, tokenMint.key) then
          Halt(created, InvalidAccountData)
        else
          Execution(created + [CreateAssociatedTokenAccount(authority.key, vaultState.key, tokenMint.key, tokenProgram.key)],
                    written, Pass)
      else
        if tokenAccount.key != env.findProgramAddress(VaultAddressSeeds(vaultState.key), programId) then
          Halt(created, InvalidAccountData)
        else
          Execution(created + [CreateAccount(authority.key, tokenAccount.key, env.minimumBalance(0), 0,
                                             systemProgram.key, [VaultSigner(vaultState.key, vaultBump)])],
                    written, Pass)
  }

  /** `initialize`: bind the seven accounts through the iterator, then run the handler body. */
  method Initialize(env: Env, programId: Pubkey, accounts: seq<AccountInfo>,
                    vaultBump: Byte, stateBump: Byte, isNative: bool) returns (x: Execution)
    ensures x == InitializeOutcome(env, programId, accounts, vaultBump, stateBump, isNative)
  {
    var cursor := new AccountCursor(accounts);
    var next := cursor.Next();
    if next.Failure? { return Halt([], next.error); }
    var authority := next.value;
    next := cursor.Next();
    if next.Failure? { return Halt([], next.error); }
    var vaultState := next.value;
    next := cursor.Next();
    if next.Failure? { return Halt([], next.error); }
    var tokenMint := next.value;
    next := cursor.Next();
    if next.Failure? { return Halt([], next.error); }
    var tokenAccount := next.value;
    next := cursor.Next();
    if next.Failure? { return Halt([], next.error); }
    var tokenProgram := next.value;
    next := cursor.Next();
    if next.Failure? { return Halt([], next.error); }
    var systemProgram := next.value;
    next := cursor.Next();
    if next.Failure? { return Halt([], next.error); }
    var associatedTokenProgram := next.value;
    assert accounts[..ACCOUNTS] == [authority, vaultState, tokenMint, tokenAccount,
                                    tokenProgram, systemProgram, associatedTokenProgram];
    x := InitializeRoles(env, programId, authority, vaultState, tokenMint, tokenAccount, tokenProgram,
                         systemProgram, associatedTokenProgram, vaultBump, stateBump, isNative);
  }

  /** The body of `initialize` after the accounts are bound: run the checks,
      issue the calls, and serialise the record into the storage that the
      state account receives from its creation. */
  method InitializeRoles(env: Env, programId: Pubkey,
                         authority: AccountInfo, vaultState: AccountInfo, tokenMint: AccountInfo,
                         tokenAccount: AccountInfo, tokenProgram: AccountInfo, systemProgram: AccountInfo,
                         associatedTokenProgram: AccountInfo,
                         vaultBump: Byte, stateBump: Byte, isNative: bool) returns (x: Execution)
    ensures x == InitializeWith(env, programId, authority, vaultState, tokenMint, tokenAccount, tokenProgram,
                                systemProgram, associatedTokenProgram, vaultBump, stateBump, isNative)
  {
    var log := new CallLog();
    if !authority.isSigner {
      return Halt(log.calls, MissingRequiredSignature);
    }
    var expectedState := env.findProgramAddress(StateAddressSeeds(authority.key), programId);
    if vaultState.key != expectedState {
      return Halt(log.calls, InvalidAccountData);
    }
    if |vaultState.data| > 0 || vaultState.owner == programId {
      return Halt(log.calls, AccountAlreadyInitialized);
    }

    var space := State.Space();
    log.Invoke(CreateAccount(authority.key, vaultState.key, env.minimumBalance(space), space,
                             programId, [StateSigner(authority.key, stateBump)]));

    if !isNative {
      if tokenProgram.key != env.tokenProgramId {
        return Halt(log.calls, IncorrectProgramId);
      }
      if associatedTokenProgram.key != env.associatedTokenProgramId {
        return Halt(log.calls, IncorrectProgramId);
      }
      var expectedAta := env.associatedTokenAddress(vaultState.key, tokenMint.key);
      if tokenAccount.key != expectedAta {
        return Halt(log.calls, InvalidAccountData);
      }
      log.Invoke(CreateAssociatedTokenAccount(authority.key, vaultState.key, tokenMint.key, tokenProgram.key));
    } else {
      var vaultAccount := env.findProgramAddress(VaultAddressSeeds(vaultState.key), programId);
      if tokenAccount.key != vaultAccount {
        return Halt(log.calls, InvalidAccountData);
      }
      log.Invoke(CreateAccount(authority.key, tokenAccount.key, env.minimumBalance(0), 0,
                               systemProgram.key, [VaultSigner(vaultState.key, vaultBump)]));
    }

    var record := State.VaultState(authority.key, tokenMint.key, tokenAccount.key, stateBump, vaultBump, isNative);
    var written := WriteRecord(record);
    x := Execution(log.calls, Some(written), Pass);
  }

  /** Serialise the record into the state account's storage, which its
      creation sized to exactly one record, so the write cannot run short. */
  method WriteRecord(record: State.VaultState) returns (written: seq<Byte>)
    ensures written == State.Encode(record)
  {
    var storage := new Byte[State.Space()];
    var status := State.SerializeInto(record, storage);
    assert storage[..] == storage[..State.Space()];
    written := storage[..];
  }

  /** The checks run in source order and the first failure decides the
      error; the first three fail before anything is issued. */
  lemma InitializeCheckOrder(env: Env, programId: Pubkey, accounts: seq<AccountInfo>,
                             vaultBump: Byte, stateBump: Byte, isNative: bool)
    ensures var x := InitializeOutcome(env, programId, accounts, vaultBump, stateBump, isNative);
      && (|accounts| < ACCOUNTS ==> x == Halt([], NotEnoughAccountKeys))
      && (|accounts| >= ACCOUNTS && !accounts[0].isSigner ==> x == Halt([], MissingRequiredSignature))
      && (|accounts| >= ACCOUNTS && accounts[0].isSigner
          && accounts[1].key != env.findProgramAddress(StateAddressSeeds(accounts[0].key), programId)
          ==> x == Halt([], InvalidAccountData))
      && (|accounts| >= ACCOUNTS && accounts[0].isSigner
          && accounts[1].key == env.findProgramAddress(StateAddressSeeds(accounts[0].key), programId)
          && (|accounts[1].data| > 0 || accounts[1].owner == programId)
          ==> x == Halt([], AccountAlreadyInitialized))
  {
  }

  /** The predicate of the first three checks. */
  predicate StateChecksPass(env: Env, programId: Pubkey, accounts: seq<AccountInfo>)
  {
    && |accounts| >= ACCOUNTS
    && accounts[0].isSigner
    && accounts[1].key == env.findProgramAddress(StateAddressSeeds(accounts[0].key), programId)
    && |accounts[1].data| == 0 && accounts[1].owner != programId
  }

  /** Once the state checks pass, the state account is created first, before
      the asset-kind checks, whether or not those later checks pass (on
      failure the host rolls the creation back). */
  lemma InitializeCreatesStateFirst(env: Env, programId: Pubkey, accounts: seq<AccountInfo>,
                                    vaultBump: Byte, stateBump: Byte, isNative: bool)
    requires StateChecksPass(env, programId, accounts)
    ensures var x := InitializeOutcome(env, programId, accounts, vaultBump, stateBump, isNative);
      |x.issued| >= 1 && x.issued[0] == CreateStateCall(env, programId, accounts[0].key, accounts[1].key, stateBump)
      && x.issued[0].space == 99 && x.issued[0].owner == programId && x.issued[0].payer == accounts[0].key
      && x.issued[0].signers == [[STATE_SEED, accounts[0].key, [stateBump]]]
  {
  }

  /** Token path: program-id checks, then the associated-token address check,
      then creation of the holding account with the state account as its wallet. */
  lemma InitializeTokenPath(env: Env, programId: Pubkey, accounts: seq<AccountInfo>, vaultBump: Byte, stateBump: Byte)
    requires StateChecksPass(env, programId, accounts)
    ensures var x := InitializeOutcome(env, programId, accounts, vaultBump, stateBump, false);
      var created := [CreateStateCall(env, programId, accounts[0].key, accounts[1].key, stateBump)];
      && (accounts[4].key != env.tokenProgramId ==> x == Halt(created, IncorrectProgramId))
      && (accounts[4].key == env.tokenProgramId && accounts[6].key != env.associatedTokenProgramId
          ==> x == Halt(created, IncorrectProgramId))
      && (accounts[4].key == env.tokenProgramId && accounts[6].key == env.associatedTokenProgramId
          && accounts[3].key != env.associatedTokenAddress(accounts[1].key, accounts[2].key)
          ==> x == Halt(created, InvalidAccountData))
      && (x.status.Pass? <==>
            accounts[4].key == env.tokenProgramId && accounts[6].key == env.associatedTokenProgramId
            && accounts[3].key == env.associatedTokenAddress(accounts[1].key, accounts[2].key))
      && (x.status.Pass? ==>
            x.issued == created + [CreateAssociatedTokenAccount(accounts[0].key, accounts[1].key, accounts[2].key, accounts[4].key)])
  {
  }

  /** Native path: only the holding address is checked (the system-program
      account is not), then a zero-size account owned by the supplied system
      program account is created, signed with the vault seeds and the
      caller-supplied vault bump. */
  lemma InitializeNativePath(env: Env, programId: Pubkey, accounts: seq<AccountInfo>, vaultBump: Byte, stateBump: Byte)
    requires StateChecksPass(env, programId, accounts)
    ensures var x := InitializeOutcome(env, programId, accounts, vaultBump, stateBump, true);
      var created := [CreateStateCall(env, programId, accounts[0].key, accounts[1].key, stateBump)];
      var holding := env.findProgramAddress(VaultAddressSeeds(accounts[1].key), programId);
      && (accounts[3].key != holding ==> x == Halt(created, InvalidAccountData))
      && (x.status.Pass? <==> accounts[3].key == holding)
      && (x.status.Pass? ==>
            x.issued == created + [CreateAccount(accounts[0].key, holding, env.minimumBalance(0), 0,
                                                 accounts[5].key, [[VAULT_SEED, accounts[1].key, [vaultBump]]])])
  {
  }

  /** On success the state account sits at the authority's derived address and
      its data decodes to the record naming the authority, the mint, the
      holding account and both bumps; the holding account is the one
      re-derivable from the state address (and mint, for a token vault). */
  lemma InitializeWritesRecord(env: Env, programId: Pubkey, accounts: seq<AccountInfo>,
                               vaultBump: Byte, stateBump: Byte, isNative: bool)
    requires InitializeOutcome(env, programId, accounts, vaultBump, stateBump, isNative).status.Pass?
    ensures var x := InitializeOutcome(env, programId, accounts, vaultBump, stateBump, isNative);
      && x.written.Some? && |x.written.value| == State.Space()
      && accounts[1].key == env.findProgramAddress(StateAddressSeeds(accounts[0].key), programId)
      && State.Decode(x.written.value) == Success(State.VaultState(accounts[0].key, accounts[2].key, accounts[3].key,
                                                                    stateBump, vaultBump, isNative))
      && accounts[3].key == (if isNative then env.findProgramAddress(VaultAddressSeeds(accounts[1].key), programId)
                             else env.associatedTokenAddress(accounts[1].key, accounts[2].key))
  {
    State.DecodeEncode(State.VaultState(accounts[0].key, accounts[2].key, accounts[3].key, stateBump, vaultBump, isNative));
  }
}
