/** The program's view of the host ledger: account snapshots, the configuration
    the program takes from its environment (fixed program ids, address
    derivation, rent), the cross-program calls a handler issues, and the two
    pieces of mutable machinery every handler drives: the account iterator and
    the log of invoked calls. */
module Runtime {
  import opened Base

  /** A seed list for program-address derivation or for `invoke_signed`. */
  type Seeds = seq<seq<Byte>>

  /** The decoded content of a token account (owner, mint, balance). */
  datatype TokenView = TokenView(mint: Pubkey, owner: Pubkey, amount: U64)

  /** A snapshot of one `AccountInfo` as the handler sees it. `tokenUnpack` is
      what the token program's `Account::unpack` yields on this account's data:
      the decoded view, or the error unpacking reports. */
  datatype AccountInfo = AccountInfo(
    key: Pubkey,
    isSigner: bool,
    owner: Pubkey,
    lamports: U64,
    data: seq<Byte>,
    tokenUnpack: Result<TokenView, ProgramError>)

  /** Everything the program takes from outside its own code: the fixed ids of
      the system, token and associated-token programs, `find_program_address`
      (only the address is used), `get_associated_token_address(owner, mint)`,
      and rent's `minimum_balance(size)`. They are deterministic and otherwise
      unconstrained. */
  datatype Env = Env(
    systemProgramId: Pubkey,
    tokenProgramId: Pubkey,
    associatedTokenProgramId: Pubkey,
    findProgramAddress: (Seeds, Pubkey) -> Pubkey,
    associatedTokenAddress: (Pubkey, Pubkey) -> Pubkey,
    minimumBalance: nat -> U64)

  /** The byte strings b"state" and b"vault". */
  const STATE_SEED: seq<Byte> := [115, 116, 97, 116, 101]
  const VAULT_SEED: seq<Byte> := [118, 97, 117, 108, 116]

  /** Seeds (without bump) of the state address of `authority`. */
  function StateAddressSeeds(authority: Pubkey): Seeds { [STATE_SEED, authority] }

  /** Seeds (without bump) of the native holding address of the state account `state`. */
  function VaultAddressSeeds(state: Pubkey): Seeds { [VAULT_SEED, state] }

  /** Signer seeds ["state", authority, [bump]]. */
  function StateSigner(authority: Pubkey, bump: Byte): Seeds { [STATE_SEED, authority, [bump]] }

  /** Signer seeds ["vault", state, [bump]]. */
  function VaultSigner(state: Pubkey, bump: Byte): Seeds { [VAULT_SEED, state, [bump]] }

  /** A cross-program invocation. `signers` lists the seed sets handed to
      `invoke_signed`; a plain `invoke` has none. */
  datatype Call =
    | CreateAccount(payer: Pubkey, newAccount: Pubkey, lamports: U64, space: U64, owner: Pubkey, signers: seq<Seeds>)
    | CreateAssociatedTokenAccount(payer: Pubkey, wallet: Pubkey, mint: Pubkey, tokenProgram: Pubkey)
    | SystemTransfer(from: Pubkey, to: Pubkey, lamports: U64, signers: seq<Seeds>)
    | TokenTransfer(tokenProgram: Pubkey, source: Pubkey, destination: Pubkey, authority: Pubkey, amount: U64, signers: seq<Seeds>)
    | CloseAccount(tokenProgram: Pubkey, account: Pubkey, destination: Pubkey, authority: Pubkey, signers: seq<Seeds>)

  datatype Status = Pass | Fail(error: ProgramError)

  /** What one handler run did: the calls it issued, in order, the bytes it
      wrote into the state account (if it wrote any) and how it returned.
      On `Fail` the host rolls the whole transaction back, so the calls issued
      before the error never take effect. */
  datatype Execution = Execution(issued: seq<Call>, written: Option<seq<Byte>>, status: Status) {
    /** The calls that take effect once the host applies atomicity. */
    function Committed(): seq<Call> {
      if status.Pass? then issued else []
    }
  }

  /** A run that returned `error` after issuing `issued`. */
  function Halt(issued: seq<Call>, error: ProgramError): Execution {
    Execution(issued, None, Fail(error))
  }

  /** A `&mut accounts.iter()` over the instruction's account list. */
  class AccountCursor {
    const accounts: seq<AccountInfo>
    var position: nat

    ghost predicate Valid()
      reads this
    {
      position <= |accounts|
    }

    constructor (accounts: seq<AccountInfo>)
      ensures Valid() && this.accounts == accounts && position == 0
    {
      this.accounts := accounts;
      position := 0;
    }

    /** `next_account_info`: the next account, or `NotEnoughAccountKeys` once the list is used up. */
    method Next() returns (r: Result<AccountInfo, ProgramError>)
      requires Valid()
      modifies this
      ensures Valid()
      ensures old(position) < |accounts| ==> r == Success(accounts[old(position)]) && position == old(position) + 1
      ensures old(position) == |accounts| ==> r == Failure(NotEnoughAccountKeys) && position == old(position)
    {
      if position < |accounts| {
        r := Success(accounts[position]);
        position := position + 1;
      } else {
        r := Failure(NotEnoughAccountKeys);
      }
    }
  }

  /** The calls a handler has handed to `invoke`/`invoke_signed` so far. The
      called programs' own behaviour is not modelled: a call is recorded and
      assumed to return. */
  class CallLog {
    var calls: seq<Call>

    constructor ()
      ensures calls == []
    {
      calls := [];
    }

    method Invoke(c: Call)
      modifies this
      ensures calls == old(calls) + [c]
    {
      calls := calls + [c];
    }
  }
}
