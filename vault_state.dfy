/** The persisted vault record and its Borsh layout: three 32-byte keys followed
    by the state bump, the vault bump and the native flag, 99 bytes in all,
    with no padding and no version field. */
module State {
  import opened Base

  datatype VaultState = VaultState(
    authority: Pubkey,     // who controls the vault
    tokenMint: Pubkey,     // the token mint (a placeholder for a native vault)
    tokenAccount: Pubkey,  // the account that holds the vault's balance
    stateBump: Byte,
    vaultBump: Byte,
    isNative: bool)

  /** `VaultState::space()`: the size of the encoded record. */
  function Space(): (n: nat)
    ensures n == 99
  {
    32 + 32 + 32 + 1 + 1 + 1
  }

  /** A Borsh `bool`. */
  function BoolByte(b: bool): Byte { if b then 1 else 0 }

  /** Borsh serialisation, fields in declaration order. */
  function Encode(s: VaultState): (data: seq<Byte>)
    ensures |data| == Space()
    ensures data[..32] == s.authority && data[32..64] == s.tokenMint && data[64..96] == s.tokenAccount
    ensures data[96] == s.stateBump && data[97] == s.vaultBump
    ensures data[98] == BoolByte(s.isNative)
  {
    s.authority + s.tokenMint + s.tokenAccount + [s.stateBump, s.vaultBump, BoolByte(s.isNative)]
  }

  /** `VaultState::try_from_slice`: fails unless the buffer is exactly one
      record long (short input and trailing bytes are both errors) and its
      last byte is a valid Borsh bool. Whatever it accepts is the encoding of
      what it returns. */
  function Decode(data: seq<Byte>): (r: Result<VaultState, ProgramError>)
    ensures r.Success? <==> |data| == Space() && data[98] <= 1
    ensures r.Failure? ==> r.error == BorshIoError
    ensures r.Success? ==> Encode(r.value) == data
  {
    if |data| != Space() || data[98] > 1 then
      Failure(BorshIoError)
    else
      var s := VaultState(data[..32], data[32..64], data[64..96], data[96], data[97], data[98] == 1);
      assert Encode(s) == data by {
        assert data == data[..32] + data[32..64] + data[64..96] + [data[96], data[97], data[98]];
      }
      Success(s)
  }

  /** Decoding undoes encoding. */
  lemma DecodeEncode(s: VaultState)
    ensures Decode(Encode(s)) == Success(s)
  {
    var data := Encode(s);
    assert data[98] == BoolByte(s.isNative);
  }

  /** `vault_state_data.serialize(&mut account_data)`: write the record into
      the account's buffer front to back, as Borsh does through `Write` for
      `&mut [u8]`. A buffer shorter than the record receives the prefix that
      fits and the write fails; bytes past the record are left alone. */
  method SerializeInto(s: VaultState, buffer: array<Byte>) returns (status: Result<(), ProgramError>)
    modifies buffer
    ensures status == if buffer.Length >= Space() then Success(()) else Failure(BorshIoError)
    ensures buffer.Length >= Space() ==> buffer[..Space()] == Encode(s)
    ensures buffer.Length < Space() ==> buffer[..] == Encode(s)[..buffer.Length]
    ensures buffer.Length >= Space() ==> buffer[Space()..] == old(buffer[Space()..])
  {
    var bytes := Encode(s);
    var i := 0;
    while i < |bytes| && i < buffer.Length
      invariant 0 <= i <= |bytes| && i <= buffer.Length
      invariant buffer[..i] == bytes[..i]
      invariant forall k :: i <= k < buffer.Length ==> buffer[k] == old(buffer[k])
    {
      buffer[i] := bytes[i];
      i := i + 1;
    }
    if i < |bytes| {
      status := Failure(BorshIoError);
    } else {
      status := Success(());
    }
  }
}
