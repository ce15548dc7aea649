/** The instruction envelope: a four-variant enum in Borsh encoding (a one-byte
    variant index in declaration order, then the fields, integers
    little-endian), with the little-endian integer codec it rests on. */
module Instructions {
  import opened Base

  /** 256 to the power n. */
  function Pow256(n: nat): (p: nat)
    ensures p >= 1
  {
    if n == 0 then 1 else 256 * Pow256(n - 1)
  }

  lemma Pow256Eight()
    ensures Pow256(8) == 0x1_0000_0000_0000_0000
  {
  }

  /** The unsigned value of a little-endian byte string; it always fits in the string's width. */
  function FromLe(bs: seq<Byte>): (x: nat)
    ensures x < Pow256(|bs|)
  {
    if bs == [] then 0 else bs[0] + 256 * FromLe(bs[1..])
  }

  /** The `width`-byte little-endian representation of `x`; reading it back yields `x`. */
  function LeBytes(x: nat, width: nat): (bs: seq<Byte>)
    requires x < Pow256(width)
    ensures |bs| == width && FromLe(bs) == x
  {
    if width == 0 then []
    else
      var rest := LeBytes(x / 256, width - 1);
      assert ([x % 256] + rest)[1..] == rest;
      [x % 256] + rest
  }

  /** Every byte string is the representation of its own value: the codec is a bijection. */
  lemma {:induction false} LeBytesFromLe(bs: seq<Byte>)
    ensures LeBytes(FromLe(bs), |bs|) == bs
  {
    if bs != [] {
      LeBytesFromLe(bs[1..]);
      var x := FromLe(bs);
      assert x % 256 == bs[0] && x / 256 == FromLe(bs[1..]);
    }
  }

  datatype VaultInstruction =
    | Initialize(vaultBump: Byte, stateBump: Byte, isNative: bool)
    | Deposit(amount: U64)
    | Withdraw(amount: U64)
    | Close

  /** The Borsh variant index: declaration order. */
  function Tag(i: VaultInstruction): (t: Byte)
    ensures t < 4
    ensures t == 0 <==> i.Initialize?
    ensures t == 1 <==> i.Deposit?
    ensures t == 2 <==> i.Withdraw?
  {
    match i
    case Initialize(_, _, _) => 0
    case Deposit(_) => 1
    case Withdraw(_) => 2
    case Close => 3
  }

  /** Encoded length of the variant with index `tag`. */
  function WireLength(tag: Byte): nat
  {
    if tag == 0 then 4 else if tag == 1 || tag == 2 then 9 else 1
  }

  /** `borsh::to_vec(&instruction)`. */
  function Encode(i: VaultInstruction): (data: seq<Byte>)
    ensures |data| == WireLength(Tag(i)) && data[0] == Tag(i)
  {
    match i
    case Initialize(vaultBump, stateBump, isNative) =>
      [0, vaultBump, stateBump, if isNative then 1 else 0]
    case Deposit(amount) =>
      Pow256Eight();
      [1] + LeBytes(amount, 8)
    case Withdraw(amount) =>
      Pow256Eight();
      [2] + LeBytes(amount, 8)
    case Close =>
      [3]
  }

  /** `VaultInstruction::try_from_slice`: the input must be exactly one
      encoded instruction. Anything it accepts is the encoding of what it
      returns, so an unknown tag, a truncated body, a bad bool and trailing
      bytes are all rejected. */
  function Decode(data: seq<Byte>): (r: Result<VaultInstruction, ProgramError>)
    ensures r.Success? ==> Encode(r.value) == data
    ensures r.Failure? ==> r.error == BorshIoError
  {
    if |data| == 0 then Failure(BorshIoError)
    else if data[0] == 0 then
      if |data| != 4 || data[3] > 1 then Failure(BorshIoError)
      else Success(Initialize(data[1], data[2], data[3] == 1))
    else if data[0] == 1 || data[0] == 2 then
      if |data| != 9 then Failure(BorshIoError)
      else
        Pow256Eight();
        LeBytesFromLe(data[1..]);
        var amount := FromLe(data[1..]);
        assert data == [data[0]] + data[1..];
        Success(if data[0] == 1 then Deposit(amount) else Withdraw(amount))
    else if data[0] == 3 then
      if |data| != 1 then Failure(BorshIoError) else Success(Close)
    else Failure(BorshIoError)
  }

  /** Decoding undoes encoding, so the data built by a client for an
      instruction reaches the program as that same instruction. */
  lemma DecodeEncode(i: VaultInstruction)
    ensures Decode(Encode(i)) == Success(i)
  {
    var data := Encode(i);
    match i
    case Deposit(amount) =>
      Pow256Eight();
      assert data[1..] == LeBytes(amount, 8);
    case Withdraw(amount) =>
      Pow256Eight();
      assert data[1..] == LeBytes(amount, 8);
    case _ =>
  }

  /** Decode succeeds exactly on encodings. */
  lemma DecodeSucceedsIffEncoding(data: seq<Byte>)
    ensures Decode(data).Success? <==> exists i :: Encode(i) == data
  {
    if i :| Encode(i) == data {
      DecodeEncode(i);
    }
  }

  /** Exact byte layout of each variant. */
  lemma EncodeLayout(i: VaultInstruction)
    ensures i.Initialize? ==> Encode(i) == [0, i.vaultBump, i.stateBump, if i.isNative then 1 else 0]
    ensures i.Deposit? ==> Encode(i)[0] == 1 && FromLe(Encode(i)[1..]) == i.amount && |Encode(i)| == 9
    ensures i.Withdraw? ==> Encode(i)[0] == 2 && FromLe(Encode(i)[1..]) == i.amount && |Encode(i)| == 9
    ensures i.Close? ==> Encode(i) == [3]
  {
    if i.Deposit? || i.Withdraw? {
      Pow256Eight();
      assert Encode(i)[1..] == LeBytes(i.amount, 8);
    }
  }

  /** A first byte of 4 or more is not a variant index. */
  lemma DecodeRejectsUnknownTag(data: seq<Byte>)
    requires |data| > 0 && data[0] >= 4
    ensures Decode(data) == Failure(BorshIoError)
  {
  }

  /** An encoding followed by any further bytes is rejected. */
  lemma DecodeRejectsTrailingBytes(i: VaultInstruction, extra: seq<Byte>)
    requires extra != []
    ensures Decode(Encode(i) + extra).Failure?
  {
  }

  /** Any proper prefix of an encoding is rejected. */
  lemma DecodeRejectsTruncated(i: VaultInstruction, k: nat)
    requires k < |Encode(i)|
    ensures Decode(Encode(i)[..k]).Failure?
  {
  }
}
