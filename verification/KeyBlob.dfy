/** The keymaster's key blob: a four-byte big-endian version followed by the 32-byte key ID;
    and the big-endian public exponent of key generation. */
module KeyBlob {
  import opened Options

  type Byte = n: nat | n < 256

  const ID_LENGTH := 32
  const KEY_VERSION := 1
  const VERSION_BYTES: seq<Byte> := [0, 0, 0, 1]

  // ---------- big-endian numbers ----------

  /** The number that a sequence of bytes, most significant first, stands for. */
  function Number(s: seq<Byte>): nat {
    if s == [] then 0 else 256 * Number(s[..|s| - 1]) + s[|s| - 1]
  }

  function Power(n: nat): nat { if n == 0 then 1 else 256 * Power(n - 1) }

  lemma {:induction false} NumberBound(s: seq<Byte>)
    ensures Number(s) < Power(|s|)
  {
    if s != [] { NumberBound(s[..|s| - 1]); }
  }

  lemma LastByte(high: nat, low: Byte)
    ensures (256 * high + low) % 256 == low && (256 * high + low) / 256 == high
  {
  }

  /** Byte strings of one length stand for different numbers. */
  lemma {:induction false} NumberIsInjective(s: seq<Byte>, t: seq<Byte>)
    requires |s| == |t| && Number(s) == Number(t)
    ensures s == t
  {
    if s != [] {
      var s', t' := s[..|s| - 1], t[..|t| - 1];
      LastByte(Number(s'), s[|s| - 1]);
      LastByte(Number(t'), t[|t| - 1]);
      NumberIsInjective(s', t');
      assert s == s' + [s[|s| - 1]] && t == t' + [t[|t| - 1]];
    }
  }

  lemma {:induction false} NumberOfTail(s: seq<Byte>)
    requires s != []
    ensures Number(s) == s[0] * Power(|s| - 1) + Number(s[1..])
  {
    if |s| > 1 {
      var init := s[..|s| - 1];
      NumberOfTail(init);
      assert init[1..] == s[1..][..|s| - 2] && s[1..][|s| - 2] == s[|s| - 1];
      assert Number(s) == 256 * (s[0] * Power(|s| - 2) + Number(init[1..])) + s[|s| - 1];
      assert 256 * (s[0] * Power(|s| - 2)) == s[0] * Power(|s| - 1);
    } else {
      assert s[..0] == [] && s[1..] == [];
    }
  }

  /** The public exponent as eight bytes, most significant first, filled from the end. */
  method EncodeExponent(exponent: nat) returns (bytes: array<Byte>)
    requires exponent < 0x1_0000_0000_0000_0000
    ensures bytes.Length == 8 && Number(bytes[..]) == exponent
  {
    bytes := new Byte[8](_ => 0);
    var rest: nat := exponent;
    var i := 0;
    while i < 8
      invariant 0 <= i <= 8
      invariant exponent == rest * Power(i) + Number(bytes[8 - i..])
    {
      ghost var was := bytes[8 - i..];
      var low := rest % 256;
      bytes[7 - i] := low;
      assert bytes[7 - i..][1..] == was;
      NumberOfTail(bytes[7 - i..]);
      SplitPower(rest / 256, low, i);
      rest := rest / 256;
      i := i + 1;
    }
    assert bytes[0..] == bytes[..];
    NothingLeft(rest, Number(bytes[..]));
  }

  lemma NothingLeft(rest: nat, low: nat)
    requires rest * Power(8) + low < 0x1_0000_0000_0000_0000
    ensures rest == 0
  {
    PowerOfEight();
  }

  lemma SplitPower(high: nat, low: nat, i: nat)
    ensures (256 * high + low) * Power(i) == high * Power(i + 1) + low * Power(i)
  {
    assert Power(i + 1) == 256 * Power(i);
    assert (256 * high) * Power(i) == high * (256 * Power(i));
  }

  lemma PowerIsLarge(n: nat)
    ensures if n == 0 then Power(n) == 1 else Power(n) >= 256
  {
    if n > 1 { PowerIsLarge(n - 1); }
  }

  lemma PowerOfEight()
    ensures Power(8) == 0x1_0000_0000_0000_0000
  {
    assert Power(4) == 0x1_0000_0000;
    assert Power(6) == 256 * 256 * Power(4);
  }

  // ---------- the blob ----------

  function Encode(id: seq<Byte>): seq<Byte> { VERSION_BYTES + id }

  /** The ID that a blob names, if its length and version are right.  Bytes after the ID are
      ignored. */
  function DecodeId(blob: seq<Byte>): Option<seq<Byte>> {
    if |blob| >= 4 + ID_LENGTH && blob[..4] == VERSION_BYTES then Some(blob[4..4 + ID_LENGTH]) else None
  }

  /** The i-th byte that keyblob_save writes: the version shifted down by whole bytes. */
  function VersionByte(i: nat): Byte
    requires i < 4
  {
    PowerIsLarge(4 - i - 1);
    KEY_VERSION / Power(4 - i - 1) % 256
  }

  lemma VersionByteIs(i: nat)
    requires i < 4
    ensures VersionByte(i) == VERSION_BYTES[i]
  {
    PowerIsLarge(4 - i - 1);
    SmallQuotient(KEY_VERSION, Power(4 - i - 1));
  }

  lemma SmallQuotient(a: nat, b: nat)
    requires a < b || b == 1
    ensures a / b == if b == 1 then a else 0
  {
  }

  /** keyblob_save */
  method Save(id: seq<Byte>) returns (blob: array<Byte>)
    ensures blob[..] == Encode(id)
    ensures blob.Length == 4 + |id| && blob[..4] == [0, 0, 0, 1] && blob[4..] == id
  {
    blob := new Byte[4 + |id|](_ => 0);
    var at := 0;
    for i := 0 to 4
      invariant at == i
      invariant forall k :: 0 <= k < i ==> blob[k] == VERSION_BYTES[k]
    {
      VersionByteIs(i);
      blob[at] := VersionByte(i);
      at := at + 1;
    }
    forall k | 0 <= k < |id| { blob[at + k] := id[k]; }
    assert blob[..4] == VERSION_BYTES;
    assert blob[4..] == id;
    assert blob[..] == blob[..4] + blob[4..];
  }

  /** The checks at the start of keyblob_restore; a null pointer is `None`. */
  method Restore(blob: Option<seq<Byte>>) returns (id: Option<seq<Byte>>)
    ensures id == if blob.None? then None else DecodeId(blob.value)
    ensures id.Some? <==> blob.Some? && |blob.value| >= 36 && blob.value[..4] == [0, 0, 0, 1]
    ensures id.Some? ==> id.value == blob.value[4..36]
  {
    if blob.None? || |blob.value| < 4 + ID_LENGTH {
      return None;
    }
    var p := 0;
    var version: nat := 0;
    while p < 4
      invariant 0 <= p <= 4
      invariant version == Number(blob.value[..p]) < Power(p)
    {
      assert blob.value[..p + 1][..p] == blob.value[..p];
      version := (version * 256) % 0x1_0000_0000 + blob.value[p];
      p := p + 1;
      NumberBound(blob.value[..p]);
    }
    VersionBytesOnly(blob.value[..4]);
    if version != KEY_VERSION {
      return None;
    }
    return Some(blob.value[p..p + ID_LENGTH]);
  }

  lemma VersionBytesOnly(s: seq<Byte>)
    requires |s| == 4
    ensures Number(s) == KEY_VERSION <==> s == VERSION_BYTES
  {
    assert VERSION_BYTES[..3] == [0, 0, 0] && [0, 0, 0][..2] == [0, 0] && [0, 0][..1] == [0] && [0][..0] == [];
    assert Number(VERSION_BYTES) == 1;
    if Number(s) == 1 { NumberIsInjective(s, VERSION_BYTES); }
  }

  /** Restoring a saved blob names exactly the saved ID, for every 32-byte ID; so does a blob with
      anything appended to it. */
  lemma RoundTrip(id: seq<Byte>)
    requires |id| == 32
    ensures DecodeId(Encode(id)) == Some(id)
    ensures forall more: seq<Byte> :: DecodeId(Encode(id) + more) == Some(id)
  {
    assert Encode(id)[..4] == VERSION_BYTES && Encode(id)[4..4 + ID_LENGTH] == id;
    forall more: seq<Byte> ensures DecodeId(Encode(id) + more) == Some(id) {
      var blob := Encode(id) + more;
      assert blob[..4] == VERSION_BYTES && blob[4..4 + ID_LENGTH] == id;
    }
  }

  /** Two blobs that are both accepted name the same key exactly when their first 36 bytes agree;
      in particular an accepted blob of 36 bytes is the one that was saved. */
  lemma SameKeySamePrefix(a: seq<Byte>, b: seq<Byte>)
    requires DecodeId(a).Some? && DecodeId(b).Some?
    ensures DecodeId(a) == DecodeId(b) <==> a[..36] == b[..36]
    ensures |a| == 36 ==> a == Encode(DecodeId(a).value)
  {
    assert a[..36] == a[..4] + a[4..36] && b[..36] == b[..4] + b[4..36];
    assert a[..36][4..] == a[4..36] && b[..36][4..] == b[4..36];
    if |a| == 36 { assert a == a[..36]; }
  }
}
