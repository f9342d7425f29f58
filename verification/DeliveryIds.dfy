// How a delivery id is derived from its triple, and what has to be asked of the hash for the
// triple's ids to be distinct.

module DeliveryIds {

  type Byte = x: int | 0 <= x < 0x100
  type GuidBytes = g: seq<Byte> | |g| == 16 witness seq(16, _ => 0)
  type Digest = d: seq<Byte> | |d| == 32 witness seq(32, _ => 0)
  type Int32 = n: int | -0x8000_0000 <= n < 0x8000_0000

  datatype Triple = Triple(messageId: GuidBytes, subscriptionId: GuidBytes, attemptNumber: Int32)

  // ---- The 36 bytes that are hashed -------------------------------------------------------

  // Two's complement, least significant byte first.
  function Int32Bytes(n: Int32): (bytes: seq<Byte>)
    ensures |bytes| == 4
  {
    var u := n % 0x1_0000_0000;
    [u % 0x100, u / 0x100 % 0x100, u / 0x1_0000 % 0x100, u / 0x100_0000]
  }

  lemma BytesAddUp(n: Int32)
    ensures var b := Int32Bytes(n);
            b[0] as int + 0x100 * (b[1] as int) + 0x1_0000 * (b[2] as int) + 0x100_0000 * (b[3] as int)
            == if n >= 0 then n else n + 0x1_0000_0000
  {
    var u := n % 0x1_0000_0000;
    assert u / 0x1_0000 == u / 0x100 / 0x100 && u / 0x100_0000 == u / 0x1_0000 / 0x100;
  }

  function Int32Of(bytes: seq<Byte>): int
    requires |bytes| == 4
  {
    var u := bytes[0] as int + 0x100 * (bytes[1] as int + 0x100 * (bytes[2] as int + 0x100 * (bytes[3] as int)));
    if u < 0x8000_0000 then u else u - 0x1_0000_0000
  }

  lemma Int32RoundTrip(n: Int32)
    ensures Int32Of(Int32Bytes(n)) == n
  {
    var u := n % 0x1_0000_0000;
    var q := u / 0x100;
    assert u == 0x100 * q + u % 0x100;
    assert q == 0x100 * (q / 0x100) + q % 0x100;
    assert u / 0x1_0000 == q / 0x100 && u / 0x100_0000 == q / 0x1_0000;
    assert q / 0x100 == 0x100 * (q / 0x1_0000) + q / 0x100 % 0x100;
  }

  function Input(t: Triple): seq<Byte> {
    t.messageId + t.subscriptionId + Int32Bytes(t.attemptNumber)
  }

  function TripleOf(input: seq<Byte>): (seq<Byte>, seq<Byte>, int)
    requires |input| == 36
  {
    (input[..16], input[16..32], Int32Of(input[32..]))
  }

  lemma InputRoundTrip(t: Triple)
    ensures |Input(t)| == 36
    ensures TripleOf(Input(t)) == (t.messageId, t.subscriptionId, t.attemptNumber)
  {
    var x := Input(t);
    assert x[..16] == t.messageId && x[16..32] == t.subscriptionId && x[32..] == Int32Bytes(t.attemptNumber);
    Int32RoundTrip(t.attemptNumber);
  }

  method WriteInput(t: Triple) returns (input: array<Byte>)
    ensures fresh(input) && input[..] == Input(t)
    ensures input.Length == 36
    ensures forall k :: 0 <= k < 16 ==> input[k] == t.messageId[k] && input[16 + k] == t.subscriptionId[k]
    ensures input[32] as int + 0x100 * (input[33] as int) + 0x1_0000 * (input[34] as int)
         + 0x100_0000 * (input[35] as int)
         == if t.attemptNumber >= 0 then t.attemptNumber else t.attemptNumber + 0x1_0000_0000
  {
    input := new Byte[36](_ => 0);
    for i := 0 to 16
      invariant forall k :: 0 <= k < i ==> input[k] == t.messageId[k]
    {
      input[i] := t.messageId[i];
    }
    for i := 0 to 16
      invariant forall k :: 0 <= k < 16 ==> input[k] == t.messageId[k]
      invariant forall k :: 0 <= k < i ==> input[16 + k] == t.subscriptionId[k]
    {
      input[16 + i] := t.subscriptionId[i];
    }
    var number := Int32Bytes(t.attemptNumber);
    input[32], input[33], input[34], input[35] := number[0], number[1], number[2], number[3];
    assert forall k :: 0 <= k < 36 ==> input[k] == Input(t)[k];
    BytesAddUp(t.attemptNumber);
  }

  // ---- The 16 bytes that are kept ---------------------------------------------------------

  // (b & 0x0F) | 0x50 and (b & 0x3F) | 0x80.
  function Version5(b: Byte): Byte {
    b % 0x10 + 0x50
  }

  function Rfc4122(b: Byte): Byte {
    b % 0x40 + 0x80
  }

  function Stamped(hash: Digest): GuidBytes {
    hash[..16][6 := Version5(hash[6])][8 := Rfc4122(hash[8])]
  }

  method StampInPlace(hash: array<Byte>) returns (id: GuidBytes)
    requires hash.Length == 32
    modifies hash
    ensures id == Stamped(old(hash[..]))
    ensures hash[..] == old(hash[..][6 := Version5(hash[6])][8 := Rfc4122(hash[8])])
    ensures id[6] / 0x10 == 5 && id[6] % 0x10 == old(hash[6]) % 0x10
    ensures id[8] / 0x40 == 2 && id[8] % 0x40 == old(hash[8]) % 0x40
    ensures forall k :: 0 <= k < 16 && k != 6 && k != 8 ==> id[k] == old(hash[k])
  {
    hash[6] := Version5(hash[6]);
    hash[8] := Rfc4122(hash[8]);
    id := hash[..16];
  }

  // Two digests give one id exactly when they agree on the 122 bits that are kept.
  predicate SameKeptBits(a: Digest, b: Digest) {
    && (forall k :: 0 <= k < 16 && k != 6 && k != 8 ==> a[k] == b[k])
    && a[6] % 0x10 == b[6] % 0x10
    && a[8] % 0x40 == b[8] % 0x40
  }

  lemma StampKeeps(a: Digest, b: Digest)
    ensures Stamped(a) == Stamped(b) <==> SameKeptBits(a, b)
  {
    if Stamped(a) == Stamped(b) {
      forall k | 0 <= k < 16 && k != 6 && k != 8 ensures a[k] == b[k] {
        assert Stamped(a)[k] == a[k] && Stamped(b)[k] == b[k];
      }
      assert Stamped(a)[6] == Version5(a[6]) && Stamped(b)[6] == Version5(b[6]);
      assert Stamped(a)[8] == Rfc4122(a[8]) && Stamped(b)[8] == Rfc4122(b[8]);
    }
  }

  function DeriveDeliveryId(sha256: seq<Byte> -> Digest, t: Triple): GuidBytes {
    Stamped(sha256(Input(t)))
  }

  // Among the triples a system has used, no two share an id exactly when the hash maps no two
  // of their inputs to digests that agree on the kept bits. (Over all triples there are fewer
  // ids than inputs, so this is as much as can be asked of any hash.)
  ghost predicate KeepsInputsApart(sha256: seq<Byte> -> Digest, used: set<Triple>) {
    forall s, t :: s in used && t in used && SameKeptBits(sha256(Input(s)), sha256(Input(t))) ==> Input(s) == Input(t)
  }

  ghost predicate IdsAreDistinct(sha256: seq<Byte> -> Digest, used: set<Triple>) {
    forall s, t :: s in used && t in used && DeriveDeliveryId(sha256, s) == DeriveDeliveryId(sha256, t) ==> s == t
  }

  lemma IdsDistinctExactly(sha256: seq<Byte> -> Digest, used: set<Triple>)
    ensures IdsAreDistinct(sha256, used) <==> KeepsInputsApart(sha256, used)
  {
    forall s, t ensures DeriveDeliveryId(sha256, s) == DeriveDeliveryId(sha256, t)
                        <==> SameKeptBits(sha256(Input(s)), sha256(Input(t)))
    {
      StampKeeps(sha256(Input(s)), sha256(Input(t)));
    }
    forall s, t ensures Input(s) == Input(t) ==> s == t {
      InputRoundTrip(s);
      InputRoundTrip(t);
    }
  }
}
