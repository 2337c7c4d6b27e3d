/** The payload of the hello benchmark: two 64-bit words of identity, then a deterministic pattern. */
module HelloPayload {
  import opened Common
  import opened Bits

  const HEADER_SIZE: nat := 16
  const RESPONSE_XOR: Byte := [true, false, true, false, false, true, false, true]   // 0xa5

  datatype Identity = Identity(requestId: u64, clientId: u64)

  // ---- bytes of a word, least significant first ----

  function WordByte(value: nat, i: nat): (b: Byte)
    decreases i
  {
    if i == 0 then Low(value) else WordByte(value / 256, i - 1)
  }

  function Load(bytes: seq<Byte>): (v: nat) { if bytes == [] then 0 else Value(bytes[0]) + 256 * Load(bytes[1..]) }

  function Pow256(n: nat): (p: nat)
    ensures p > 0
  {
    if n == 0 then 1 else 256 * Pow256(n - 1)
  }

  lemma LowIsRemainder(value: nat)
    ensures Value(Low(value)) == value % 256
  {
    assert Pow2(8) == 256;
    BitsIgnoreHigh(value % 256, value / 256, 8);
    BitsComeBack(value % 256, 8);
  }

  lemma ByteFits(b: Byte)
    ensures Value(b) < 256
  {
    assert Pow2(8) == 256;
    ValueFits(b);
  }

  /** The bytes of a word that fits in them read back as the word. */
  lemma {:induction false} LoadBack(value: nat, bytes: seq<Byte>)
    requires value < Pow256(|bytes|) && forall i :: 0 <= i < |bytes| ==> bytes[i] == WordByte(value, i)
    ensures Load(bytes) == value
    decreases |bytes|
  {
    if bytes != [] {
      forall i | 0 <= i < |bytes| - 1 ensures bytes[1..][i] == WordByte(value / 256, i) {
        assert bytes[1..][i] == bytes[i + 1];
      }
      LoadBack(value / 256, bytes[1..]);
      LowIsRemainder(value);
    }
  }

  lemma {:induction false} LoadFits(bytes: seq<Byte>)
    ensures Load(bytes) < Pow256(|bytes|)
  {
    if bytes != [] {
      ByteFits(bytes[0]);
      LoadFits(bytes[1..]);
    }
  }

  lemma EightBytes()
    ensures Pow256(8) == TWO64
  {
    assert Pow256(4) == 0x1_0000_0000;
    assert Pow256(8) == 256 * 256 * 256 * 256 * Pow256(4);
  }

  function LoadWord(payload: seq<Byte>, at: nat): (v: u64)
    requires at + 8 <= |payload|
  {
    LoadFits(payload[at..at + 8]);
    EightBytes();
    Load(payload[at..at + 8])
  }

  // ---- requests and responses ----

  /** Everything after the header is a function of the identity and the position, in 64-bit arithmetic. */
  function Mixed(id: Identity, offset: nat): (m: u64) { (id.requestId * 131 + id.clientId * 17 + offset * 29) % TWO64 }

  function Folded(m: nat): (b: Byte) { Xor(Xor(Low(m), Low(m / 0x800)), Low(m / 0x80_0000)) }

  function PatternByte(id: Identity, offset: nat): (b: Byte) { Folded(Mixed(id, offset)) }

  function RequestByte(id: Identity, offset: nat): (b: Byte) {
    if offset < 8 then WordByte(id.requestId, offset)
    else if offset < HEADER_SIZE then WordByte(id.clientId, offset - 8)
    else PatternByte(id, offset)
  }

  ghost predicate IsRequest(payload: seq<Byte>, id: Identity) {
    forall i :: 0 <= i < |payload| ==> payload[i] == RequestByte(id, i)
  }

  ghost predicate IsResponse(payload: seq<Byte>, id: Identity) {
    forall i :: 0 <= i < |payload| ==> payload[i] == Xor(RequestByte(id, i), RESPONSE_XOR)
  }

  /** The request of an identity, and what the server makes of a payload. */
  function RequestBytes(size: nat, id: Identity): (payload: seq<Byte>) { seq(size, i requires 0 <= i < size => RequestByte(id, i)) }

  function Masked(request: seq<Byte>): (response: seq<Byte>) {
    seq(|request|, i requires 0 <= i < |request| => Xor(request[i], RESPONSE_XOR))
  }

  /** A request that is merely sent back is not taken for a response. */
  lemma EchoIsNoResponse(payload: seq<Byte>, id: Identity)
    requires payload != [] && IsRequest(payload, id)
    ensures !IsResponse(payload, id) && Masked(payload) != payload
  {
    assert payload[0] == RequestByte(id, 0);
    assert Xor(payload[0], RESPONSE_XOR)[0] != payload[0][0];
    assert Masked(payload)[0] != payload[0];
  }

  /** Bit `j` of a number. */
  function Bit(m: nat, j: nat): (b: bool) { if j == 0 then m % 2 == 1 else Bit(m / 2, j - 1) }

  lemma {:induction false} BitsAreBits(m: nat, k: nat, i: nat)
    requires i < k
    ensures BitsOf(m, k)[i] == Bit(m, i)
  {
    if i > 0 { BitsAreBits(m / 2, k - 1, i - 1); }
  }

  lemma ShiftByFour(m: nat, i: nat)
    ensures Bit(m / 16, i) == Bit(m, i + 4)
  {
    assert m / 2 / 2 == m / 4 && m / 4 / 2 == m / 8 && m / 8 / 2 == m / 16;
    assert Bit(m, i + 4) == Bit(m / 2, i + 3) == Bit(m / 4, i + 2) == Bit(m / 8, i + 1);
  }

  lemma ShiftByEleven(m: nat, i: nat)
    ensures Bit(m / 0x800, i) == Bit(m, i + 11)
  {
    ShiftByFour(m, i + 7);
    ShiftByFour(m / 16, i + 3);
    assert m / 16 / 16 == m / 0x100 && m / 0x100 / 2 == m / 0x200 && m / 0x200 / 2 == m / 0x400 && m / 0x400 / 2 == m / 0x800;
    assert Bit(m / 0x100, i + 3) == Bit(m / 0x200, i + 2) == Bit(m / 0x400, i + 1) == Bit(m / 0x800, i);
  }

  lemma ShiftByTwentyThree(m: nat, i: nat)
    ensures Bit(m / 0x80_0000, i) == Bit(m, i + 23)
  {
    ShiftByEleven(m, i + 12);
    ShiftByEleven(m / 0x800, i + 1);
    assert m / 0x800 / 0x800 == m / 0x40_0000 && m / 0x40_0000 / 2 == m / 0x80_0000;
    assert Bit(m / 0x40_0000, i + 1) == Bit(m / 0x80_0000, i);
  }

  /** Bit by bit, a pattern byte is the mixed word folded over itself at distances 11 and 23. */
  lemma FoldedBits(m: nat, i: nat)
    requires i < 8
    ensures Folded(m)[i] == ((Bit(m, i) != Bit(m, i + 11)) != Bit(m, i + 23))
  {
    BitsAreBits(m, 8, i);
    BitsAreBits(m / 0x800, 8, i);
    BitsAreBits(m / 0x80_0000, 8, i);
    ShiftByEleven(m, i);
    ShiftByTwentyThree(m, i);
  }

  method FillRequest(payload: array<Byte>, id: Identity)
    modifies payload
    ensures IsRequest(payload[..], id) && payload[..] == RequestBytes(payload.Length, id)
  {
    for offset := 0 to payload.Length
      invariant forall i :: 0 <= i < offset ==> payload[i] == RequestByte(id, i)
    {
      payload[offset] := RequestByte(id, offset);
    }
  }

  function IdentityOf(payload: seq<Byte>): (id: Identity)
    requires |payload| >= HEADER_SIZE
  {
    Identity(LoadWord(payload, 0), LoadWord(payload, 8))
  }

  /** The server recovers the identity a request was filled with. */
  lemma IdentityComesBack(payload: seq<Byte>, id: Identity)
    requires |payload| >= HEADER_SIZE && IsRequest(payload, id)
    ensures IdentityOf(payload) == id
  {
    EightBytes();
    var low, high := payload[0..8], payload[8..16];
    forall i | 0 <= i < 8 ensures low[i] == WordByte(id.requestId, i) && high[i] == WordByte(id.clientId, i) {
      assert low[i] == payload[i] && high[i] == payload[8 + i];
    }
    LoadBack(id.requestId, low);
    LoadBack(id.clientId, high);
  }

  /** The two jobs of the response loop: compare with the pattern, and mask. */
  method MaskAndCompare(request: seq<Byte>, response: array<Byte>, id: Identity) returns (valid: bool)
    requires |request| == response.Length
    modifies response
    ensures valid <==> IsRequest(request, id)
    ensures forall i :: 0 <= i < |request| ==> response[i] == Xor(request[i], RESPONSE_XOR)
  {
    valid := true;
    for offset := 0 to |request|
      invariant valid <==> IsRequest(request[..offset], id)
      invariant forall i :: 0 <= i < offset ==> response[i] == Xor(request[i], RESPONSE_XOR)
    {
      var value, expected := request[offset], RequestByte(id, offset);
      assert IsRequest(request[..offset + 1], id) <==> IsRequest(request[..offset], id) && value == expected by {
        OneMoreByte(request, id, offset);
      }
      if value != expected { valid := false; }
      response[offset] := Xor(value, RESPONSE_XOR);
    }
    assert request[..|request|] == request;
  }

  lemma OneMoreByte(request: seq<Byte>, id: Identity, n: nat)
    requires n < |request|
    ensures IsRequest(request[..n + 1], id) <==> IsRequest(request[..n], id) && request[n] == RequestByte(id, n)
  {
    assert request[..n + 1] == request[..n] + [request[n]];
  }

  /** Answers a request and says whether it was one. */
  method MakeResponse(request: seq<Byte>, response: array<Byte>) returns (valid: bool, id: Identity)
    requires |request| == response.Length >= HEADER_SIZE
    modifies response
    ensures id == IdentityOf(request) && (valid <==> IsRequest(request, id))
    ensures response[..] == Masked(request) && (valid ==> IsResponse(response[..], id))
  {
    id := IdentityOf(request);
    valid := MaskAndCompare(request, response, id);
  }

  /** The server finds a filled request valid, knows whose it is, and makes the response its sender accepts. */
  lemma FilledRequestIsAnswered(size: nat, id: Identity)
    requires size >= HEADER_SIZE
    ensures var request := RequestBytes(size, id);
      && IdentityOf(request) == id && IsRequest(request, id)
      && |Masked(request)| == size && IsResponse(Masked(request), id)
  {
    IdentityComesBack(RequestBytes(size, id), id);
  }

  method ValidateResponse(response: seq<Byte>, id: Identity) returns (ok: bool)
    ensures ok <==> IsResponse(response, id)
  {
    for offset := 0 to |response|
      invariant forall i :: 0 <= i < offset ==> response[i] == Xor(RequestByte(id, i), RESPONSE_XOR)
    {
      if response[offset] != Xor(RequestByte(id, offset), RESPONSE_XOR) { return false; }
    }
    ok := true;
  }

  /** A response is accepted for one identity only: the one whose request it answers. */
  lemma ResponseNamesItsRequest(response: seq<Byte>, id: Identity, other: Identity)
    requires |response| >= HEADER_SIZE && IsResponse(response, id)
    ensures IsResponse(response, other) <==> id == other
  {
    if IsResponse(response, other) {
      var request := seq(HEADER_SIZE, i requires 0 <= i < HEADER_SIZE => RequestByte(id, i));
      forall i | 0 <= i < HEADER_SIZE ensures RequestByte(id, i) == RequestByte(other, i) {
        assert response[i] == Xor(RequestByte(id, i), RESPONSE_XOR);
        XorCancels(RequestByte(id, i), RequestByte(other, i), RESPONSE_XOR);
      }
      IdentityComesBack(request, id);
      IdentityComesBack(request, other);
    }
  }
}
