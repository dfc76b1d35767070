/** The Simple Text Output Protocol's OutputString (UEFI Specification,
    section 12.4) as this layer provides it: the NUL-terminated UTF-16 string
    is narrowed to bytes and handed to the host console in chunks of at most
    511 bytes, each followed by a NUL in a 512-byte buffer. The console sink
    itself is outside the model; OutputString returns the chunks it would
    print, terminator included. */
module TextProtocol {
  import opened Efi

  /** sizeof(buffer) in `output_string`. */
  const BUFFER_SIZE: nat := 512

  /** The `char` a `char16_t` code unit becomes on assignment: its low byte. */
  function Narrow(c: bv16): (b: bv8)
    ensures b as bv16 == c % 256
    ensures c < 256 ==> b as bv16 == c
  {
    (c & 0xFF) as bv8
  }

  /** The text as the bytes copied into the buffer: each code unit modulo 256. */
  function NarrowAll(s: seq<bv16>): (r: seq<bv8>)
    ensures |r| == |s|
    ensures forall k :: 0 <= k < |s| ==> r[k] as bv16 == s[k] % 256
  {
    seq(|s|, k requires 0 <= k < |s| => Narrow(s[k]))
  }

  /** The position of the terminating NUL: the first zero code unit. */
  function FirstNul(s: seq<bv16>): (n: nat)
    requires 0 in s
    ensures n < |s| && s[n] == 0
    ensures forall k :: 0 <= k < n ==> s[k] != 0
  {
    if s[0] == 0 then 0 else 1 + FirstNul(s[1..])
  }

  /** The buffers `output_string` prints for the narrowed text `bytes`: runs
      of at most BUFFER_SIZE - 1 bytes, each followed by a NUL. */
  function Chunks(bytes: seq<bv8>): seq<seq<bv8>>
    decreases |bytes|
  {
    if |bytes| == 0 then []
    else if |bytes| <= BUFFER_SIZE - 1 then [bytes + [0]]
    else [bytes[..BUFFER_SIZE - 1] + [0]] + Chunks(bytes[BUFFER_SIZE - 1..])
  }

  /** A chunk as `output_string` leaves it in its buffer: 1 to 511 bytes of
      text and the NUL written at buffer[j], all inside the 512-byte buffer. */
  predicate ChunkShape(c: seq<bv8>) {
    2 <= |c| <= BUFFER_SIZE && c[|c| - 1] == 0
  }

  /** The text carried by a list of chunks, terminators dropped. */
  function Unchunk(cs: seq<seq<bv8>>): seq<bv8>
    requires forall c :: c in cs ==> ChunkShape(c)
  {
    if cs == [] then []
    else
      var c := cs[0];
      assert c in cs && ChunkShape(c);
      c[..|c| - 1] + Unchunk(cs[1..])
  }

  /** Every chunk is well-shaped, every chunk but the last is full, the text
      is carried in order and whole, and an empty text prints nothing. */
  lemma {:induction false} ChunksCorrect(bytes: seq<bv8>)
    ensures forall c :: c in Chunks(bytes) ==> ChunkShape(c)
    ensures forall k :: 0 <= k < |Chunks(bytes)| - 1 ==> |Chunks(bytes)[k]| == BUFFER_SIZE
    ensures Unchunk(Chunks(bytes)) == bytes
    ensures Chunks(bytes) == [] <==> bytes == []
    decreases |bytes|
  {
    if |bytes| == 0 {
    } else if |bytes| <= BUFFER_SIZE - 1 {
      var c := bytes + [0];
      assert Chunks(bytes) == [c];
      assert c[..|c| - 1] == bytes;
      assert Unchunk([c]) == c[..|c| - 1] + Unchunk([]);
    } else {
      var c := bytes[..BUFFER_SIZE - 1] + [0];
      var rest := bytes[BUFFER_SIZE - 1..];
      ChunksCorrect(rest);
      assert Chunks(bytes) == [c] + Chunks(rest);
      assert ([c] + Chunks(rest))[1..] == Chunks(rest);
      assert c[..|c| - 1] == bytes[..BUFFER_SIZE - 1];
      assert bytes[..BUFFER_SIZE - 1] + rest == bytes;
    }
  }

  /** One turn of the outer loop: a chunk of `j` bytes is split off the front,
      where `j` is 511 or everything that is left. */
  lemma ChunksUnfold(bytes: seq<bv8>, j: nat)
    requires 1 <= j <= |bytes| && j <= BUFFER_SIZE - 1
    requires j < BUFFER_SIZE - 1 ==> j == |bytes|
    ensures Chunks(bytes) == [bytes[..j] + [0]] + Chunks(bytes[j..])
  {
    if j == |bytes| {
      assert bytes[..j] == bytes;
      assert bytes[j..] == [];
    }
  }

  /** One turn of the outer loop on the code units s[i..n]: the chunk holds
      the narrowed s[i..i+j] and the rest is chunked from i + j on. */
  lemma OuterStep(s: seq<bv16>, i: nat, j: nat, n: nat)
    requires i + j <= n <= |s| && 1 <= j <= BUFFER_SIZE - 1
    requires j < BUFFER_SIZE - 1 ==> i + j == n
    ensures Chunks(NarrowAll(s[i..n])) == [NarrowAll(s[i..i + j]) + [0]] + Chunks(NarrowAll(s[i + j..n]))
  {
    var text := NarrowAll(s[i..n]);
    assert text[..j] == NarrowAll(s[i..i + j]);
    assert text[j..] == NarrowAll(s[i + j..n]);
    ChunksUnfold(text, j);
  }

  /** Bytes holding the narrowed code units s[i..i+j], one by one, are the
      narrowed text of that slice. */
  lemma NarrowedSlice(b: seq<bv8>, s: seq<bv16>, i: nat, j: nat)
    requires i + j <= |s| && |b| == j
    requires forall k :: 0 <= k < j ==> b[k] == Narrow(s[i + k])
    ensures b == NarrowAll(s[i..i + j])
  {
  }

  /** The inner loop of `output_string`: copies the narrowed code units from
      s[i] on into `buffer` until a NUL or a full buffer, leaving room for the
      terminator, and returns how many it copied. */
  method FillBuffer(buffer: array<bv8>, s: seq<bv16>, i: nat) returns (j: nat)
    requires 0 in s && i <= FirstNul(s) && buffer.Length == BUFFER_SIZE
    modifies buffer
    ensures j <= BUFFER_SIZE - 1 && i + j <= FirstNul(s)
    ensures j < BUFFER_SIZE - 1 ==> i + j == FirstNul(s)
    ensures i < FirstNul(s) ==> j >= 1
    ensures buffer[..j] == NarrowAll(s[i..i + j])
    ensures buffer[j..] == old(buffer[j..])
  {
    ghost var n := FirstNul(s);
    j := 0;
    while j < BUFFER_SIZE - 1 && s[i + j] != 0
      invariant j <= BUFFER_SIZE - 1 && i + j <= n
      invariant forall k :: 0 <= k < j ==> buffer[k] == Narrow(s[i + k])
      invariant buffer[j..] == old(buffer[j..])
    {
      buffer[j] := Narrow(s[i + j]);
      j := j + 1;
    }
    NarrowedSlice(buffer[..j], s, i, j);
  }

  /** `output_string`: reads the code units up to the first NUL, narrows
      each to a byte and prints them through a 512-byte buffer in chunks;
      `consumed` is the final value of the outer index `i`. It always
      reports success. */
  method OutputString(s: seq<bv16>) returns (status: Status, chunks: seq<seq<bv8>>, consumed: nat)
    requires 0 in s
    ensures status == Success
    ensures consumed == FirstNul(s)
    ensures chunks == Chunks(NarrowAll(s[..consumed]))
    ensures forall c :: c in chunks ==> ChunkShape(c)
    ensures Unchunk(chunks) == NarrowAll(s[..consumed])
    ensures s[0] == 0 <==> chunks == []
  {
    var buffer := new bv8[BUFFER_SIZE];
    ghost var n := FirstNul(s);
    var i := 0;
    chunks := [];
    while s[i] != 0
      invariant i <= n
      invariant chunks + Chunks(NarrowAll(s[i..n])) == Chunks(NarrowAll(s[..n]))
      decreases n - i
    {
      var j := FillBuffer(buffer, s, i);
      OuterStep(s, i, j, n);
      buffer[j] := 0;
      assert buffer[..j + 1] == buffer[..j] + [0];
      chunks := chunks + [buffer[..j + 1]];
      i := i + j;
    }
    assert s[i..n] == [];
    assert chunks == Chunks(NarrowAll(s[..n]));
    ChunksCorrect(NarrowAll(s[..n]));
    assert s[0] == 0 <==> n == 0;
    consumed := i;
    status := Success;
  }

  /** EfiSimpleTextOutputProtocol; only the member this layer fills is modelled. */
  datatype SimpleTextOutputProtocol = SimpleTextOutputProtocol(outputString: FnPtr)

  /** `get_text_output_protocol`: a protocol record whose OutputString is `output_string`. */
  function GetTextOutputProtocol(): (p: SimpleTextOutputProtocol)
    ensures p.outputString == OutputStringFn
  {
    SimpleTextOutputProtocol(OutputStringFn)
  }
}
