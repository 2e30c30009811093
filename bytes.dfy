// The byte-to-"binary string" conversion both file importers run before
// base64-encoding an uploaded file: the bytes are taken chunk by chunk
// (to keep `String.fromCharCode(...chunk)` within the argument limit) and
// each byte becomes the character with that code.

module Bytes {
  import opened Json

  newtype byte = x: int | 0 <= x < 256

  /** The chunk size both importers use. */
  const ChunkSize: nat := 8192

  /** The binary string of `bytes`: one character per byte, with the byte as its code. */
  function BinaryString(bytes: seq<byte>): (r: string)
    ensures |r| == |bytes|
    ensures forall i :: 0 <= i < |bytes| ==> r[i] as int == bytes[i] as int
  {
    seq(|bytes|, i requires 0 <= i < |bytes| => (bytes[i] as int) as char)
  }

  /** `charCodeAt` on each character of a binary string. */
  function CharCodes(s: string): (r: seq<byte>)
    requires forall i :: 0 <= i < |s| ==> s[i] as int < 256
    ensures |r| == |s|
    ensures forall i :: 0 <= i < |s| ==> r[i] as int == s[i] as int
  {
    seq(|s|, i requires 0 <= i < |s| => (s[i] as int) as byte)
  }

  /** Reading the codes back recovers the bytes. */
  lemma CharCodesRecoverBytes(bytes: seq<byte>)
    ensures CharCodes(BinaryString(bytes)) == bytes
  {
    var r := CharCodes(BinaryString(bytes));
    assert forall i :: 0 <= i < |bytes| ==> r[i] == bytes[i];
  }

  lemma {:induction false} BinaryStringAppend(a: seq<byte>, b: seq<byte>)
    ensures BinaryString(a + b) == BinaryString(a) + BinaryString(b)
  {
    var l, r := BinaryString(a + b), BinaryString(a) + BinaryString(b);
    assert |l| == |r|;
    forall i | 0 <= i < |l| ensures l[i] == r[i] {
      if i < |a| {
        assert (a + b)[i] == a[i];
      } else {
        assert (a + b)[i] == b[i - |a|];
      }
    }
  }

  /**
   * The importers' loop: `for (i = 0; i < n; i += chunkSize)` appending the
   * characters of `bytes[i .. min(i + chunkSize, n)]`. For every positive chunk
   * size the result is the whole binary string.
   */
  method ChunkedBinaryString(bytes: array<byte>, chunkSize: nat) returns (s: string)
    requires chunkSize > 0
    ensures s == BinaryString(bytes[..])
    ensures |s| == bytes.Length
  {
    s := "";
    var i := 0;
    while i < bytes.Length
      invariant 0 <= i
      invariant i <= bytes.Length ==> s == BinaryString(bytes[..i])
      invariant i > bytes.Length ==> s == BinaryString(bytes[..])
    {
      var end := if i + chunkSize < bytes.Length then i + chunkSize else bytes.Length;
      BinaryStringAppend(bytes[..i], bytes[i..end]);
      assert bytes[..i] + bytes[i..end] == bytes[..end];
      s := s + BinaryString(bytes[i..end]);
      i := i + chunkSize;
      assert end == bytes.Length ==> bytes[..end] == bytes[..];
    }
    assert bytes[..bytes.Length] == bytes[..];
  }

  /** A file as `File.arrayBuffer` yields it: its name and its bytes. */
  datatype File = File(name: string, content: array<byte>)

  /** The parameters of an upload request (`map.import`, `simulation.import_state`). */
  function UploadParams(encoded: string, filename: string): (r: Json)
    ensures r.JObj? && r.fields.Keys == {"file_content", "filename"}
    ensures r.fields["file_content"] == JStr(encoded) && r.fields["filename"] == JStr(filename)
  {
    JObj(map["file_content" := JStr(encoded), "filename" := JStr(filename)])
  }
}
