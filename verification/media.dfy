/**
 Browser media values as plain data: bytes, Blobs and user-picked files, and the
 concatenation `new Blob(parts, { type })` performs on its parts.
 */
module Media {

  newtype byte = x: int | 0 <= x < 256

  /** A Blob: its bytes and the MIME type it is tagged with. */
  datatype Blob = Blob(bytes: seq<byte>, mimeType: string)

  /** A file the user picked in the hidden file input. */
  datatype AudioFile = AudioFile(name: string, mimeType: string, bytes: seq<byte>)

  /** The container type every recording is tagged with. */
  const WebmType: string := "audio/webm"

  /** All parts joined in order, first part first. */
  function Flatten(parts: seq<seq<byte>>): seq<byte>
  {
    if parts == [] then [] else parts[0] + Flatten(parts[1..])
  }

  /** Where part `i` starts inside `Flatten(parts)`: the total length of the parts before it. */
  function Offset(parts: seq<seq<byte>>, i: nat): nat
    requires i <= |parts|
  {
    |Flatten(parts[..i])|
  }

  /** Joining two runs of parts is joining each run and then the two results. */
  lemma {:induction false} FlattenConcat(a: seq<seq<byte>>, b: seq<seq<byte>>)
    ensures Flatten(a + b) == Flatten(a) + Flatten(b)
  {
    if a == [] {
      assert a + b == b;
    } else {
      assert (a + b)[0] == a[0];
      assert (a + b)[1..] == a[1..] + b;
      FlattenConcat(a[1..], b);
    }
  }

  /**
   Every part can be read back, unchanged, at its own offset of the joined bytes:
   nothing is reordered, dropped or interleaved.
   */
  lemma {:induction false} PartAtItsOffset(parts: seq<seq<byte>>, i: nat)
    requires i < |parts|
    ensures Offset(parts, i) + |parts[i]| <= |Flatten(parts)|
    ensures Flatten(parts)[Offset(parts, i) .. Offset(parts, i) + |parts[i]|] == parts[i]
  {
    assert parts == parts[..i] + ([parts[i]] + parts[i+1..]);
    FlattenConcat(parts[..i], [parts[i]] + parts[i+1..]);
    FlattenConcat([parts[i]], parts[i+1..]);
    assert Flatten([parts[i]]) == parts[i] + Flatten([]);
    var before := Flatten(parts[..i]);
    var after := Flatten(parts[i+1..]);
    assert Flatten(parts) == before + (parts[i] + after);
  }

  /**
   Builds the recording Blob from the buffered parts the way `new Blob(parts, { type })`
   does: one pass over the parts, appending each in turn.
   */
  method AssembleBlob(parts: seq<seq<byte>>, mimeType: string) returns (blob: Blob)
    ensures blob.bytes == Flatten(parts)
    ensures blob.mimeType == mimeType
  {
    var bytes: seq<byte> := [];
    var i := 0;
    while i < |parts|
      invariant 0 <= i <= |parts|
      invariant bytes == Flatten(parts[..i])
    {
      assert parts[..i+1] == parts[..i] + [parts[i]];
      FlattenConcat(parts[..i], [parts[i]]);
      assert Flatten([parts[i]]) == parts[i] + Flatten([]);
      bytes := bytes + parts[i];
      i := i + 1;
    }
    assert parts[..i] == parts;
    blob := Blob(bytes, mimeType);
  }
}
