/** Values shared by every part of the screen-recorder model. */
module Base {

  datatype Option<T> = None | Some(value: T)

  newtype byte = x: int | 0 <= x < 256

  /** A browser Blob: its bytes and its MIME type. */
  datatype Blob = Blob(data: seq<byte>, mimeType: string) {
    /** `blob.size`, the number of bytes. */
    function Size(): nat { |data| }
  }

  /** The sum of the sizes of `parts`. */
  function TotalSize(parts: seq<Blob>): nat
  {
    if parts == [] then 0 else TotalSize(parts[..|parts| - 1]) + parts[|parts| - 1].Size()
  }

  /** The bytes of `new Blob(parts)`: the parts' bytes one after the other, in order. */
  function Concat(parts: seq<Blob>): (r: seq<byte>)
    ensures |r| == TotalSize(parts)
  {
    if parts == [] then [] else Concat(parts[..|parts| - 1]) + parts[|parts| - 1].data
  }

  /** Concatenation distributes over splitting the list of parts. */
  lemma {:induction false} ConcatSplit(a: seq<Blob>, b: seq<Blob>)
    ensures Concat(a + b) == Concat(a) + Concat(b)
    decreases |b|
  {
    if b == [] {
      assert a + b == a;
    } else {
      var b' := b[..|b| - 1];
      assert (a + b)[..|a + b| - 1] == a + b';
      assert (a + b)[|a + b| - 1] == b[|b| - 1];
      ConcatSplit(a, b');
    }
  }

  /** Part `i` sits in the concatenation right after the bytes of the parts before it. */
  lemma PartInPlace(parts: seq<Blob>, i: nat)
    requires i < |parts|
    ensures TotalSize(parts[..i]) + parts[i].Size() <= |Concat(parts)|
    ensures Concat(parts)[TotalSize(parts[..i])..TotalSize(parts[..i]) + parts[i].Size()] == parts[i].data
  {
    var before, rest := parts[..i + 1], parts[i + 1..];
    assert parts == before + rest;
    ConcatSplit(before, rest);
    assert before[..i] == parts[..i];
  }
}
