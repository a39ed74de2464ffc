/**
  The two constant tables the initial-program ProgramInfo is built from. The
  source declares them as arrays of 32-bit words and hands them to the
  ProgramInfo constructor as untyped memory together with their size in
  bytes; on the (little-endian) target that memory is the little-endian
  image of the words. What the words mean is owned by the access-control
  policy and is not modelled: here they are opaque.
 */
module AccessControlTables {
  import opened Svc

  /** The access-control data granted to every initial program (0x1C bytes). */
  const FileAccessControlForInitialProgram: seq<u32> :=
    [0x00000001, 0x00000000, 0x80000000, 0x0000001C, 0x00000000, 0x0000001C, 0x00000000]

  /** The access-control descriptor granted to every initial program (0x2C bytes). */
  const FileAccessControlDescForInitialProgram: seq<u32> :=
    [0x00000001, 0x00000000, 0x80000000, 0x00000000, 0x00000000, 0xFFFFFFFF,
     0xFFFFFFFF, 0x00000000, 0x00000000, 0xFFFFFFFF, 0xFFFFFFFF]

  /** The four bytes of a word, least significant first. */
  function WordBytes(w: u32): (b: seq<u8>)
    ensures |b| == 4
    ensures b[0] as int + 0x100 * (b[1] as int) + 0x1_0000 * (b[2] as int) + 0x100_0000 * (b[3] as int) == w
  {
    var q1 := w / 0x100;
    var q2 := q1 / 0x100;
    var q3 := q2 / 0x100;
    [w % 0x100, q1 % 0x100, q2 % 0x100, q3]
  }

  /** The memory image of a word table. */
  function ToBytes(words: seq<u32>): (b: seq<u8>)
    ensures |b| == 4 * |words|
    ensures forall i :: 0 <= i < |words| ==> b[4 * i..4 * i + 4] == WordBytes(words[i])
  {
    if words == [] then [] else WordBytes(words[0]) + ToBytes(words[1..])
  }

  /** The sizes the source passes to the ProgramInfo constructor: the tables' images are 0x1C and 0x2C bytes. */
  lemma TableSizes()
    ensures |ToBytes(FileAccessControlForInitialProgram)| == 0x1C
    ensures |ToBytes(FileAccessControlDescForInitialProgram)| == 0x2C
  {
  }
}
