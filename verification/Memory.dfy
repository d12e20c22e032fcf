/** Copies into fixed buffers. */
module Memory {
  import opened Words

  /** memcpy into a buffer: the bytes at `at`, everything else as it was. */
  method Copy(out: array<byte>, at: nat, data: seq<byte>)
    requires at + |data| <= out.Length
    modifies out
    ensures out[at..at + |data|] == data
    ensures out[..at] == old(out[..at]) && out[at + |data|..] == old(out[at + |data|..])
  {
    for i := 0 to |data|
      invariant forall j :: 0 <= j < out.Length ==> out[j] == if at <= j < at + i then data[j - at] else old(out[j])
    {
      out[at + i] := data[i];
    }
  }
}
