/** Types and functions that several components share. */
module Common {

  datatype Option<T> = None | Some(value: T)

  newtype byte = x: int | 0 <= x < 256

  type Bytes = seq<byte>

  function Min(a: nat, b: nat): nat {
    if a < b then a else b
  }

  // The tokenizer's scratch buffer: two tokens, at least eight bytes, and three more.
  function ScratchSize(maxTokenLength: nat): nat {
    (if maxTokenLength * 2 < 8 then 8 else maxTokenLength * 2) + 3
  }
}
