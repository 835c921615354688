/** The Go notions the whole model shares: bytes, strings of bytes, and the ways a call can end. */
module GoTypes {
  type Byte = b: int | 0 <= b < 256
  type Bytes = seq<Byte>

  /** The bytes between the length and the capacity of a slice. A buffer that is filled by appending
      is at most doubled at a time, so they are never many more than those that were read. */
  type Spare = b: Bytes | |b| <= SPARE_LIMIT

  const SPARE_LIMIT: nat := 100_000_000

  /** A Go slice, together with its spare bytes: a slice expression may reach beyond the length. */
  datatype Slice = Slice(bytes: Bytes, spare: Spare) {
    function Capacity(): nat {
      |bytes| + |spare|
    }
  }

  datatype Option<+T> = None | Some(value: T)

  /** A Go call returns a value, returns an error, or panics. */
  datatype Outcome<+T> = Ok(value: T) | Rejected | Panicked {
    predicate IsFailure() {
      !Ok?
    }

    function PropagateFailure<U>(): Outcome<U>
      requires IsFailure()
    {
      if Rejected? then Rejected else Panicked
    }

    function Extract(): T
      requires Ok?
    {
      value
    }
  }

  /** `[]byte(s)`: a Go string is modelled with one character per byte. */
  function ToBytes(s: string): (b: Bytes)
    ensures |b| == |s|
  {
    seq(|s|, i requires 0 <= i < |s| => s[i] as int % 256)
  }

  /** `string(b)`. */
  function ToString(b: Bytes): (s: string)
    ensures |s| == |b|
  {
    seq(|b|, i requires 0 <= i < |b| => b[i] as char)
  }

  lemma BytesOfString(b: Bytes)
    ensures ToBytes(ToString(b)) == b
  {
    assert forall i :: 0 <= i < |b| ==> ToBytes(ToString(b))[i] == b[i];
  }
}
