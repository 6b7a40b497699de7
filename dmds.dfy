/**
 * The crate root of dmds: the record contract (`Data`), its built-in
 * implementation for fixed-size arrays of dimension values, the storage
 * contract (`IoHandle`) with its default cache-validity hint and its
 * forwarding implementation for smart pointers, and the crate-level error
 * taxonomy.
 *
 * Rust's `[u64; DIMS]` is a `seq<U64>`; the const generic `DIMS` becomes an
 * explicit parameter `n` wherever the source uses it.
 */
module Dmds {

  newtype U64 = x: int | 0 <= x < 0x1_0000_0000_0000_0000
  newtype U32 = x: int | 0 <= x < 0x1_0000_0000
  newtype Byte = x: int | 0 <= x < 0x100

  /** A chunk position: one unsigned index per dimension. */
  type Pos = seq<nat>

  datatype Option<T> = None | Some(value: T)

  datatype Result<T, E> = Ok(value: T) | Err(error: E)

  /**
   * `std::io::Error`, reduced to what the core distinguishes: the
   * short-read error the deferred value handle raises itself (kind
   * `UnexpectedEof`, with the two byte counts its message reports), and any
   * other error, which comes from a backend or a codec and is only passed on.
   */
  datatype IoError =
    | UnexpectedEof(actual: nat, expected: nat)
    | Failure(code: nat)

  /** The crate's error enum. */
  datatype Error =
    | Io(cause: IoError)
    | ValueNotFound
    | ValueMoved
    | ValueOutOfRange(range: (U64, U64), value: U64)

  /** What one `poll_read` into a buffer reports: a byte count and the
      buffer as the reader left it, or an I/O error. */
  datatype ReadReply =
    | Filled(count: nat, buf: seq<Byte>)
    | Failed(error: IoError)

  /** An asynchronous byte reader (`IoHandle::Read`), seen as the reply it
      gives when asked to fill a given buffer. */
  datatype Reader = Reader(pollRead: seq<Byte> -> ReadReply)

  // ---------------------------------------------------------------------
  // The `Data` implementation for `[u64; DIMS]`
  // ---------------------------------------------------------------------

  /** `ARRAY_VERSION`, the `VERSION` of the array implementation. */
  const ARRAY_VERSION: U32 := 0

  /** `dim`: the projection on dimension `i` is the `i`-th cell (indexing
      out of bounds panics, hence the precondition). */
  function Dim(x: seq<U64>, i: nat): (v: U64)
    requires i < |x|
    ensures v == x[i]
  {
    x[i]
  }

  /** The dimension values the engine hands to `decode` for a record `x`:
      `[x.dim(0), ..., x.dim(n - 1)]`. */
  function DimsOf(x: seq<U64>): (d: seq<U64>)
    ensures |d| == |x|
    ensures forall i :: 0 <= i < |x| ==> d[i] == Dim(x, i)
  {
    seq(|x|, i requires 0 <= i < |x| => Dim(x, i))
  }

  /**
   * `decode` for `[u64; n]`: a zeroed array is filled by `copy_from_slice`
   * from the supplied dimension values, which panics unless exactly `n`
   * of them are supplied. The version and the payload are not looked at.
   */
  function DecodeArray(n: nat, version: U32, dims: seq<U64>, payload: seq<Byte>): (r: Result<seq<U64>, IoError>)
    requires |dims| == n
    ensures r.Ok? && |r.value| == n
    ensures forall i :: 0 <= i < n ==> Dim(r.value, i) == dims[i]
  {
    // `copy_from_slice` overwrites every cell of the zeroed array.
    Ok(dims)
  }

  /** `encode` for `[u64; n]`: the output buffer `out` is left as it is
      (dimension values are never part of a payload) and the call succeeds. */
  function EncodeArray(x: seq<U64>, out: seq<Byte>): (r: Result<seq<Byte>, IoError>)
    ensures r.Ok? && r.value == out
  {
    Ok(out)
  }

  /** Decoding ignores the version and the payload it is given. */
  lemma DecodeArrayIgnoresVersionAndPayload(n: nat, v1: U32, v2: U32, dims: seq<U64>, p1: seq<Byte>, p2: seq<Byte>)
    requires |dims| == n
    ensures DecodeArray(n, v1, dims, p1) == DecodeArray(n, v2, dims, p2) == Ok(dims)
  {
  }

  /**
   * The round trip of the record contract: decoding, at the array version,
   * the payload `encode(x)` appended to an empty buffer together with the
   * projections `[x.dim(0), ..., x.dim(n - 1)]`, gives back `x`.
   */
  lemma ArrayRoundTrip(n: nat, x: seq<U64>)
    requires |x| == n
    ensures EncodeArray(x, []).Ok?
    ensures DecodeArray(n, ARRAY_VERSION, DimsOf(x), EncodeArray(x, []).value) == Ok(x)
  {
    var d := DimsOf(x);
    assert d == x by {
      forall i | 0 <= i < n ensures d[i] == x[i] {
        assert d[i] == Dim(x, i);
      }
    }
    DecodeArrayIgnoresVersionAndPayload(n, ARRAY_VERSION, ARRAY_VERSION, d, [], []);
  }

  // ---------------------------------------------------------------------
  // The storage contract `IoHandle`
  // ---------------------------------------------------------------------

  /**
   * A storage handle. `Backend` is an implementation of `IoHandle` of its
   * own: `hint` is its `hint_is_valid` when it overrides the provided one
   * (`None` when it keeps the default), and `readChunk` is its `read_chunk`,
   * whose result is a storage format version and a reader. `Deref` is any
   * smart pointer whose target implements `IoHandle`, which the blanket
   * implementation makes an `IoHandle` too.
   */
  datatype IoHandle =
    | Backend(hint: Option<Pos -> bool>, readChunk: Pos -> Result<(U32, Reader), IoError>)
    | Deref(target: IoHandle)

  /** `IoHandle::hint_is_valid`: the default answers `true`, an override
      answers itself, and a pointer asks its target. */
  function HintIsValid(h: IoHandle, pos: Pos): (valid: bool)
    ensures Target(h).hint.None? ==> valid
    ensures Target(h).hint.Some? ==> valid == Target(h).hint.value(pos)
  {
    match h
    case Backend(hint, _) =>
      if hint.None? then DefaultHintIsValid(pos) else hint.value(pos)
    case Deref(target) => HintIsValid(target, pos)
  }

  /** The provided `hint_is_valid`, which ignores the position. */
  function DefaultHintIsValid(pos: Pos): (valid: bool)
    ensures valid
  {
    true
  }

  /** `IoHandle::read_chunk`: a pointer forwards to its target. */
  function ReadChunk(h: IoHandle, pos: Pos): (r: Result<(U32, Reader), IoError>)
    ensures r == Target(h).readChunk(pos)
  {
    match h
    case Backend(_, readChunk) => readChunk(pos)
    case Deref(target) => ReadChunk(target, pos)
  }

  /** The implementation a chain of pointers finally dereferences to. */
  function Target(h: IoHandle): (t: IoHandle)
    ensures t.Backend?
    ensures h.Backend? ==> t == h
  {
    match h
    case Backend(_, _) => h
    case Deref(target) => Target(target)
  }

  /** However many pointers wrap a handle, `hint_is_valid` and `read_chunk`
      answer for every position exactly as the implementation behind them. */
  lemma {:induction false} DerefForwards(h: IoHandle, pos: Pos)
    ensures HintIsValid(h, pos) == HintIsValid(Target(h), pos)
    ensures ReadChunk(h, pos) == ReadChunk(Target(h), pos)
  {
    match h
    case Backend(_, _) =>
    case Deref(target) => DerefForwards(target, pos);
  }

  /** A handle whose implementation keeps the provided `hint_is_valid`
      reports every position valid, also behind any chain of pointers. */
  lemma {:induction false} DefaultHintHoldsEverywhere(h: IoHandle, pos: Pos)
    requires Target(h).hint.None?
    ensures HintIsValid(h, pos)
  {
    DerefForwards(h, pos);
  }
}
