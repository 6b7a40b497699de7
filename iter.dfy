/**
 * The deferred value handle `Lazy` of a range scan and its byte-reading
 * helper `FromBytes`.
 *
 * A handle either points at a record of an already loaded chunk (`Mem`) or
 * owns a reader over the raw payload of `len` bytes (`Io`). `GetOrInit`
 * resolves it once: a resolved handle answers from its write-once slot; a
 * `Mem` handle asks the world for the record; an `Io` handle first compares
 * the live generation counter with the snapshot taken at scan start, then
 * takes its reader, reads exactly `len` bytes and decodes them.
 *
 * The world lookup, the reader and the record decoder are outside this
 * model and appear as functions (`World`, `Reader`, `Decoder`). Every
 * observable effect of a call is recorded as an `Event`, so that "no lookup",
 * "no read" and "check before decode" can be stated.
 */
module Iter {
  import opened Dmds

  /** How a handle's value is obtained. */
  datatype ReadType =
    | Mem(chunk: Pos)
    | Io(len: nat)

  /** The errors `get_or_init` reports. */
  datatype Error =
    | Io(cause: IoError)
    | ValueTaken
    | ValueNotFound
    | IterUpdated(expected: nat, current: Option<nat>)

  /** The content of the write-once slot: a record borrowed from a loaded
      chunk, or a record decoded by the handle itself. */
  datatype Value<R> = Ref(borrowed: R) | Direct(owned: R) {
    /** The record either kind of value gives access to. */
    function Get(): (r: R)
      ensures this == Ref(r) || this == Direct(r)
    {
      match this
      case Ref(v) => v
      case Direct(v) => v
    }
  }

  /** `World::get` as seen by a handle: a chunk position and a dimension-0
      key give the record stored there, if any. */
  datatype World<R> = World(get: (Pos, U64) -> Option<R>)

  /** `T::decode` as called by `FromBytes`: dimension values and the payload
      bytes give a record or an I/O error. */
  datatype Decoder<R> = Decoder(decode: (seq<U64>, seq<Byte>) -> Result<R, IoError>)

  /** The observable effects of resolving a handle, in the order they
      happen. `CheckGeneration` is the staleness check: upgrading the weak
      link and, when the world is still there, loading the counter. */
  datatype Event =
    | WorldGet(chunk: Pos, key: U64)
    | CheckGeneration
    | PollRead(buf: seq<Byte>)
    | Decode(dims: seq<U64>, buf: seq<Byte>)

  /** Whether a decode happens among `events`. */
  predicate Decodes(events: seq<Event>) {
    exists i :: 0 <= i < |events| && events[i].Decode?
  }

  /** The number of reads among `events`. */
  function CountPolls(events: seq<Event>): (n: nat)
    ensures n <= |events|
  {
    if events == [] then 0
    else (if events[0].PollRead? then 1 else 0) + CountPolls(events[1..])
  }

  lemma {:induction false} CountPollsAppend(a: seq<Event>, b: seq<Event>)
    ensures CountPolls(a + b) == CountPolls(a) + CountPolls(b)
  {
    if a == [] {
      assert a + b == b;
    } else {
      assert (a + b)[1..] == a[1..] + b;
      CountPollsAppend(a[1..], b);
    }
  }

  /** `BytesMut::with_capacity(n)` followed by `put_bytes(0, n)`. */
  function Zeros(n: nat): (z: seq<Byte>)
    ensures |z| == n
    ensures forall i :: 0 <= i < n ==> z[i] == 0
  {
    seq(n, _ => 0 as Byte)
  }

  // ---------------------------------------------------------------------
  // FromBytes
  // ---------------------------------------------------------------------

  /** The outcome of one read-and-decode: the result, what is left in the
      buffer slot, and the effects. */
  datatype ReadStep<R> = ReadStep(result: Result<R, IoError>, buf: Option<seq<Byte>>, events: seq<Event>)

  /**
   * Reading `len` bytes from `read` into `buf` and decoding them: a reader
   * error is passed on unchanged and a byte count other than `len` is an
   * `UnexpectedEof` error, in both cases without decoding; a full read hands
   * the buffer as the reader left it, with `dims`, to the decoder and empties
   * the buffer slot.
   */
  function ReadExact<R>(read: Reader, decoder: Decoder<R>, dims: seq<U64>, len: nat, buf: seq<Byte>): (step: ReadStep<R>)
    ensures |step.events| > 0 && step.events[0] == PollRead(buf)
    ensures read.pollRead(buf).Failed? ==>
              step.result == Err(read.pollRead(buf).error) && !Decodes(step.events)
    ensures read.pollRead(buf).Filled? && read.pollRead(buf).count != len ==>
              step.result == Err(UnexpectedEof(read.pollRead(buf).count, len)) && !Decodes(step.events)
    ensures read.pollRead(buf).Filled? && read.pollRead(buf).count == len ==>
              && step.result == decoder.decode(dims, read.pollRead(buf).buf)
              && step.buf.None?
              && step.events == [PollRead(buf), Decode(dims, read.pollRead(buf).buf)]
    ensures step.buf.None? <==> read.pollRead(buf).Filled? && read.pollRead(buf).count == len
  {
    match read.pollRead(buf)
    case Failed(e) => ReadStep(Err(e), Some(buf), [PollRead(buf)])
    case Filled(n, after) =>
      if n != len then ReadStep(Err(UnexpectedEof(n, len)), Some(after), [PollRead(buf)])
      else ReadStep(decoder.decode(dims, after), None, [PollRead(buf), Decode(dims, after)])
  }

  /** The future that reads a payload of `len` bytes and decodes it. Its
      buffer slot starts empty; the first poll fills it with `len` zero
      bytes and reads into it. */
  class FromBytes<R> {
    const read: Reader
    const dims: seq<U64>
    const len: nat
    const decoder: Decoder<R>
    var buf: Option<seq<Byte>>
    ghost var trace: seq<Event>

    constructor (read: Reader, dims: seq<U64>, len: nat, decoder: Decoder<R>)
      ensures this.read == read && this.dims == dims && this.len == len && this.decoder == decoder
      ensures buf.None? && trace == []
    {
      this.read := read;
      this.dims := dims;
      this.len := len;
      this.decoder := decoder;
      buf := None;
      trace := [];
    }

    /** The buffer a poll reads into: the installed one, or a fresh one of
        `len` zero bytes when none is installed yet. */
    ghost function ReadBuffer(): seq<Byte>
      reads this
    {
      if buf.None? then Zeros(len) else buf.value
    }

    method Poll() returns (r: Result<R, IoError>)
      modifies this
      decreases if buf.None? then 1 else 0
      ensures var step := ReadExact(read, decoder, dims, len, old(ReadBuffer()));
              r == step.result && buf == step.buf && trace == old(trace) + step.events
    {
      if buf.Some? {
        var b := buf.value;
        trace := trace + [PollRead(b)];
        match read.pollRead(b)
        case Failed(e) =>
          return Err(e);
        case Filled(actLen, after) =>
          buf := Some(after);
          if actLen != len {
            return Err(UnexpectedEof(actLen, len));
          }
          var frozen := buf.value;
          buf := None;
          trace := trace + [Decode(dims, frozen)];
          r := decoder.decode(dims, frozen);
      } else {
        buf := Some(Zeros(len));
        r := Poll();
      }
    }
  }

  // ---------------------------------------------------------------------
  // Lazy: the specification of get_or_init
  // ---------------------------------------------------------------------

  /** Everything `get_or_init` depends on: the handle's fields and the value
      the live generation counter has right now (`None` once the world that
      owns it is gone). */
  datatype LazyState<R> = LazyState(
    world: World<R>,
    decoder: Decoder<R>,
    dims: seq<U64>,
    readType: ReadType,
    value: Option<Value<R>>,
    read: Option<Reader>,
    expected: nat,
    current: Option<nat>)

  /** The outcome of one `get_or_init` call. */
  datatype Step<R> = Step(result: Result<R, Error>, next: LazyState<R>, events: seq<Event>)

  /**
   * The states in which `get_or_init` does not panic: a `Mem` handle indexes
   * `dims[0]`, and an `Io` handle that passes the generation check unwraps
   * its reader slot.
   */
  predicate CanResolve<R>(s: LazyState<R>): (ok: bool)
    ensures s.value.Some? ==> ok
    ensures s.readType.Io? && s.current != Some(s.expected) ==> ok
    ensures s.read.Some? && (s.readType.Mem? ==> |s.dims| > 0) ==> ok
  {
    && (s.value.None? && s.readType.Mem? ==> |s.dims| > 0)
    && (s.value.None? && s.readType.Io? && s.current == Some(s.expected) ==> s.read.Some?)
  }

  /**
   * One call of `get_or_init` on state `s`. Only the two slots change; a
   * filled value slot never changes, and after the call it is filled exactly
   * when the call succeeded, with the record returned; the reader slot is
   * never refilled.
   */
  function Resolve<R>(s: LazyState<R>): (step: Step<R>)
    requires CanResolve(s)
    ensures step.next == s.(value := step.next.value, read := step.next.read)
    ensures s.value.Some? ==> step.next.value == s.value
    ensures step.next.value.Some? <==> step.result.Ok?
    ensures step.result.Ok? ==> step.result.value == step.next.value.value.Get()
    ensures step.next.read.Some? ==> step.next.read == s.read
  {
    match s.value
    case Some(v) => Step(Ok(v.Get()), s, [])
    case None =>
      match s.readType
      case Mem(chunk) =>
        var events := [WorldGet(chunk, s.dims[0])];
        var found := s.world.get(chunk, s.dims[0]);
        if found.None? then Step(Err(Error.ValueNotFound), s, events)
        else Step(Ok(found.value), s.(value := Some(Ref(found.value))), events)
      case Io(len) =>
        if s.current != Some(s.expected) then
          Step(Err(IterUpdated(s.expected, s.current)), s, [CheckGeneration])
        else
          var fb := ReadExact(s.read.value, s.decoder, s.dims, len, Zeros(len));
          var taken := s.(read := None);
          if fb.result.Err? then Step(Err(Error.Io(fb.result.error)), taken, [CheckGeneration] + fb.events)
          else Step(Ok(fb.result.value), taken.(value := Some(Direct(fb.result.value))), [CheckGeneration] + fb.events)
  }

  /** The states in which the evidently intended `get_or_init` does not
      panic: only a zero-dimensional `Mem` handle indexing `dims[0]` does. */
  predicate CanResolveIntended<R>(s: LazyState<R>) {
    s.value.None? && s.readType.Mem? ==> |s.dims| > 0
  }

  /**
   * `get_or_init` as its `ValueTaken` variant ("requiring value has been
   * taken") says it is meant to behave: an `Io` handle that passes the
   * generation check but whose reader was already taken fails with
   * `ValueTaken` and changes nothing, instead of panicking. Every other case
   * is that of `Resolve`.
   */
  function ResolveIntended<R>(s: LazyState<R>): (step: Step<R>)
    requires CanResolveIntended(s)
    ensures step.next == s.(value := step.next.value, read := step.next.read)
    ensures step.next.value.Some? <==> step.result.Ok?
  {
    if s.value.None? && s.readType.Io? && s.current == Some(s.expected) && s.read.None? then
      Step(Err(ValueTaken), s, [CheckGeneration])
    else
      Resolve(s)
  }

  // ---------------------------------------------------------------------
  // Lazy: the handle
  // ---------------------------------------------------------------------

  /** The weak link to the world's generation counter: upgrading it and
      loading the counter gives `current`, or `None` once the world is gone.
      The world changes it; handles only read it. */
  class GenerationLink {
    var current: Option<nat>

    constructor (current: Option<nat>)
      ensures this.current == current
    {
      this.current := current;
    }
  }

  class Lazy<R> {
    const world: World<R>
    const dims: seq<U64>
    const readType: ReadType
    /** The write-once value slot (`OnceLock<Value>`). */
    var value: Option<Value<R>>
    /** The one-shot reader slot (`Mutex<Option<reader>>`). */
    var read: Option<Reader>
    /** `state.current`, the weak link to the live counter. */
    const current: GenerationLink
    /** `state.expected`, the counter's value when the scan began. */
    const expected: nat
    /** `T::decode`. */
    const decoder: Decoder<R>
    ghost var trace: seq<Event>

    constructor (world: World<R>, dims: seq<U64>, readType: ReadType, read: Option<Reader>,
                 current: GenerationLink, expected: nat, decoder: Decoder<R>)
      ensures State() == LazyState(world, decoder, dims, readType, None, read, expected, current.current)
      ensures this.current == current && trace == []
    {
      this.world := world;
      this.dims := dims;
      this.readType := readType;
      this.read := read;
      this.current := current;
      this.expected := expected;
      this.decoder := decoder;
      value := None;
      trace := [];
    }

    ghost function State(): LazyState<R>
      reads this, current
    {
      LazyState(world, decoder, dims, readType, value, read, expected, current.current)
    }

    /** `dims`: the dimension values of the record behind the handle; the
        `Mem` path looks the record up by the first of them and the `Io`
        path hands them all to the decoder. */
    function Dims(): (d: seq<U64>)
      ensures d == State().dims
      reads this, current
    {
      dims
    }

    method GetOrInit() returns (r: Result<R, Error>)
      requires CanResolve(State())
      modifies this
      ensures var step := Resolve(old(State()));
              r == step.result && State() == step.next && trace == old(trace) + step.events
    {
      if value.Some? {
        return Ok(value.value.Get());
      }
      match readType
      case Mem(chunk) =>
        trace := trace + [WorldGet(chunk, dims[0])];
        var found := world.get(chunk, dims[0]);
        if found.None? {
          return Err(Error.ValueNotFound);
        }
        value := Some(Ref(found.value));
        r := Ok(value.value.Get());
      case Io(len) =>
        var live := current.current;
        trace := trace + [CheckGeneration];
        if live != Some(expected) {
          return Err(IterUpdated(expected, live));
        }
        var reader := read.value;
        read := None;
        var fb := new FromBytes(reader, dims, len, decoder);
        var decoded := fb.Poll();
        trace := trace + fb.trace;
        if decoded.Err? {
          return Err(Error.Io(decoded.error));
        }
        value := Some(Direct(decoded.value));
        r := Ok(value.value.Get());
    }
  }
}

/**
 * What `get_or_init` promises, stated about its specification `Resolve`
 * (one call) and `RunCalls` (a sequence of calls on the same handle, with
 * the counter as the world has it at each call).
 */
module IterProperties {
  import opened Dmds
  import opened Iter

  /** A resolved handle returns its stored record and has no effect: no
      lookup, no staleness check, no read; its state stays as it is. */
  lemma ResolvedReturnsStored<R>(s: LazyState<R>)
    requires s.value.Some?
    ensures CanResolve(s)
    ensures Resolve(s) == Step(Ok(s.value.value.Get()), s, [])
  {
  }

  /** `Mem` path, record missing: `ValueNotFound`, the value slot stays
      empty, and the only effect is the lookup of `(chunk, dims[0])`. */
  lemma MemMissing<R>(s: LazyState<R>)
    requires s.value.None? && s.readType.Mem? && |s.dims| > 0
    requires s.world.get(s.readType.chunk, s.dims[0]).None?
    ensures CanResolve(s)
    ensures Resolve(s) == Step(Err(Iter.Error.ValueNotFound), s, [WorldGet(s.readType.chunk, s.dims[0])])
  {
  }

  /** `Mem` path, record found: the slot now borrows that record and the
      same record is returned; no staleness check happens and the reader
      slot is left alone. */
  lemma MemFound<R>(s: LazyState<R>, rec: R)
    requires s.value.None? && s.readType.Mem? && |s.dims| > 0
    requires s.world.get(s.readType.chunk, s.dims[0]) == Some(rec)
    ensures CanResolve(s)
    ensures Resolve(s).result == Ok(rec)
    ensures Resolve(s).next == s.(value := Some(Ref(rec)))
    ensures Resolve(s).events == [WorldGet(s.readType.chunk, s.dims[0])]
    ensures CheckGeneration !in Resolve(s).events
  {
  }

  /** `Io` path, stale: when the counter is gone or differs from the
      snapshot, `IterUpdated` reports both; the staleness check is the only
      effect, and the reader and value slots are untouched. */
  lemma StaleFails<R>(s: LazyState<R>)
    requires s.value.None? && s.readType.Io?
    requires s.current != Some(s.expected)
    ensures CanResolve(s)
    ensures Resolve(s) == Step(Err(IterUpdated(s.expected, s.current)), s, [CheckGeneration])
  {
  }

  /** `Io` path, current: the reader is taken out of its slot and asked to
      fill `len` zero bytes, after the staleness check passed. A reader error
      or a byte count other than `len` fails the call as `Io` without decoding
      and leaves the value slot empty. */
  lemma FreshReadTakesReader<R>(s: LazyState<R>)
    requires s.value.None? && s.readType.Io? && s.current == Some(s.expected)
    requires s.read.Some?
    ensures CanResolve(s)
    ensures var step := Resolve(s);
            && step.next.read.None?
            && |step.events| >= 2
            && step.events[0] == CheckGeneration
            && step.events[1] == PollRead(Zeros(s.readType.len))
    ensures var reply := s.read.value.pollRead(Zeros(s.readType.len));
            reply.Failed? ==>
              Resolve(s) == Step(Err(Iter.Error.Io(reply.error)), s.(read := None), [CheckGeneration, PollRead(Zeros(s.readType.len))])
    ensures var reply := s.read.value.pollRead(Zeros(s.readType.len));
            reply.Filled? && reply.count != s.readType.len ==>
              Resolve(s) == Step(Err(Iter.Error.Io(UnexpectedEof(reply.count, s.readType.len))), s.(read := None),
                                 [CheckGeneration, PollRead(Zeros(s.readType.len))])
  {
  }

  /** `Io` path, full read: the filled buffer and `dims` go to the decoder;
      a decoded record is stored as `Direct` and returned, a decoder error
      becomes `Io` and leaves the value slot empty. */
  lemma FullReadDecodes<R>(s: LazyState<R>, filled: seq<Byte>)
    requires s.value.None? && s.readType.Io? && s.current == Some(s.expected)
    requires s.read.Some?
    requires s.read.value.pollRead(Zeros(s.readType.len)) == Filled(s.readType.len, filled)
    ensures CanResolve(s)
    ensures Resolve(s).events == [CheckGeneration, PollRead(Zeros(s.readType.len)), Decode(s.dims, filled)]
    ensures var decoded := s.decoder.decode(s.dims, filled);
            && (decoded.Ok? ==> Resolve(s) == Step(Ok(decoded.value), s.(read := None, value := Some(Direct(decoded.value))), Resolve(s).events))
            && (decoded.Err? ==> Resolve(s) == Step(Err(Iter.Error.Io(decoded.error)), s.(read := None), Resolve(s).events))
  {
  }

  /** A decode happens only on the `Io` path, after a staleness check that
      found the counter equal to the snapshot, and it gets the handle's dims. */
  lemma DecodeOnlyAfterGenerationCheck<R>(s: LazyState<R>, i: nat)
    requires CanResolve(s)
    requires i < |Resolve(s).events| && Resolve(s).events[i].Decode?
    ensures s.value.None? && s.readType.Io? && s.current == Some(s.expected)
    ensures 0 < i && Resolve(s).events[0] == CheckGeneration
    ensures Resolve(s).events[i].dims == s.dims
  {
  }

  /** A single call reads at most once, and only by taking the reader out of
      its slot; a reader slot is never refilled. */
  lemma StepPollsAtMostOnce<R>(s: LazyState<R>)
    requires CanResolve(s)
    ensures CountPolls(Resolve(s).events) <= 1
    ensures CountPolls(Resolve(s).events) == 1 ==> s.read.Some? && Resolve(s).next.read.None?
    ensures Resolve(s).next.read.Some? ==> Resolve(s).next.read == s.read
  {
    if s.value.None? && s.readType.Io? && s.current == Some(s.expected) {
      var fb := ReadExact(s.read.value, s.decoder, s.dims, s.readType.len, Zeros(s.readType.len));
      assert Resolve(s).events == [CheckGeneration] + fb.events;
      assert CountPolls(fb.events[1..]) == 0 by {
        if |fb.events| > 1 {
          assert fb.events[1..][1..] == [];
        }
      }
    } else if s.value.None? {
      assert CountPolls(Resolve(s).events[1..]) == 0;
    }
  }

  /** The outcome of a sequence of `get_or_init` calls: the result of each
      call, the final state, all effects in order, and whether the sequence
      ended in a panic (the remaining calls then never happen). */
  datatype Run<R> = Run(results: seq<Result<R, Iter.Error>>, final: LazyState<R>, events: seq<Event>, panicked: bool)

  /** Calling `get_or_init` once per entry of `lives`, the counter reading
      `lives[k]` at the `k`-th call. */
  function RunCalls<R>(s: LazyState<R>, lives: seq<Option<nat>>): (run: Run<R>)
    ensures |run.results| <= |lives|
    ensures !run.panicked ==> |run.results| == |lives|
    decreases |lives|
  {
    if lives == [] then Run([], s, [], false)
    else
      var s0 := s.(current := lives[0]);
      if !CanResolve(s0) then Run([], s0, [], true)
      else
        var step := Resolve(s0);
        var rest := RunCalls(step.next, lives[1..]);
        Run([step.result] + rest.results, rest.final, step.events + rest.events, rest.panicked)
  }

  /** Once the slot is filled, every later call returns the stored record,
      whatever the counter reads, without any effect and without a panic. */
  lemma {:induction false} OnceResolvedAlwaysSame<R>(s: LazyState<R>, lives: seq<Option<nat>>)
    requires s.value.Some?
    ensures var run := RunCalls(s, lives);
            && !run.panicked
            && run.events == []
            && run.final.value == s.value
            && forall k :: 0 <= k < |run.results| ==> run.results[k] == Ok(s.value.value.Get())
    decreases |lives|
  {
    if lives != [] {
      var s0 := s.(current := lives[0]);
      assert Resolve(s0) == Step(Ok(s.value.value.Get()), s0, []);
      OnceResolvedAlwaysSame(s0, lives[1..]);
    }
  }

  /** Idempotence: after a first successful call, every later call returns
      the very same record. */
  lemma FirstSuccessIsFinal<R>(s: LazyState<R>, lives: seq<Option<nat>>)
    requires |lives| > 0 && CanResolve(s.(current := lives[0]))
    requires Resolve(s.(current := lives[0])).result.Ok?
    ensures var run := RunCalls(s, lives);
            && !run.panicked
            && forall k :: 0 <= k < |run.results| ==> run.results[k] == run.results[0]
  {
    var step := Resolve(s.(current := lives[0]));
    OnceResolvedAlwaysSame(step.next, lives[1..]);
  }

  /** The reader is consumed at most once over any sequence of calls, and not
      at all by a handle whose reader slot is empty. */
  lemma {:induction false} ReaderPolledAtMostOnce<R>(s: LazyState<R>, lives: seq<Option<nat>>)
    ensures CountPolls(RunCalls(s, lives).events) <= (if s.read.Some? then 1 else 0)
    decreases |lives|
  {
    if lives != [] {
      var s0 := s.(current := lives[0]);
      if CanResolve(s0) {
        var step := Resolve(s0);
        StepPollsAtMostOnce(s0);
        ReaderPolledAtMostOnce(step.next, lives[1..]);
        CountPollsAppend(step.events, RunCalls(step.next, lives[1..]).events);
      }
    }
  }

  /** As written, no call ever reports `ValueTaken`: a call that needs a
      reader the slot no longer holds panics instead. */
  lemma {:induction false} NeverValueTaken<R>(s: LazyState<R>, lives: seq<Option<nat>>)
    ensures forall k :: 0 <= k < |RunCalls(s, lives).results| ==> RunCalls(s, lives).results[k] != Err(ValueTaken)
    decreases |lives|
  {
    if lives != [] {
      var s0 := s.(current := lives[0]);
      if CanResolve(s0) {
        var step := Resolve(s0);
        NeverValueTaken(step.next, lives[1..]);
        assert step.result != Err(ValueTaken);
      }
    }
  }

  /** As written: an `Io` handle whose first read comes up short fails with
      `UnexpectedEof` and loses its reader; a retry while the counter still
      matches panics at the unwrap of the empty reader slot. */
  lemma RetryAfterShortReadPanics<R>(s: LazyState<R>, count: nat, after: seq<Byte>)
    requires s.value.None? && s.readType.Io? && s.read.Some?
    requires s.read.value.pollRead(Zeros(s.readType.len)) == Filled(count, after)
    requires count != s.readType.len
    ensures var run := RunCalls(s, [Some(s.expected), Some(s.expected)]);
            run.results == [Err(Iter.Error.Io(UnexpectedEof(count, s.readType.len)))] && run.panicked
  {
    assert [Some(s.expected), Some(s.expected)][1..] == [Some(s.expected)];
  }

  /** Intended: the same retry fails with `ValueTaken` and changes nothing. */
  lemma RetryAfterShortReadIsValueTaken<R>(s: LazyState<R>, count: nat, after: seq<Byte>)
    requires s.value.None? && s.readType.Io? && s.read.Some?
    requires s.read.value.pollRead(Zeros(s.readType.len)) == Filled(count, after)
    requires count != s.readType.len
    ensures var s0 := s.(current := Some(s.expected));
            && CanResolveIntended(s0)
            && ResolveIntended(s0).result == Err(Iter.Error.Io(UnexpectedEof(count, s.readType.len)))
            && var s1 := ResolveIntended(s0).next;
               && CanResolveIntended(s1)
               && ResolveIntended(s1) == Step(Err(ValueTaken), s1, [CheckGeneration])
               && s1.value.None? && s1.read.None?
  {
  }

  /** Wherever the code as written does not panic, the intended behaviour is
      exactly the code's. */
  lemma ResolveIntendedAgrees<R>(s: LazyState<R>)
    requires CanResolve(s)
    ensures CanResolveIntended(s) && ResolveIntended(s) == Resolve(s)
  {
  }

  /** A structural change of the world after the scan began (the counter no
      longer reads the snapshot `expected`, or the world is gone) makes an
      unresolved `Io` handle fail with `IterUpdated`, reporting the snapshot
      and the new reading, without reading its payload. */
  method MutationAfterScanStartIsReported<R>(world: World<R>, dims: seq<U64>, len: nat, reader: Reader,
                                             decoder: Decoder<R>, expected: nat, later: Option<nat>)
    returns (r: Result<R, Iter.Error>)
    requires later != Some(expected)
    ensures r == Err(IterUpdated(expected, later))
  {
    var link := new GenerationLink(Some(expected));
    var handle := new Lazy(world, dims, ReadType.Io(len), Some(reader), link, expected, decoder);
    link.current := later;
    r := handle.GetOrInit();
    assert handle.trace == [CheckGeneration];
  }

  /** A handle whose first call succeeded keeps answering with the same
      record, whatever the counter reads afterwards (a changed world or a
      world that is gone). */
  method ResolvedBeforeMutationIsUnaffected<R>(world: World<R>, dims: seq<U64>, readType: ReadType,
                                               read: Option<Reader>, decoder: Decoder<R>,
                                               expected: nat, start: Option<nat>, later: Option<nat>)
    returns (first: Result<R, Iter.Error>, second: Result<R, Iter.Error>)
    requires CanResolve(LazyState(world, decoder, dims, readType, None, read, expected, start))
    requires Resolve(LazyState(world, decoder, dims, readType, None, read, expected, start)).result.Ok?
    ensures first.Ok? && second == first
  {
    var link := new GenerationLink(start);
    var handle := new Lazy(world, dims, readType, read, link, expected, decoder);
    first := handle.GetOrInit();
    link.current := later;
    second := handle.GetOrInit();
  }
}
