/** The owning, move-only handle around an activated streaming client and its
    mix format descriptor. Pointers are `Option` resource ids; every release the
    handle performs is appended to an immutable ledger, so "released exactly
    once" is a statement about counts in the ledger. */
module ClientHandle {
  import opened Wrappers
  import opened Native

  /** The handle's two pointers, held together. */
  datatype Handle = Handle(client: Option<ClientId>, format: Option<FormatBlock>)

  /** A handle that owns nothing (both pointers null). */
  const Null: Handle := Handle(None, None)

  /** The paired-presence invariant: both pointers set or both null. */
  predicate Paired(h: Handle) { h.client.Some? <==> h.format.Some? }

  /** Both pointers set. */
  predicate Live(h: Handle) { h.client.Some? && h.format.Some? }

  /** The resources a handle is responsible for releasing. */
  function Owned(h: Handle): set<Resource>
  {
    (if h.client.Some? then {ClientRes(h.client.value)} else {})
    + (if h.format.Some? then {FormatRes(h.format.value.id)} else {})
  }

  /** 1 when `h` owns `r`, else 0. */
  function Mark(h: Handle, r: Resource): nat { if r in Owned(h) then 1 else 0 }

  /** The release events performed so far, in order. */
  type Ledger = seq<Resource>

  /** How many times `r` has been released. */
  function Released(l: Ledger, r: Resource): nat { multiset(l)[r] }

  /** The constructor taking ownership of an activated client and its format. */
  function Construct(client: ClientId, format: FormatBlock): (h: Handle)
    ensures Live(h) && Paired(h)
    ensures Owned(h) == {ClientRes(client), FormatRes(format.id)}
    ensures h.format == Some(format)
  {
    Handle(Some(client), Some(format))
  }

  /** Releases what the handle owns (client first, then the format) and nulls
      both pointers; on an empty handle it does nothing. `Paired` is the pair of
      debug assertions the operation makes. Returns the emptied handle and the
      extended ledger. */
  function Uninitialise(h: Handle, l: Ledger): (r: (Handle, Ledger))
    requires Paired(h)
    ensures r.0 == Null
    ensures l <= r.1
    ensures forall x :: Released(r.1, x) == Released(l, x) + Mark(h, x)
    ensures !Live(h) ==> r.1 == l
  {
    match h.client
    case None => (Null, l)
    case Some(c) => (Null, l + [ClientRes(c), FormatRes(h.format.value.id)])
  }

  /** Move construction: the new handle takes the source's pair, the source is
      left null, and nothing is released. Returns (new handle, source after). */
  function MoveConstruct(other: Handle): (r: (Handle, Handle))
    requires Live(other)
    ensures Live(r.0) && r.0 == other
    ensures r.1 == Null && Owned(r.1) == {}
    ensures Owned(r.0) == Owned(other)
  {
    (other, Null)
  }

  /** Move assignment: the destination first releases what it held, then takes
      the source's pair; the source is left null. Returns (destination after,
      source after, ledger). Self-assignment is not guarded by the operation;
      handles have no identity in this value model, so excluding it is left to
      the store of handles (see `Ownership`). */
  function MoveAssign(self: Handle, rhs: Handle, l: Ledger): (r: (Handle, Handle, Ledger))
    requires Live(rhs) && Paired(self)
    ensures r.0 == rhs && Owned(r.0) == Owned(rhs)
    ensures r.1 == Null
    ensures l <= r.2
    ensures forall x :: Released(r.2, x) == Released(l, x) + Mark(self, x)
  {
    var (_, l') := Uninitialise(self, l);
    (rhs, Null, l')
  }

  /** The property snapshot: engine period bounds and the sample format. */
  datatype Properties = Properties(
    defaultBufferSize: U32,
    fundamentalBufferSize: U32,
    minimumBufferSize: U32,
    maximumBufferSize: U32,
    sampleRate: U32,
    bitsPerSample: U16,
    numChannels: U16)

  /** The engine-period part of a snapshot. */
  function PeriodOf(p: Properties): EnginePeriod
  {
    EnginePeriod(p.defaultBufferSize, p.fundamentalBufferSize, p.minimumBufferSize, p.maximumBufferSize)
  }

  /** The sample-format part of a snapshot. */
  function WaveOf(p: Properties): WaveFormat
  {
    WaveFormat(p.sampleRate, p.bitsPerSample, p.numChannels)
  }

  /** Queries the engine period (`enginePeriod` is the platform's answer, `None`
      when the query fails) and reads the sample format from the owned
      descriptor. The handle must be live: the operation dereferences both
      pointers unguarded. It returns no handle, so it cannot change what the
      handle owns. */
  function GetProperties(h: Handle, enginePeriod: Option<EnginePeriod>): (r: Result<Properties, WindowsError>)
    requires Live(h)
    ensures r.Err? <==> enginePeriod.None?
    ensures r.Ok? ==> PeriodOf(r.value) == enginePeriod.value
    ensures r.Ok? ==> WaveOf(r.value) == h.format.value.wave
  {
    match enginePeriod
    case None => Err(WindowsError)
    case Some(e) =>
      var w := h.format.value.wave;
      Ok(Properties(e.defaultFrames, e.fundamentalFrames, e.minFrames, e.maxFrames,
                    w.sampleRate, w.bitsPerSample, w.numChannels))
  }

  /** An explicit `Uninitialise` followed by the destructor's releases each
      owned resource once in total and leaves the handle null. */
  lemma UninitialiseIsIdempotent(h: Handle, l: Ledger)
    requires Paired(h)
    ensures var (h1, l1) := Uninitialise(h, l);
            var (h2, l2) := Uninitialise(h1, l1);
            h2 == Null && l2 == l1
            && forall x :: Released(l2, x) == Released(l, x) + Mark(h, x)
  {
  }

  /** Moving a handle then destroying both the moved-to and the moved-from
      handle releases each of the original resources exactly once. */
  lemma MoveThenDestroyBothReleasesOnce(h: Handle, l: Ledger)
    requires Live(h)
    ensures var (dst, src) := MoveConstruct(h);
            var (_, l1) := Uninitialise(src, l);
            var (_, l2) := Uninitialise(dst, l1);
            forall x :: Released(l2, x) == Released(l, x) + Mark(h, x)
  {
  }
}
