# Minimum-latency audio client, modelled in Dafny

This project models the core of `MinimumLatencyAudioClient`, the Windows
component that opens a low-latency shared-mode WASAPI stream on the default
render device. The model has three parts:

- **Buffer-size policy** (`BufferPolicy`): `CalculateBufferSize` clamps a
  target of 512 frames into the engine's reported `[minPeriod, maxPeriod]`
  range. Arguments and result are naturals below 2^32 (`UINT32`).
- **Client handle** (`ClientHandle`, `Ownership`): a move-only owner of two
  native resources, the `IAudioClient3` pointer and the `WAVEFORMATEX`
  descriptor. They are held as a pair of `Option` resource ids. Every release
  is appended to an immutable ledger:
  - a `ClientRes` entry stands for `Release()`;
  - a `FormatRes` entry stands for `CoTaskMemFree`.
  
  `Ownership` looks at all of a program's handles together. It proves that any
  run of constructions, moves and teardowns keeps each resource either held by
  exactly one handle or released exactly once. Destroying every handle then
  releases each acquired resource exactly once.
- **Startup sequence** (`Startup`): `Start` is a fold over the fixed order of
  nine platform calls, made against an oracle `Platform` record. That record
  gives each call's outcome and the values it returns. The first failure ends
  the sequence with the opaque `WindowsError`. Full success yields a handle that
  owns the activated client and the mix format.

`Wrappers` holds `Option` and `Result`. `Native` holds the fixed-width integer
types and the records exchanged with the platform.

Facts about the code that shape the model:
- `WindowsError()` is built without arguments (lines 18, 76 and 151), so the
  model's error is a bare tag carrying no status code.
- `CoInitialize` (line 99) is never followed by `CoUninitialize`. The model
  records no such pairing.
- When `minPeriod > maxPeriod`, line 87 returns `minPeriod`, because the outer
  `max` wins. The model proves exactly that.
- `GetProperties` dereferences both pointers without a guard (line 69). The
  model makes a live handle a precondition.
- The comment "Minimum 512 frames" beside the clamp is misleading: 512 is the
  target, not a floor. A range entirely below 512 yields `maxPeriod`.

## Model

| member | source | states |
|---|---|---|
| BufferPolicy.CalculateBufferSize | real-app/src/Windows/MinimumLatencyAudioClient.cpp:86-88 | Never below minPeriod. Exactly 512 when minPeriod ≤ 512 ≤ maxPeriod. maxPeriod when the whole range is below 512. minPeriod when minPeriod > 512 or when minPeriod > maxPeriod. In a well-formed range, the unique frame count of the range closest to 512. |
| ClientHandle.Construct | real-app/src/Windows/MinimumLatencyAudioClient.cpp:31-32 | The new handle is live and owns exactly the given client and format. |
| ClientHandle.Uninitialise | real-app/src/Windows/MinimumLatencyAudioClient.cpp:52-65 | Requires the paired-presence assertions. Leaves the handle null. Only appends to the ledger. Adds one release for each resource the handle owned and none for anything else. On an empty handle it releases nothing. |
| ClientHandle.MoveConstruct | real-app/src/Windows/MinimumLatencyAudioClient.cpp:20-29 | Requires a live source. The destination holds exactly the source's pair. The source becomes null. Nothing is released. |
| ClientHandle.MoveAssign | real-app/src/Windows/MinimumLatencyAudioClient.cpp:38-50 | Requires a live source. The destination's previous resources are each released once. The destination then holds the source's pair, and the source becomes null. |
| ClientHandle.GetProperties | real-app/src/Windows/MinimumLatencyAudioClient.cpp:67-84 | Requires a live handle. Fails exactly when the engine-period query fails. On success, reports the queried period bounds and the owned descriptor's sample rate, bit depth and channel count. |
| ClientHandle.UninitialiseIsIdempotent | real-app/src/Windows/MinimumLatencyAudioClient.cpp:34-65 | An explicit Uninitialise followed by the destructor's: the second call releases nothing, and each owned resource is released once in total. |
| ClientHandle.MoveThenDestroyBothReleasesOnce | real-app/src/Windows/MinimumLatencyAudioClient.cpp:20-36 | Move-construct, then destroy both the moved-from and the moved-to handle: each original resource is released exactly once. |
| Ownership.Apply | real-app/src/Windows/MinimumLatencyAudioClient.cpp:20-65 | One construction, move construction, move assignment or teardown on a store of handles. Only the slots it names change. A move's source and a torn-down slot end up null. A move's destination holds the source's former pair. Releases are only appended, and only a construction acquires resources. |
| Ownership.Teardown | real-app/src/Windows/MinimumLatencyAudioClient.cpp:34-36 | Running the destructors of the first n handles nulls those handles, leaves the others unchanged and keeps every handle paired. |
| Ownership.ApplyPreservesAccounting | real-app/src/Windows/MinimumLatencyAudioClient.cpp:20-65 | Every construction, move construction, move assignment or teardown whose assertions hold keeps the invariant: each handle is paired, and each acquired resource is held by one handle or released once. |
| Ownership.RunPreservesAccounting | real-app/src/Windows/MinimumLatencyAudioClient.cpp:20-65 | A whole program of such operations keeps the same invariant. |
| Ownership.NeverReleasedTwice | real-app/src/Windows/MinimumLatencyAudioClient.cpp:52-65 | After any program, no resource has been released more than once. A released resource was acquired and no handle still holds it. |
| Ownership.ExactlyOnceRelease | real-app/src/Windows/MinimumLatencyAudioClient.cpp:20-65 | After any program, destroying every handle releases each acquired resource exactly once and nothing else. |
| Startup.Start | real-app/src/Windows/MinimumLatencyAudioClient.cpp:90-159 | Start succeeds exactly when every call of the fixed order succeeds. The resulting handle is live and owns exactly the activated client and the mix format: `Construct(activation, mixFormat)`, as at line 158. |
| Startup.StartResultIsAdoptable | real-app/src/Windows/MinimumLatencyAudioClient.cpp:158 | The handle a successful Start returns is exactly what the store's two-pointer construction (`Ownership.Adopt`) adds. Any store that has not yet seen its two resources may adopt it. |
| Startup.Invoke | real-app/src/Windows/MinimumLatencyAudioClient.cpp:99-156 | A call records only what the platform returned. The stream-initialisation request is built from the queried bounds and the mix format. After a success the session holds what the first k+1 calls provide. |
| Startup.Run | real-app/src/Windows/MinimumLatencyAudioClient.cpp:99-156 | The calls made are a contiguous stretch of the fixed order. A completed run holds the client, the format, the period and the stream request. The session stays faithful to the platform's answers. |
| Startup.FirstFailureFrom | real-app/src/Windows/MinimumLatencyAudioClient.cpp:18 | Reference for the short-circuit: the first step, from k on, that fails. Every step before it succeeds. |
| Startup.RunStopsAtFirstFailure | real-app/src/Windows/MinimumLatencyAudioClient.cpp:99-156 | The fold makes exactly the calls up to and including the first failing one. It completes exactly when no step fails. |
| Startup.RunSucceedsUntilLast | real-app/src/Windows/MinimumLatencyAudioClient.cpp:99-156 | From any step on, every call the fold makes except the last one succeeded. A run that did not complete ended on a call that failed. |
| Startup.StartStopsAtFirstFailure | real-app/src/Windows/MinimumLatencyAudioClient.cpp:99-156 | Start makes the calls in the fixed order (init, enumerator, default render/console endpoint, activate, mix format, engine period, stream initialisation, priority, start) up to the first failure and none after it. Every call but the last succeeded. When Start fails, the last call made is the failing one. |
| Startup.StreamStartedOnlyAfterPriority | real-app/src/Windows/MinimumLatencyAudioClient.cpp:147-156 | The stream's Start is called only if the priority request returned a task handle and every earlier call succeeded. A successful Start means the priority request and the stream's Start both succeeded. |
| Startup.StreamInitialisedWithClampedBuffer | real-app/src/Windows/MinimumLatencyAudioClient.cpp:128-145 | Whenever stream initialisation is called, it gets no flags, the mix format, and CalculateBufferSize of the queried minimum and maximum period. |
| Startup.PropertiesReportMixFormat | real-app/src/Windows/MinimumLatencyAudioClient.cpp:79-81 | A property query on the handle Start returned reports the sample format the mix-format query returned during startup. |
| Startup.MixFormatUnownedAfterLateFailure | real-app/src/Windows/MinimumLatencyAudioClient.cpp:120-156 | An observed gap, not a cleanup claim: when a call after the mix-format query fails, the descriptor was obtained, Start returns an error, and no handle owns the descriptor. |

## Left out

- Platform calls: `CoInitialize`, `CoCreateInstance`, `GetDefaultAudioEndpoint`, `Activate`, `GetMixFormat`, `GetSharedModeEnginePeriod`, `InitializeSharedAudioStream`, `AvSetMmThreadCharacteristics` and `IAudioClient3::Start`. They are foreign calls. Each one appears only as the outcome and returned values in `Startup.Platform`.
- `ComPtr` reference counting. The enumerator, the device, and the client on a failure path are released by `ComPtr` destructors. That is foreign code, so those releases are not in the ledger. The ledger records only the handle's own releases.
- Leak-freedom on failure paths. The code does not deliver it. The format descriptor is not freed when a later call fails. `CoInitialize` is never paired with `CoUninitialize`. The priority task handle is never reverted. The model states the first of these as `Startup.MixFormatUnownedAfterLateFailure` and claims no cleanup.
- Real-time scheduling. Only whether `AvSetMmThreadCharacteristics` returns a non-null handle is modelled, not its effect on the thread.
- Error contents. `WindowsError` is built without arguments and its definition is not part of this model. Errors are an opaque tag.
- `MinimumLatencyAudioClient.h` (the `Properties` record and the class declaration) is not part of this model. The `Properties` fields are typed after the platform values copied into them.
- ClientHandle.Construct: takes two present ids rather than two nullable pointers. The constructor itself does not check its arguments, but its only caller passes a successfully activated client and a successfully queried format.
- ClientHandle.MoveAssign: self move-assignment is not guarded in the code. In the value model a handle has no identity, so the exclusion appears as `dst != src` in `Ownership.Enabled`.
- Release-build behaviour of the debug assertions. The move operations and `Uninitialise` assert paired, non-null pointers. The model makes these preconditions, and `Ownership.Run` returns `None` when a program would break one.
- The mixed `UINT32`/`int` arguments of `std::min` at line 87. As written, they leave `std::min`'s single template parameter undeducible. The model assumes the unsigned comparison intended, as with `512u`, and compares naturals below 2^32.
- Ownership.Enabled: a construction requires resources the store has not seen before. This assumes that `Activate` and `GetMixFormat` hand out a new client and a new descriptor each time; the platform's behaviour is not part of this model.
- Audio I/O: buffer submission and audio data are not part of this component.
