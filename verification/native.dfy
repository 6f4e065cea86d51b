/** The fixed-width integers, records and resources the audio client exchanges
    with the platform audio subsystem. */
module Native {

  const U32Limit: nat := 0x1_0000_0000
  const U16Limit: nat := 0x1_0000

  /** `UINT32` / `DWORD`. */
  type U32 = x: nat | x < U32Limit
  /** `WORD`. */
  type U16 = x: nat | x < U16Limit

  /** The error every failing platform call is reported as. It is built without
      arguments, so it carries no status code: only a tag. */
  datatype WindowsError = WindowsError

  /** The fields of the mix format descriptor (`WAVEFORMATEX`) that are read. */
  datatype WaveFormat = WaveFormat(sampleRate: U32, bitsPerSample: U16, numChannels: U16)

  /** The four frame counts the shared-mode engine-period query reports. */
  datatype EnginePeriod = EnginePeriod(defaultFrames: U32, fundamentalFrames: U32, minFrames: U32, maxFrames: U32)

  /** An activated streaming client, identified by an abstract id. */
  type ClientId = nat

  /** A format descriptor allocated by the subsystem: its identity and the
      contents it points to. */
  datatype FormatBlock = FormatBlock(id: nat, wave: WaveFormat)

  /** A natively owned resource. Releasing a `ClientRes` is a call to the
      client's `Release`; releasing a `FormatRes` is a `CoTaskMemFree`. */
  datatype Resource = ClientRes(client: ClientId) | FormatRes(block: nat)
}
