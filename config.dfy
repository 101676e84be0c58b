/** The defaults of src/ConnectionConfig.js that the modelled code reads. */
module Config {
  /** Largest body slice per SEND chunk, in bytes. */
  const ChunkSize: int := 2048

  /** SEND chunks that may await a response at once: 32 KiB worth of chunks. */
  const MaxOutstandingSends: int := 32 * 1024 / ChunkSize

  /** Bytes an incoming message may stage before it is written into its blob. */
  const RecvBuffer: int := 1024 * 1024

  /** Milliseconds an incoming message may go without a chunk before it is abandoned. */
  const ChunkTimeout: int := 30 * 1000

  /** Milliseconds to wait for the success REPORT of a sent message. */
  const ReportTimeout: int := 120000
}

/**
 * The configuration object a relay connection hands to each of its sessions
 * (src/ConnectionConfig.js with the two relay URIs that src/RelayConnection.js
 * lines 33-36 add). The sessions share it, and a 423 response to AUTH writes
 * the server's expiry into `authExpires`.
 */
module ConnectionConfigs {
  import opened Wrappers
  import Config

  class ConnectionConfig {
    const relayWsUri: string
    const relayMsrpUri: string
    const authority: string
    const chunkSize: int
    const maxOutstandingSends: int
    const chunkTimeout: int
    const recvBuffer: int
    const reportTimeout: int
    var authExpires: Option<int>

    /** `new ConnectionConfig()` with the relay URIs set, on the default values. */
    constructor (relayWsUri: string, relayMsrpUri: string, authority: string)
      ensures this.relayWsUri == relayWsUri && this.relayMsrpUri == relayMsrpUri && this.authority == authority
      ensures chunkSize == 2048 && maxOutstandingSends == 16 && chunkTimeout == 30000
      ensures recvBuffer == 1048576 && reportTimeout == 120000 && authExpires == None
    {
      this.relayWsUri := relayWsUri;
      this.relayMsrpUri := relayMsrpUri;
      this.authority := authority;
      chunkSize := Config.ChunkSize;
      maxOutstandingSends := Config.MaxOutstandingSends;
      chunkTimeout := Config.ChunkTimeout;
      recvBuffer := Config.RecvBuffer;
      reportTimeout := Config.ReportTimeout;
      authExpires := None;
    }

    /** Line 50 of the defaults is overwritten by the interval a 423 response carries. */
    method SetAuthExpires(expires: Option<int>)
      modifies this
      ensures authExpires == expires
    {
      authExpires := expires;
    }
  }
}
