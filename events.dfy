/**
 * The application callbacks of src/Events.js, as entries appended to a
 * session's event log in the order the source calls them.
 */
module Notify {
  import opened Wrappers
  import opened Message

  datatype Event =
    | FirstChunkReceived(id: string, contentType: Option<string>, filename: Option<string>, size: int, description: HeaderValue)
    | ChunkReceived(id: string, receivedBytes: int)
    /** A message delivered in one chunk: its content type and body. */
    | MessageReceived(id: string, contentType: Option<string>, body: Option<Body>)
    /** A message reassembled by a chunk receiver: the receiver's blob. */
    | BlobReceived(id: string, blob: string)
    | MessageReceiveAborted(id: string, blob: string)
    | MessageReceiveTimeout(id: string, blob: string)
    | ChunkSent(id: string, end: int)
    | MessageSent(id: string)
    | MessageDelivered(id: string)
    | MessageSendFailed(id: string, status: Option<int>, comment: Option<string>)
    | Authenticated
    | AuthFailed
    | Error

  /**
   * How an application callback returns: normally, by throwing
   * `CrocMSRP.Exceptions.UnsupportedMedia`, or by throwing anything else.
   */
  datatype Verdict = Accept | Unsupported | Fail
}
