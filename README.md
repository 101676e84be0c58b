# A verified model of the crocodile-msrp client core

crocodile-msrp is a JavaScript client for MSRP, the Message Session Relay
Protocol of RFC 4975. It carries messages and files between browsers. It can
go through an MSRP relay reached over a WebSocket (RFC 7977, with the relay
authentication of RFC 4976), or run directly over a WebRTC data channel. This
project is a Dafny model of its core, with proofs about that model. The model
is organised in four layers, matching the library's own files.

- **Chunk engines.**
  - `ChunkReceiving` models `ChunkReceiver.js`. A class reassembles one
    incoming message from its chunks: it keeps the contiguous prefix, the
    out-of-order chunks keyed by start offset, the staging buffer and its
    flush, and it overwrites duplicates so that the last write wins
    (section 7.3.1 of RFC 4975).
  - `ChunkSending` models `ChunkSender.js`. A class cuts a body into
    Byte-Range chunks. It merges success REPORTs into the acknowledged
    prefix, buffers the ones that leave a gap, and resumes when more than 16
    are outstanding.
  - `Transfer` proves the two work together: the chunks a sender produces,
    fed in order to a receiver, rebuild the body.
  - `Reassembly` extends that to every arrival order: any permutation of the
    sender's chunks, fed to a receiver built from whichever arrives first,
    rebuilds the body. This holds for the receiver as intended, and for the
    source's receiver when chunks come in text frames. In binary frames, a
    chunk that waits for a gap stalls the source's receiver (`BinaryFrames`,
    and the second row of "Findings").
- **Wire codec.**
  - `Message` models `Message.js`: requests and responses, `addHeader`,
    `getHeader`, the end-line, and the encoders with their transaction-id
    regeneration.
  - `HeaderNames` holds header-name normalisation.
  - `Parser` models `parser.js`: `parseMessage` and the known-header
    parsers.
  - `RoundTrip` proves that parsing an encoded request or response gives
    back its fields.
- **Text codecs.**
  - `Util` covers the header-name, file-name, quoted-string and NTP helpers
    of `util.js`.
  - `Uris` covers the MSRP URI class of `Uri.js`.
  - `ContentTypes` and `ContentTypeLaws` cover the two content-type grammars
    of `ContentType.js`: the SDP type selector of RFC 5547, and the
    Content-Type header.
  - `Sdp`, `SdpLaws` and `SdpSessionLaws` cover the SDP parser and
    serialiser of `Sdp.js`, with lines in the order of section 5 of
    RFC 4566.
- **Scheduling and sessions.**
  - `SendQueue` is the round-robin scheduler shared by `RelayConnection.js`
    and `DataChannelSession.js`: at most two chunks per pass, capped by the
    number of outstanding SENDs.
  - `Relay` is the WebSocket connection. It routes requests, counts
    outstanding SENDs and sends responses.
  - `Sessions` is the relay session. It covers authentication with the
    relay, the SDP answer, incoming SENDs and REPORTs, failed SENDs and the
    idle-receiver sweep.
  - `Channels` is the data-channel session and its state machine.
  - `Delivery` and `Replies` hold the decisions both session kinds share:
    which status answers a SEND, and when a REPORT is due.

Transport sends are returned as lists of effects, which the connection
applies in order. Application callbacks are appended to an event log. The
application's answers to callbacks, the clock, the random identifiers and
the digest computation are parameters.

## Behaviour kept as written

The model follows the code even where the code departs from its evident
purpose. Each of these behaviours is stated by a member named in the table
below.

- **The scheduler's double shift.** When the head sender was aborted by the
  far end, it is shifted off the queue before its abort chunk is sent. It is
  then shifted again as send-complete, which drops the sender queued behind
  it (`SendQueue.RemoteAbortShiftsTwice`).
- **`decodeQuotedString`.** It removes only the first backslash, so it
  inverts `encodeQuotedString` only when at most one character was escaped
  (`Util.QuotedRoundTrip`).
- **Port comparison in `Uri.equals`.** Ports are compared with `parseInt`, so
  two URIs without a port are never equal (`Uris.PortlessUnequal`).
- **Content-type parameters.** Both content-type parsers read at most one
  parameter (`ContentTypes.ParamRounds`).
- **Resuming senders.** The resume-on-re-establish loop in the relay
  session's `changeState` never runs (`Sessions.Session.ChangeState`).
- **Data-channel notifications.** `DataChannelSession.js` notifies the
  application through `CrocMSRP.util.fireEvent`, which `util.js` does not
  define. Every such notification throws a TypeError:
  - `handleSend` answers it with 500;
  - the other handlers propagate it.

- **`Session.close()`.** It calls `abortFileReceive` and `abortFileSend`,
  which sessions do not define, so it throws a TypeError before anything is
  aborted (`Sessions.Session.CloseAsWritten`). The rest of the model uses the
  evidently intended `Sessions.Session.Close`; see Findings.
- **Binary chunks waiting for a gap.** The chunk receiver sizes a drained
  chunk by `.size`, which a chunk from a binary frame lacks, so a binary
  chunk that had to wait leaves the receiver's byte count NaN and the message
  incomplete (`BinaryFrames.OneThreeTwoStalls`). The rest of the model uses
  the intended `ChunkReceiving.Process`; see Findings.

## Model

| member | source | states |
|---|---|---|
| ChunkReceiving.Fresh | src/ChunkReceiver.js:21-44 | the receiver built from the first chunk is empty, has no chunk waiting, and takes the total size and Message-ID from that chunk |
| ChunkReceiving.Flushed | src/ChunkReceiver.js:179-187 | writing the staged chunks to the blob empties the staging buffer, keeps the received bytes and the expected offset, and caches the blob's size |
| ChunkReceiving.Drain | src/ChunkReceiver.js:106-124 | the drain only takes chunks out of the out-of-order map and leaves none at the offset where it stopped |
| ChunkReceiving.Pushed | src/ChunkReceiver.js:100-104 | the expected chunk is appended to the received bytes and advances the expected offset by its length |
| ChunkReceiving.Settled | src/ChunkReceiver.js:126-131 | the threshold check keeps the received bytes; a complete message ends with its bytes in the blob, and bytes stay staged only below the buffer size |
| ChunkReceiving.Place | src/ChunkReceiver.js:100-155 | placing an accepted chunk never changes the total size, byte count, timestamp, abort flags, Message-ID or buffer size |
| ChunkReceiving.DrainRun | src/ChunkReceiver.js:106-124 | the drain loop appends exactly the contiguous run of waiting chunks, counts its bytes, leaves the rest in the map and advances the offset past the run |
| ChunkReceiving.RunLeaves | src/ChunkReceiver.js:107-113 | the chunks left in the map are ones that were there, unchanged, and none is left at the new expected offset |
| ChunkReceiving.RunPlaces | src/ChunkReceiver.js:106-124 | every chunk the drain takes lands at the offset it was stored under |
| ChunkReceiving.RunConsistent | src/ChunkReceiver.js:106-124 | when every waiting chunk holds bytes of a message, the drain extends a prefix of that message to a longer prefix of it |
| ChunkReceiving.PlaceOverwrite | src/ChunkReceiver.js:135-155 | a chunk starting before the expected offset is written over the received bytes, keeping the bytes before and after it, with everything staged written out first |
| ChunkReceiving.PlaceInOrderConsistent | src/ChunkReceiver.js:100-131 | an in-order chunk of a message keeps the receiver consistent with that message |
| ChunkReceiving.DrainedConsistent | src/ChunkReceiver.js:106-124 | the drain keeps the receiver consistent with the message the chunks belong to |
| ChunkReceiving.ProcessOutcome | src/ChunkReceiver.js:57-98 | a chunk is accepted exactly when the receiver is not aborted, the Message-ID matches and it is not an abort chunk; a rejected chunk changes nothing; every other chunk stamps the time and counts its bytes; an end chunk fixes the total; an abort chunk makes a remote abort |
| ChunkReceiving.ProcessAhead | src/ChunkReceiver.js:132-134 | a chunk beyond the expected offset is stored in the map under its start, replacing any chunk there, and the received bytes are unchanged |
| ChunkReceiving.ProcessInOrder | src/ChunkReceiver.js:100-131 | an in-order chunk is appended, the waiting chunks that follow it are drained, and the received bytes grow by at least the chunk |
| ChunkReceiving.ProcessOverwrite | src/ChunkReceiver.js:135-155 | a duplicate or overlapping chunk replaces the bytes it covers (the last chunk for a range wins) and a duplicate inside the received prefix keeps its length |
| ChunkReceiving.ProcessConsistent | src/ChunkReceiver.js:57-158 | chunks of one message delivered in any order and any number of times never corrupt the reassembly: the received bytes stay a prefix of the message and every waiting chunk holds the message's bytes at its offset; that every order also completes is `Reassembly.AnyOrder` |
| ChunkReceiving.FreshConsistent | src/ChunkReceiver.js:21-44 | the receiver built for a first chunk is consistent with any message |
| ChunkReceiving.CompleteHolds | src/ChunkReceiver.js:166-168 | a complete, non-aborted receiver consistent with a message of the expected size holds exactly that message in its blob |
| ChunkReceiving.FourChunksOutOfOrder | test/ChunkReceiver.js:55-81 | four one-byte chunks arriving as 1, 3, 2, 4: chunk 3 waits in the map until chunk 2 arrives, and the receiver ends complete with the four bytes in order |
| ChunkReceiving.ChunkReceiver.constructor | src/ChunkReceiver.js:21-46 | the new receiver is the fresh receiver after it processed the first chunk |
| ChunkReceiving.ChunkReceiver.ProcessChunk | src/ChunkReceiver.js:57-158 | the fields and the result are those of the `Process` specification |
| ChunkReceiving.ChunkReceiver.PlaceChunk | src/ChunkReceiver.js:100-155 | an accepted chunk is placed as `Place` says |
| ChunkReceiving.ChunkReceiver.AppendChunk | src/ChunkReceiver.js:100-131 | the expected chunk is staged, the map drained and the buffer written out as `Place` says for an in-order chunk |
| ChunkReceiving.ChunkReceiver.OverwriteChunk | src/ChunkReceiver.js:135-155 | the staged bytes are written out and the chunk is written over the blob |
| ChunkReceiving.ChunkReceiver.DrainChunks | src/ChunkReceiver.js:106-124 | the loop leaves the receiver as the drain specification says |
| ChunkReceiving.ChunkReceiver.IsComplete | src/ChunkReceiver.js:166-168 | the result is true exactly when the receiver is aborted or holds the total size |
| ChunkReceiving.ChunkReceiver.Abort | src/ChunkReceiver.js:175-177 | only the aborted flag changes, to true |
| ChunkReceiving.ChunkReceiver.WriteToBlob | src/ChunkReceiver.js:179-187 | the fields become those of `Flushed` |
| ChunkSending.BodyPartsFields | src/ChunkSender.js:30-66 | an absent or empty body sends nothing and has no type or disposition; any other body keeps a truthy content type given by the caller, and an empty or missing one falls back to the body's own type, 'text/plain' for a string or 'application/octet-stream' for bytes |
| ChunkSending.HeadingShape | src/ChunkSender.js:88-92 | the three `addHeader` calls leave the Message-ID first and both report requests after it |
| ChunkSending.DescribedShape | src/ChunkSender.js:101-113 | on the first chunk, `addHeader` appends the disposition, 'inline' by default, and a truthy description |
| ChunkSending.DescribedValues | src/ChunkSender.js:88-113 | the first chunk's Message-ID, report requests, disposition and description are found under their names |
| ChunkSending.ChunkAborted | src/ChunkSender.js:94-95 | an aborted sender sends a '#' chunk that carries only the heading, and is left as it was |
| ChunkSending.ChunkRange | src/ChunkSender.js:96-127 | a chunk covers bytes `sentBytes + 1` to `min(sentBytes + chunkSize, size)` of `size`; its flag is '+' exactly when bytes remain after it |
| ChunkSending.AdvancedState | src/ChunkSender.js:118-127 | the sent count moves to the chunk's end, and the report timer starts with the last chunk when a timeout handler is set |
| ChunkSending.ChunkBody | src/ChunkSender.js:101-116 | a chunk of a non-empty message carries the payload bytes after the sent ones with the message's content type; an empty message's chunk has no body and no type |
| ChunkSending.ChunkHeaders | src/ChunkSender.js:88-113 | every chunk carries the Message-ID and asks for both reports; only the first chunk of a non-empty message names the disposition and a truthy description |
| ChunkSending.AdvancedProgress | src/ChunkSender.js:97-127 | with a positive chunk size a sender with bytes left makes progress with every chunk, never passes the payload's end, and is send-complete exactly when a chunk reaches the end |
| ChunkSending.MinKey | src/ChunkSender.js:171 | the first key a `for-in` loop visits over array-index keys is the smallest one |
| ChunkSending.Merged | src/ChunkSender.js:168-181 | the drain of waiting reports never lowers the acknowledged count, leaves only unchanged old reports, none of them contiguous, and keeps the count of reports in step with those removed |
| ChunkSending.MergedSound | src/ChunkSender.js:168-181 | the drain only extends the acknowledged prefix with waiting reports, so every acknowledged byte is still covered by a success report |
| ChunkSending.MergedSettled | src/ChunkSender.js:168-181 | a drain over reports all beyond the gap changes nothing |
| ChunkSending.ReportContiguous | src/ChunkSender.js:153-181 | a report reaching the acknowledged prefix extends it at least to its end, and afterwards no waiting report touches the prefix |
| ChunkSending.ReportInOrder | src/ChunkSender.js:153-156 | with nothing waiting, a report reaching the prefix acknowledges exactly up to its end |
| ChunkSending.ReportGapped | src/ChunkSender.js:157-166 | a report beyond the gap waits under its start, replacing one with the same start, and the count goes up; once the count exceeds 16 it is dropped and the sender resumes from the acknowledged count |
| ChunkSending.ReportOther | src/ChunkSender.js:143-146 | a report for another message is ignored |
| ChunkSending.ReportFailed | src/ChunkSender.js:148-151 | a failure report aborts the sender as a remote abort and stops the report timer; the sender is then complete |
| ChunkSending.ReportMonotone | src/ChunkSender.js:140-190 | the acknowledged count never decreases and the payload and its identity never change |
| ChunkSending.ReportStopsTimer | src/ChunkSender.js:184-187 | a report that completes the message stops a running report timer, and otherwise leaves the timer as it was |
| ChunkSending.ReportCounted | src/ChunkSender.js:157-177 | the count of waiting reports never falls below the number stored (it can exceed it: a repeated start is counted twice) |
| ChunkSending.ReportMerged | src/ChunkSender.js:153-187 | the contiguous branch is the drain followed by the timer check |
| ChunkSending.ReportSound | src/ChunkSender.js:140-190 | the sender never believes in a byte no success report covered: every acknowledged byte and every waiting report comes from a success report received |
| ChunkSending.ChunkCarries | src/ChunkSender.js:85-131 | one chunk of a sender with bytes left carries the next bytes of the payload from the sent offset, flagged as `Carries` describes |
| ChunkSending.TransmitAll | src/ChunkSender.js:85-131 | a sender with bytes left and enough transaction ids sends the rest of its payload: the chunks carry exactly the remaining bytes in order, the last flagged '$', and the sender ends send-complete |
| ChunkSending.MultiChunkSend | test/ChunkSender.js:79-113 | with a chunk size of 6 a 12-byte message goes out as 1-6/12 with '+' and 7-12/12 with '$'; the sender is send-complete but not complete until a report for 1-12 |
| ChunkSending.EmptySend | test/ChunkSender.js:23-36 | an empty message goes out as one chunk 1-0/0 without a body, and the sender is then send-complete |
| ChunkSending.LocalAbort | test/ChunkSender.js:115-129 | after `abort()` the next chunk carries '#', the sender is send-complete and complete, and the abort is not remote |
| ChunkSending.RemoteAbort | test/ChunkSender.js:131-144 | a 413 report for the message completes the sender as a remote abort |
| ChunkSending.OutOfOrderReports | test/ChunkSender.js:146-196 | reports 1-3, 7-9, 4-6, 10-12 in that order: 7-9 waits until 4-6 closes the gap, and the sender is complete only after the last |
| ChunkSending.DrainStep | src/ChunkSender.js:171-180 | one visit of the `for-in` pass keeps the pass invariant and the drain's goal, and visits one start fewer |
| ChunkSending.Drain | src/ChunkSender.js:168-181 | the draining loop ends with no contiguous report left, in the state `Merged` specifies |
| ChunkSending.Endpoint.constructor | src/Session.js:50-52 | a session's addressing starts with an empty To-Path and its local URI |
| ChunkSending.ChunkSender.constructor | src/ChunkSender.js:25-83 | the new sender holds the fields `Fresh` gives for the body, type, disposition, description and new Message-ID |
| ChunkSending.ChunkSender.SetReportHandler | src/ChunkSender.js:80 | only the report-timeout handler changes |
| ChunkSending.ChunkSender.GetNextChunk | src/ChunkSender.js:85-131 | the chunk is `Chunk` over the session's current To-Path and local URI, and the sender moves as `Advanced` says |
| ChunkSending.ChunkSender.BuildChunk | src/ChunkSender.js:85-117 | the chunk built from the current fields |
| ChunkSending.ChunkSender.ProcessReport | src/ChunkSender.js:140-190 | the fields become those `Report` specifies |
| ChunkSending.ChunkSender.CheckTimer | src/ChunkSender.js:184-187 | a complete sender's report timer is stopped; nothing else changes |
| ChunkSending.ChunkSender.DrainReports | src/ChunkSender.js:168-181 | only the acknowledged count and the waiting reports change, as `Merged` says |
| ChunkSending.ChunkSender.IsSendComplete | src/ChunkSender.js:198-200 | true exactly when the sender is aborted or has sent every byte |
| ChunkSending.ChunkSender.IsComplete | src/ChunkSender.js:209-211 | true exactly when the sender is aborted or every byte is acknowledged |
| ChunkSending.ChunkSender.Resume | src/ChunkSender.js:218-223 | sending restarts at the acknowledged count and the waiting reports are dropped |
| ChunkSending.ChunkSender.Abort | src/ChunkSender.js:230-232 | only the aborted flag changes, to true |
| ChunkSending.ChunkSender.MarkRemoteAbort | src/DataChannelSession.js:620-621 | only the remote-abort flag changes, to true |
| ChunkSending.PassEnds | src/ChunkSender.js:171-180 | a pass that has visited every start leaves no contiguous report |
| ChunkSending.PassTakes | src/ChunkSender.js:172-178 | the smallest unvisited start, when contiguous, is the smallest waiting one, so taking it is a step of `Merged` |
| ChunkSending.PassSkips | src/ChunkSender.js:172 | a start beyond the prefix is skipped, and so are the larger ones after it |
| ConnectionConfigs.ConnectionConfig.constructor | src/ConnectionConfig.js:15-120 | a new configuration holds the relay URIs and authority it is given and the defaults: 2048-byte chunks, 16 outstanding sends, a 30 s chunk timeout, a 1 MiB receive buffer, a 120 s report timeout and no AUTH expiry |
| ConnectionConfigs.ConnectionConfig.SetAuthExpires | src/Session.js:646-649 | only the AUTH expiry changes, to the interval given |
| ContentTypes.SubtypeEnd | src/ContentType.js:51-57 | the subtype runs from its start to the first ';' or the end of the text |
| ContentTypes.QuotedClose | src/ContentType.js:152-165 | the closing quote of a quoted value, or -1 when there is none |
| ContentTypes.Unescaped | src/ContentType.js:158-165 | the first '"' from a given one that is not right after a backslash, or -1 |
| ContentTypes.UnquotedEnd | src/ContentType.js:167-170 | an unquoted value ends within the text |
| ContentTypes.ContentType.constructor | src/ContentType.js:16-36 | a new content type has empty type and subtype and no parameters |
| ContentTypes.ContentType.ParseSdpTypeSelector | src/ContentType.js:38-95 | the fields become what the selector grammar reads from the text, starting from the old fields |
| ContentTypes.ContentType.ParseHead | src/ContentType.js:38-62 | with no '/' nothing changes; otherwise the type is the text before the first '/', the subtype runs to the first ';' or the end, and the parameters are emptied |
| ContentTypes.ContentType.ParseContentTypeHeader | src/ContentType.js:114-181 | the fields become what the header grammar reads from the text, starting from the old fields |
| ContentTypes.ContentType.ToSdpTypeSelector | src/ContentType.js:97-107 | the selector text is the type, '/', the subtype and each parameter as `;name="encoded value"` |
| ContentTypes.ContentType.ToContentTypeHeader | src/ContentType.js:183-193 | the header text is the type, '/', the subtype and each parameter with its value quoted as the header grammar needs |
| ContentTypes.ParamRounds | src/ContentType.js:61-90 | the parameter loop reads only the first parameter after the subtype (its test fails after one round) |
| ContentTypes.ParamRound | src/ContentType.js:63-89 | one round reads a name and a decoded value exactly when the grammar finds a parameter there |
| ContentTypes.SelectorValue | src/ContentType.js:74-89 | a selector value is read exactly when its closing quote exists, and decoded from the SDP file-name encoding |
| ContentTypes.HeaderValue | src/ContentType.js:150-175 | a header value, quoted or not, is read exactly when the grammar accepts it |
| ContentTypes.QuotedEnd | src/ContentType.js:150-165 | the loop finds the first closing quote that is not escaped, or -1 |
| ContentTypeLaws.SelectorParam | src/ContentType.js:63-89 | a selector parameter written as `;name="encoded value"` reads back as that name and value whatever follows it |
| ContentTypeLaws.Escaped | src/util.js:98-117 | the SDP file-name encoding of a value has no '"' and decodes back to the value |
| ContentTypeLaws.HeaderParam | src/ContentType.js:150-175 | a header parameter whose value needed no quoting reads back as that name and value whatever follows it |
| ContentTypeLaws.HeaderUnquotedParam | src/ContentType.js:166-171 | an unquoted header value runs to the next space or the end and, free of backslashes, is kept as written |
| ContentTypeLaws.NoEquals | src/ContentType.js:65-68 | with no '=' after the name's start there is no parameter |
| ContentTypeLaws.SelectorUnclosed | src/ContentType.js:77-82 | a selector value with no closing quote gives no parameter |
| ContentTypeLaws.HeaderTrailingBackslash | src/ContentType.js:158-165 | a last header value that ends in a backslash is written so that its closing quote reads as escaped, and the parameter is lost on reading back |
| ContentTypeLaws.NoSlash | src/ContentType.js:42-47 | without a '/' nothing is parsed and the fields are unchanged |
| ContentTypeLaws.Split | src/ContentType.js:48-59 | the type is the text before the first '/', the subtype the text after it up to the first ';' or the end, whatever the fields were before |
| ContentTypeLaws.ReadsBare | src/ContentType.js:38-62 | text written from fields without parameters reads back as them |
| ContentTypeLaws.SelectorKeepsFirst | src/ContentType.js:38-107 | reading back a written selector gives its type, its subtype and only its first parameter |
| ContentTypeLaws.SelectorRoundTrip | src/ContentType.js:38-107 | a selector with at most one parameter survives writing and reading back whole |
| ContentTypeLaws.HeaderKeepsFirst | src/ContentType.js:114-193 | reading back a written header gives its type, its subtype and only its first parameter |
| ContentTypeLaws.HeaderRoundTrip | src/ContentType.js:114-193 | a header with at most one parameter whose value needed no quoting survives writing and reading back whole |
| Delivery.DescriptionHeader | src/Session.js:465 | the description handed to the application is what `getHeader('content-description')` answers: null, the sole value, or the list |
| Delivery.WantsReportHeader | src/Session.js:579 | a success REPORT is due exactly when `getHeader('success-report')` answers the single value 'yes' |
| Delivery.SentIdHeader | src/Session.js:660 | the key a response is matched by is what `getHeader('message-id')` answers on the request it answers |
| Delivery.AttemptAll | src/Session.js:447-573 | the handling goes on past the callbacks exactly when every one of them returns, and then all of them were called, in order |
| Delivery.Call | src/Session.js:447-573 | calling the callbacks in turn logs exactly those attempted, stopping at the first that throws, and returns its verdict |
| Delivery.AttemptStops | src/Session.js:447-573 | when the callback at position j is the first to throw, exactly the callbacks up to and including it are called and its verdict is the result |
| Delivery.AttemptVerdict | src/Session.js:563-573 | the handling goes on exactly when no callback threw; otherwise the last callback called is the one that threw, and its verdict picks the status |
| Delivery.Handle | src/Session.js:444-582 | a SEND judged successful always had a Byte-Range: one without makes the handler throw and answer 500 |
| Delivery.Opened | src/Session.js:493-516 | a first chunk gets one answer and calls at least one callback; its receiver is filed, not yet complete, and the sweep starts exactly when the application accepts the first callback |
| Delivery.Taken | src/Session.js:518-561 | a later chunk gets a 413 first exactly when its receiver refused it, a second answer only over a data channel after a refusal, and its receiver is updated or dropped with its new state |
| Delivery.WholeDelivered | src/Session.js:447-485 | a message in one chunk goes through exactly when every callback it calls returns |
| Delivery.HandleRefusals | src/Session.js:486-541 | 400 exactly for a chunked SEND without a Message-ID; 413 first exactly for a later chunk whose id has no receiver or whose receiver refuses it; 500 for a SEND without a Byte-Range and for a first chunk without Content-Disposition |
| Delivery.HandleSucceeds | src/Session.js:563-582 | a SEND that passed the checks succeeds exactly when every callback it calls returns; a callback that threw UnsupportedMedia is answered 415 |
| Delivery.FiledAfterAccept | src/Session.js:493-516 | a receiver is filed only for a first chunk whose first callback the application accepted, and it is the receiver made from that chunk; a new Message-ID is drawn only for a message in one chunk without one |
| Delivery.LaterProcessed | src/Session.js:517-555 | a later chunk with a filed receiver is processed by it, which stays filed exactly when it took the chunk and is not complete; any other SEND at most files or removes a new receiver |
| Delivery.HostsAgree | src/DataChannelSession.js:418-547 | the data channel session decides like the relay session, except for a file in one chunk and for the callback after a refused chunk, whose exception only the data channel answers |
| Delivery.WholeHostsAgree | src/DataChannelSession.js:422-449 | the callbacks for a message in one chunk that is not a file are the same on both hosts |
| Replies.Reply | src/Session.js:854-866 | a request without `responseOn` throws a TypeError; otherwise a response goes out exactly when the request wants one for this status; an empty URI gives a blank response |
| Replies.ReplyAddressed | src/Message.js:223-240 | a wanted response carries the request's transaction id and the status, goes to the previous hop for a SEND and along the whole From-Path otherwise, and comes from the given URI |
| Replies.ReportsGetNoReply | src/Message.js:206-209 | a REPORT never gets a response, whatever the status |
| Replies.SendsGetEveryReply | src/Message.js:201-205 | a SEND without a Failure-Report header gets every response |
| Replies.Responses | src/DataChannelSession.js:524-534 | the answers handed to the transport are at most the statuses answered; all of them when the request wants each, none when it wants none |
| Replies.AddStatus | src/Message.js:36-58 | adding a Status header to a message holding only a Message-ID appends it after that header and changes nothing else |
| Replies.AddReportId | src/Message.js:36-58 | adding a Message-ID to a message without headers makes it the only header and changes nothing else |
| Replies.ReportHeadingAdded | src/Session.js:868-873 | the REPORT heading is the new REPORT request after adding the Message-ID and the status '000 200 OK' |
| Replies.ReportRange | src/Session.js:875-903 | a REPORT for a ranged request goes along the To-Path from the local URI with the request's Message-ID and '000 200 OK', keeps the start and total, ends after the bytes received (0 for no body), and repeats the request's range when that was right |
| Replies.ReportWithoutRange | src/Session.js:875-905 | without a Byte-Range, a request flagged '+' makes the REPORT throw; any other gets a REPORT without a range |
| Message.Store | src/Message.js:36-58 | storing a header under a normalised name changes only the paths, the content type or the header table |
| Message.AddHeader | src/Message.js:36-58 | `addHeader` changes only the paths, the content type or the header table |
| Message.AddHeaderAppends | src/Message.js:52-57 | an ordinary header is appended to the list of its normalised name; other names and every other field keep their values |
| Message.AddHeaderNew | src/Message.js:56 | a header not yet present is added at the end of the table |
| Message.AddHeaderSpecial | src/Message.js:40-50 | To-Path and From-Path replace the path by the value split at spaces, Content-Type replaces the type, and the table is untouched |
| Message.AddHeaderWellFormed | src/Message.js:36-58 | adding a header keeps every stored name unique and every stored list non-empty |
| Message.GetHeader | src/Message.js:60-69 | `getHeader` answers null exactly when the name has no value, the value itself when it has one, and the whole list when it has several |
| Message.GetHeaderCaseInsensitive | src/Message.js:61 | names differing only in letter case look up the same header |
| Message.GetHeaderAfterAdd | src/Message.js:36-69 | after adding an ordinary header, `getHeader` answers the new value, or the earlier values followed by it |
| Message.OutgoingResponseRoute | src/Message.js:223-240 | a response keeps the request's transaction id, comes from the local URI, goes to the previous hop for a SEND and along the whole From-Path otherwise, and a missing status becomes 200 OK |
| Message.EncodeHeaders | src/Message.js:163-165 | the loop writes every stored header as 'Name: values joined by spaces' CRLF, in table order |
| Message.PreparedAddsHeader | src/Message.js:157-161 | a ranged message is sent with the range added through `addHeader('byte-range', ..)` |
| Message.PreparedByteRange | src/Message.js:157-161 | the Byte-Range values of the sent message are the earlier ones plus the formatted range, and it carries the chosen transaction id |
| Message.EncodeTwiceRepeatsByteRange | src/Message.js:157-161 | encoding a ranged message twice leaves it with the same Byte-Range value twice |
| Message.ChooseTid | src/Message.js:142-149 | the transaction id sent is the first id handed out whose end-line does not occur in the string body; every earlier one collides |
| Message.EncodeRequest | src/Message.js:138-183 | the request is sent with the first non-colliding id, as the prepared message, and its text is the request line, both paths, the headers, then the Content-Type, body and end-line or the end-line alone |
| Message.EncodeResponse | src/Message.js:243-260 | the response text is the status line with its comment when there is one, both paths, the headers and the end-line |
| HeaderNames.ByteRange | src/util.js:52-73 | 'byte-range' normalises to 'Byte-Range' |
| HeaderNames.ByteRangeCanonical | src/util.js:52-73 | 'Byte-Range' normalises to itself |
| HeaderNames.MessageId | src/util.js:52-73 | 'message-id' normalises to 'Message-ID' |
| HeaderNames.MessageIdCanonical | src/util.js:52-73 | 'Message-ID' normalises to itself |
| HeaderNames.SuccessReport | src/util.js:52-73 | 'success-report' normalises to 'Success-Report' |
| HeaderNames.FailureReport | src/util.js:52-73 | 'failure-report' normalises to 'Failure-Report' |
| HeaderNames.ContentDisposition | src/util.js:52-73 | 'content-disposition' normalises to 'Content-Disposition' |
| HeaderNames.ContentDescription | src/util.js:52-73 | 'content-description' normalises to 'Content-Description' |
| HeaderNames.ToPath | src/util.js:52-73 | 'to-path' normalises to 'To-Path' |
| HeaderNames.FromPath | src/util.js:52-73 | 'from-path' normalises to 'From-Path' |
| HeaderNames.ContentType | src/util.js:52-73 | 'content-type' normalises to 'Content-Type' |
| HeaderNames.Status | src/util.js:52-73 | 'status' normalises to 'Status' |
| HeaderNames.Authorization | src/util.js:52-73 | 'authorization' normalises to 'Authorization' |
| HeaderNames.Expires | src/util.js:52-73 | 'expires' normalises to 'Expires' |
| Parser.UnqQuoted | src/parser.js:125-131 | `unq` takes off exactly the two double quotes around a quoted value |
| Parser.UnqPlain | src/parser.js:125-131 | a value that neither starts nor ends with a double quote is left as it is |
| Parser.StartLine | src/parser.js:33-61 | a first line that is accepted ends within the frame |
| Parser.StartLineClassifies | src/parser.js:40-61 | a first line is accepted exactly when it has at least three tokens, the first 'MSRP', the next two non-empty, and either a three-character non-zero status code third or exactly three tokens; it makes a response exactly when the third token is such a code, and the second token is the transaction id |
| Parser.NoCrlfIsNull | src/parser.js:33-37 | a text or binary frame without CRLF is not a message |
| Parser.NextHeader | src/parser.js:133-174 | a header line that is taken moves the position forward within the frame and keeps the message's kind, transaction id and body |
| Parser.NamedLine | src/parser.js:160-173 | a line is taken exactly when its trimmed name is not empty, and it is added through `addHeader` |
| Parser.Headers | src/parser.js:63-73 | the header loop stops where `getNextHeader` reports the end of the headers, within the frame, keeping the message's kind, transaction id and body |
| Parser.ColonOnLaterLine | src/parser.js:133-174 | a header line without a colon does not end the headers: its name runs up to a colon on a later line |
| Parser.ParseMsgId | src/parser.js:406-421 | a Message-ID is accepted exactly when there is one value whose trimmed text is not empty, and only the id changes |
| Parser.ParseFailureReport | src/parser.js:283-307 | only the responses wanted change; one value is needed; a success response is wanted only together with failure responses |
| Parser.FailureReportCaseInsensitive | src/parser.js:289 | the Failure-Report value is read without regard to letter case |
| Parser.FailureReportValues | src/parser.js:290-304 | 'yes' asks for every response, 'no' for none, 'partial' for failure responses only |
| Parser.ParseByteRange | src/parser.js:244-282 | one value is needed and only the range changes |
| Parser.RangeFields | src/parser.js:253-263 | 'a-b/c' is cut at the first '-' and the '/' after it, each field trimmed |
| Parser.RangeNumberOf | src/parser.js:264-276 | a number written as `String(n)`, or '*' for -1, reads back |
| Parser.ParseRange | src/parser.js:244-282 | 'a-b/c' with readable fields parses into the range of those fields |
| Parser.ByteRangeRoundTrip | src/Message.js:157-161 | a range with a non-negative start written by `encode` parses back, with a '*' total as -1 |
| Parser.NegativeStartRefused | src/parser.js:253-263 | a range written with a negative start is refused, because its '-' sign is taken for the separator |
| Parser.ParseStatus | src/parser.js:308-335 | a response is left alone; on a request only the status and comment change |
| Parser.StatusRoundTrip | src/parser.js:308-335 | a Status value '000 code comment' on a request reads back the code and the comment |
| Parser.StatusParts | src/parser.js:315-333 | a value that splits into "000", a number and the comment's words sets that code and comment |
| Parser.ParseUsePath | src/parser.js:336-351 | a Use-Path is accepted exactly when there is one value, and it becomes a non-empty list |
| Parser.UsePathRoundTrip | src/parser.js:336-351 | space-free URIs joined by spaces read back as the same list |
| Parser.ParseExpires | src/parser.js:352-367 | an Expires value is accepted exactly when there is one value that `parseInt` reads, and that number is stored |
| Parser.ExpiresRoundTrip | src/parser.js:352-367 | a value written as `String(n)` reads back as n |
| Parser.MsgIdRoundTrip | src/parser.js:406-421 | a trimmed non-empty Message-ID reads back unchanged |
| Parser.DispositionParams | src/parser.js:392-402 | the parameters read include those already read |
| Parser.ContentDispositionOf | src/parser.js:368-405 | a response is left alone; on a request a value that is accepted sets a disposition and changes nothing else |
| Parser.ParseContentDisposition | src/parser.js:368-405 | the loop over the parameters gives what `ContentDispositionOf` says |
| Parser.DispositionTypeOnly | src/parser.js:368-405 | a type without parameters reads back trimmed, with none |
| Parser.DispositionOneParam | src/parser.js:368-405 | 'type; name=value' with plain parts reads back as that type and that one parameter |
| Parser.AuthParam | src/parser.js:175-217 | a parameter that is read moves the position forward, at most one past the string |
| Parser.Challenges | src/parser.js:218-243 | accepted challenges change only the challenge list, appending to it; a request has no such list, so the push throws |
| Parser.ParseWwwAuthenticate | src/parser.js:218-243 | the loops over the values and their parameters give what `Challenges` says |
| Parser.ApplyParser | src/parser.js:435-455 | a header parser that succeeds keeps the message's kind, transaction id, paths and body |
| Parser.KnownHeaders | src/parser.js:422-455 | the known-header pass keeps the frame of the message, and a message with no known header comes out unchanged |
| Parser.ParseKnownHeaders | src/parser.js:435-455 | the loop over the header table gives what `KnownHeaders` says |
| Parser.ApplySpecial | src/parser.js:422-434 | the table sends WWW-Authenticate and Content-Disposition to their own parsers |
| Parser.WithBody | src/parser.js:81-102 | only the body and the flag change, the flag is at most one character, and without a blank line the body stays absent |
| Parser.ParseMessage | src/parser.js:18-104 | parsing a frame gives what the functional parser `Parse` says |
| RoundTrip.Joined | src/parser.js:133-174 | the header table the header loop rebuilds holds one value per name, the written values joined by spaces |
| RoundTrip.RequestRoundTrip | src/parser.js:18-104 | an encodable request, encoded and parsed from a text or binary frame, reads back as the request received, run through the known-header parsers, with the body and the flag that were sent |
| RoundTrip.ResponseRoundTrip | src/parser.js:18-104 | an encodable response, encoded and parsed, reads back with its transaction id, status, comment, paths and headers, run through the known-header parsers, and its flag |
| RoundTrip.PlainRequestRoundTrip | src/Message.js:138-183 | a request without known headers reads back completely: transaction id, method, paths, headers, content type, body and flag |
| RoundTrip.RequestHead | src/Message.js:151-165 | the request line of an encoded request is read as that request, and its header lines end where the body or end-line starts |
| RoundTrip.ResponseHead | src/Message.js:243-257 | the status line of an encoded response is read as that response, and its header lines end where the end-line starts |
| RoundTrip.LineParses | src/parser.js:133-174 | one header line written by `encode` is read back by `getNextHeader` as that header with its values joined |
| RoundTrip.LinesParse | src/parser.js:63-73 | header lines written by `encode` are read back by the header loop in order |
| RoundTrip.StopAtBlank | src/parser.js:140-143 | a blank line ends the headers |
| RoundTrip.StopAtEndLine | src/parser.js:144-148 | the end-line ends the headers |
| RoundTrip.BodyReadBack | src/parser.js:81-102 | after the blank line the body runs to the end-line and the flag follows it |
| RoundTrip.EndReadBack | src/parser.js:100-101 | a message without a body ends at its end-line, and the flag follows it |
| RoundTrip.ThreeDigits | src/parser.js:50 | a status from 100 to 999 is written with three digits and read back as a status code |
| RoundTrip.StartOfResponse | src/parser.js:50-56 | a first line whose third token is a status code starts a response |
| RoundTrip.StartOfRequest | src/parser.js:57-58 | a first line of exactly three tokens whose third is not a status code starts a request |
| RoundTrip.AddAllPlain | src/Message.js:36-58 | headers with new ordinary names are each appended with their one value |
| RoundTrip.ReceivedHeaders | src/parser.js:63-73 | adding the written header lines of a request to a new incoming request gives the request as received |
| RoundTrip.AnsweredHeaders | src/parser.js:63-73 | adding the written header lines of a response to a new incoming response gives the response as received |
| RoundTrip.ParseSteps | src/parser.js:18-104 | parsing is the first line, then the header loop, then the known-header parsers, then the body and flag |
| Util.CapitaliseAll | src/util.js:58-63 | each part is capitalised, and there are as many as before |
| Util.Capitalised | src/util.js:52-63 | capitalising character by character keeps the length |
| Util.NormaliseHeader | src/util.js:52-73 | the loop over the lower-cased parts gives the canonical name `Normalise` defines |
| Util.CapitalisedSplit | src/util.js:54-63 | splitting at '-' and capitalising each part is capitalising the first character and every character after a '-' |
| Util.NormalisePreservesLower | src/util.js:52-73 | the canonical name, lower-cased, is the name lower-cased |
| Util.NormaliseCaseInsensitive | src/util.js:52-73 | names that differ only in letter case normalise alike |
| Util.NormaliseIdempotent | src/util.js:52-73 | normalising a canonical name leaves it unchanged |
| Util.IsEmpty | src/util.js:75-83 | a map is empty exactly when it has no key |
| Util.NtpTimeToDate | src/util.js:85-87 | a date comes out exactly when the NTP time reads as a number, and it is a whole number of seconds |
| Util.NtpRoundTrip | src/util.js:85-91 | NTP seconds taken to a date and back are unchanged |
| Util.DateRoundTrip | src/util.js:85-91 | a date taken to NTP seconds and back is cut toward zero to a whole second |
| Util.EncodeSdpFileNameIsPerChar | src/util.js:98-104 | the five replacements escape each character on its own |
| Util.EncodedFileNameIsSafe | src/util.js:98-104 | an encoded filename holds no double quote, CR, LF or NUL |
| Util.SdpFileNameRoundTrip | src/util.js:98-117 | decoding an encoded filename gives it back |
| Util.EncodeQuotedString | src/util.js:125-138 | every '"', CR and backslash is prefixed with a backslash, and the result is longer by their number |
| Util.DecodeQuotedString | src/util.js:146-160 | only the first backslash is deleted, because the escape flag is never cleared |
| Util.QuotedRoundTrip | src/util.js:125-160 | decoding undoes encoding exactly when at most one character needed quoting |
| Util.QuotedLength | src/util.js:125-138 | the encoded text is longer by the number of characters quoted, and holds a backslash when any was |
| Channels.EstablishedNeedsBoth | src/DataChannelSession.js:288-416 | whatever the order of SDP, channel-open, channel-close and first-message events, a session is ESTABLISHED or AWAIT_MSG only after the far end's SDP was taken and the channel opened |
| Channels.Reached | src/DataChannelSession.js:288-416 | the invariant behind that, by induction on the events: a To-Path comes only from an SDP, AWAIT_SDP, AWAIT_MSG and ESTABLISHED need the channel to have opened, and AWAIT_MSG and ESTABLISHED need the To-Path |
| Channels.ActiveWhen | src/DataChannelSession.js:308-316 | a passive session becomes active exactly when the SDP has no `setup` and is an answer, or has `setup` 'passive'; an active one stays active |
| Channels.SdpOnce | src/DataChannelSession.js:288-331 | an SDP without `path` or `accept-types` closes the session in any state; outside INIT and AWAIT_SDP a complete SDP changes nothing; in those states it leads to AWAIT_OPEN, ESTABLISHED or AWAIT_MSG |
| Channels.ChannelTyped | src/DataChannelSession.js:104-113 | a body that is not false always gets a type, the given one when truthy; exactly a missing body and the empty string get none; the data channel types bodies as the relay session does, except the empty string, which the relay session types 'text/plain' (or the type given), and an ArrayBuffer, which only the data channel types, as 'application/octet-stream' |
| Channels.RouteAccepts | src/DataChannelSession.js:333-358 | a request is handled exactly when its To-Path is this session's URI alone and it is a SEND or a REPORT; 501 goes exactly to other methods addressed to it; everything else gets 481, answered from the request's first To-Path URI |
| Channels.OnlyPingsSucceed | src/DataChannelSession.js:418-547 | since every notification throws, a SEND gets a lone 200 exactly when it is an empty message in one chunk; any other SEND gets only error statuses, one-chunk messages with a body get 500, no receiver is ever filed and the sweep never starts |
| Channels.DataChannelSession.Queued | src/DataChannelSession.js:360-393 | the scheduler's view of the session covers every queued sender, in queue order, with nothing cut yet |
| Channels.DataChannelSession.constructor | src/DataChannelSession.js:26-87 | a new session is INIT, passive, with an open channel, no To-Path or accepted types, no receivers or senders, nothing sent, and its local URI built from the configured authority and its session id |
| Channels.DataChannelSession.ChangeState | src/DataChannelSession.js:640-676 | the state is set; entering ESTABLISHED as the active endpoint with no sender sends an empty SEND, otherwise the queue is served; entering CLOSED removes the session from the connection and closes the channel; the other states change nothing else |
| Channels.DataChannelSession.SetState | src/DataChannelSession.js:642 | only the state changes, and the queue is left as it was |
| Channels.DataChannelSession.Shut | src/DataChannelSession.js:664-670 | the connection is asked to remove the session's stream id and the channel is let go |
| Channels.DataChannelSession.Send | src/DataChannelSession.js:100-125 | a new sender with the next Message-ID and the type `ChannelType` picks is filed and queued at the tail, and the queue is served; the state, role and To-Path do not change |
| Channels.DataChannelSession.Create | src/DataChannelSession.js:115-119 | the new sender has the next Message-ID, reports its timeout to the session, and is filed under that id without touching any queued sender |
| Channels.DataChannelSession.ProcessSendQueue | src/DataChannelSession.js:360-393 | outside ESTABLISHED nothing happens; otherwise the session moves as one pass of the shared scheduler specification says, sending up to two chunks while fewer than the maximum are outstanding, and every other field stays |
| Channels.DataChannelSession.Serve | src/DataChannelSession.js:373-391 | one turn: the head sender cuts a chunk, which goes on the channel, and the queue, the outstanding count and the transaction ids become the scheduler's step |
| Channels.DataChannelSession.ShiftIf | src/DataChannelSession.js:374-377 | a sender the far end aborted is shifted off the queue before its chunk is cut |
| Channels.DataChannelSession.Settle | src/DataChannelSession.js:384-391 | a send-complete head is shifted off; an unfinished one moves to the tail when others wait |
| Channels.DataChannelSession.Sent | src/DataChannelSession.js:379-382 | the chunk goes on the channel, the outstanding count goes up by one and one transaction id is used |
| Channels.DataChannelSession.SdpUpdate | src/DataChannelSession.js:288-331 | the state machine moves as `OnSdp` says; an incomplete SDP aborts every receiver and sender and closes; outside INIT and AWAIT_SDP nothing changes; otherwise the To-Path, accepted types and role are set, the queued senders read the new To-Path, and the state moves on as `ChangeState` does |
| Channels.DataChannelSession.Describe | src/DataChannelSession.js:300-316 | the To-Path and accepted types are the space-separated first values of their attributes, the wrapped types likewise or empty, and the role is set as `Activated` says |
| Channels.DataChannelSession.OnDcOpen | src/DataChannelSession.js:395-409 | without a To-Path the session awaits the SDP; with one it becomes ESTABLISHED when active and AWAIT_MSG otherwise, as `ChangeState` does |
| Channels.DataChannelSession.OnDcClose | src/DataChannelSession.js:411-416 | unless already CLOSED, the channel is let go and the session enters CLOSED, which asks the connection to remove it; no sender changes |
| Channels.DataChannelSession.Close | src/DataChannelSession.js:205-209 | every receiver and sender is aborted and the session enters CLOSED |
| Channels.DataChannelSession.Abandon | src/DataChannelSession.js:206-207 | every filed receiver and sender is aborted and the session's own fields stay |
| Channels.DataChannelSession.AbortReceive | src/DataChannelSession.js:164-178 | a named id without a receiver throws a RangeError; a named id aborts only its receiver; no id aborts them all; nothing is removed |
| Channels.DataChannelSession.AbortSend | src/DataChannelSession.js:185-199 | a named id without a sender throws a RangeError; a named id aborts only its sender; no id aborts them all; nothing is removed |
| Channels.DataChannelSession.SendResponse | src/DataChannelSession.js:678-690 | the response goes on the channel when the request asks for one with this status; a request without `responseOn` throws a TypeError and nothing is sent |
| Channels.DataChannelSession.HandleRequest | src/DataChannelSession.js:333-358 | a request not addressed to this session alone is answered 481 and another method 501; a SEND is handled as `SendHandled` says and a REPORT as `ReportHandled` says |
| Channels.DataChannelSession.HandleSend | src/DataChannelSession.js:418-547 | the answers are those the shared SEND decision gives for callbacks that all throw; a SEND that went through establishes a session awaiting its first message and is answered 200 plus the success REPORT asked for; otherwise the error statuses go out and the receiver under the id is updated or dropped as decided |
| Channels.DataChannelSession.Respond | src/DataChannelSession.js:524-534 | the error answers go out on the channel in place of the 200 |
| Channels.DataChannelSession.Welcome | src/DataChannelSession.js:536-546 | in AWAIT_MSG the session enters ESTABLISHED as `ChangeState` says; then the 200 and the success REPORT asked for go out |
| Channels.DataChannelSession.Acknowledge | src/DataChannelSession.js:539-546 | the 200 goes out, then, when the request asks for one, the success REPORT to the session's To-Path with the next transaction id |
| Channels.DataChannelSession.Receive | src/DataChannelSession.js:418-534 | the answers, the receiver filing and the id drawn are those of the shared SEND decision; a lone 200 leaves every field as it was |
| Channels.DataChannelSession.ReceiveWhole | src/DataChannelSession.js:422-449 | an empty one-chunk message is a ping answered 200; one with a body draws a Message-ID when it has none and gets 500 from the throwing callback |
| Channels.DataChannelSession.ReceiveOpening | src/DataChannelSession.js:451-482 | the first chunk of several needs a Message-ID (400 otherwise); its receiver is built but never filed, because the callback throws (500); no field changes |
| Channels.DataChannelSession.ReceiveLater | src/DataChannelSession.js:483-523 | a later chunk needs a Message-ID (400) and a filed receiver (413); a refused chunk drops the receiver and gets 413 then 500; an accepted one is taken, the receiver dropped once complete, and the callback throws (500) |
| Channels.DataChannelSession.HandleReport | src/DataChannelSession.js:549-588 | a report without a Message-ID or for an unknown message is ignored; otherwise the sender takes it and is forgotten once complete, and the handler throws exactly when the application would be told, as `Sessions.ReportEvents` says |
| Channels.DataChannelSession.HandleResponse | src/DataChannelSession.js:590-630 | the outstanding count drops in every case; without a Message-ID nothing else happens; a 200 for a sender not aborted, or for the last chunk, throws from its callback; a 200 for another chunk of an aborted sender serves the queue; any other status aborts the sender as a remote abort, forgets it and throws |
| Channels.DataChannelSession.SenderTimeout | src/DataChannelSession.js:632-637 | the sender is forgotten and the notification throws |
| Channels.DataChannelSession.CheckReceivers | src/DataChannelSession.js:731-750 | receivers are visited in the returned order `visited`; the first idle one (idle for longer than the chunk timeout) is aborted and forgotten and the notification throws; every receiver visited before it was not idle; when none is idle every receiver was visited and nothing changes but the sweep, which stops once no receiver is left |
| Channels.FirstIdle | src/DataChannelSession.js:735-737 | the search stops at the first visited receiver idle for longer than the timeout, every receiver visited before it is not idle, and it finds none exactly when none is idle, having visited them all |
| Channels.DataChannelSession.Expire | src/DataChannelSession.js:739-740 | the receiver is aborted and removed, and no other receiver changes |
| Sdp.AppendEach | src/Sdp.js:202-204 | the loop appends prefix, item and suffix for each item in order, as `Each` says |
| Sdp.ParseOrigin | src/Sdp.js:246-262 | an o value is accepted exactly when it has six space-separated fields; otherwise the origin is unchanged |
| Sdp.ParseConnection | src/Sdp.js:293-306 | a c value is accepted exactly when it has three space-separated fields; otherwise the connection is unchanged |
| Sdp.ParseTiming | src/Sdp.js:335-362 | a timing is accepted exactly when its first line has two space-separated times; otherwise it is unchanged; the other lines are its repeats |
| Sdp.TimingToString | src/Sdp.js:364-383 | the loop writes the start, the stop and each repeat on its own line, as `TimingText` says |
| Sdp.AppendAttributes | src/Sdp.js:482-489 | the loop writes each attribute as `a=name` or `a=name:value`, in order |
| Sdp.MediaLine | src/Sdp.js:429-455 | a line inside a media description is taken exactly when its type is i, c, b, k or a |
| Sdp.MediaParse | src/Sdp.js:408-460 | the loop over the lines gives what `ParseMedia` says |
| Sdp.MediaOf | src/Sdp.js:386-395 | `new Media` gives what `NewMedia` says |
| Sdp.MediaToString | src/Sdp.js:462-493 | the loops write the m line, title, connection, bandwidths, key and attributes as `MediaText` says |
| Sdp.PreTimingLine | src/Sdp.js:81-112 | a line before the first t line is taken exactly when its type is i, u, e, p, c or b |
| Sdp.Absorb | src/Sdp.js:121-124 | the gathering loop consumes lines and stops at the first line whose test differs |
| Sdp.Timings | src/Sdp.js:119-130 | the loop over the t lines never fails, since a timing that does not parse is still an object |
| Sdp.PreMediaLine | src/Sdp.js:138-163 | a line between the timings and the first m line is taken exactly when its type is z, k or a |
| Sdp.Medias | src/Sdp.js:165-178 | the loop over the m lines never fails, since a media description that does not parse is still an object |
| Sdp.AppendTimings | src/Sdp.js:205-207 | the loop writes each timing as a t line, as `TimingsText` says |
| Sdp.AppendMedias | src/Sdp.js:220-222 | the loop writes each media description as an m line, as `MediasText` says |
| Sdp.Session.constructor | src/Sdp.js:17-26 | an empty text gives the default description; any other text gives what `parse` leaves, even when it fails |
| Sdp.Session.Reset | src/Sdp.js:28-42 | every field takes its default, with an origin stamped by the clock |
| Sdp.Session.AssignLeading | src/Sdp.js:28-42 | the fields up to the bandwidths take the given values and the others stay |
| Sdp.Session.AssignTrailing | src/Sdp.js:28-42 | the fields from the connection on take the given values and the others stay |
| Sdp.Session.Parse | src/Sdp.js:44-179 | the verdict and the fields left behind are those of the functional parser `ParseSession` |
| Sdp.Session.PreTimingLoop | src/Sdp.js:81-117 | the loop before the first t line moves the fields as `PreTiming` says |
| Sdp.Session.PreTimingStep | src/Sdp.js:82-111 | one line before the first t line sets its field or fails as `PreTimingLine` says |
| Sdp.Session.TimingLoop | src/Sdp.js:114-178 | the rest of `parse` from the first t line gives what `AfterPreTiming` says |
| Sdp.Session.PreMediaLoop | src/Sdp.js:138-164 | the loop before the first m line moves the fields as `PreMedia` says |
| Sdp.Session.PreMediaStep | src/Sdp.js:139-162 | one line before the first m line sets its field or fails as `PreMediaLine` says |
| Sdp.Session.MediaLoop | src/Sdp.js:165-176 | the loop over the m lines sets the media descriptions as `Medias` says |
| Sdp.Session.ToString | src/Sdp.js:181-225 | `toString` writes the text `SessionText` defines |
| SdpLaws.OriginRoundTrip | src/Sdp.js:227-275 | an origin of six words, written out and read back, is the same origin |
| SdpLaws.OriginTextOfParse | src/Sdp.js:246-275 | an o value that is accepted is written out again exactly as it was read |
| SdpLaws.ConnectionRoundTrip | src/Sdp.js:277-316 | a connection of three words, written out and read back, is the same connection |
| SdpLaws.ConnectionTextOfParse | src/Sdp.js:293-316 | a c value that is accepted is written out again exactly as it was read |
| SdpLaws.TimeRoundTrip | src/Sdp.js:335-383 | a time written out is read back as the same time |
| SdpLaws.DateTextRoundTrip | src/util.js:85-91 | a date written as NTP seconds reads back as the date when it is a whole second |
| SdpLaws.TimingRoundTrip | src/Sdp.js:318-383 | a timing written out and read back is the same timing |
| SdpLaws.AddValuedAttribute | src/Sdp.js:151-157 | an a line 'name:value' sets the name before the first ':' to the rest of the line |
| SdpLaws.AddBareAttribute | src/Sdp.js:152-154 | an a line without ':' sets the whole value as a name with value null |
| SdpLaws.AddAttributeGet | src/Sdp.js:151-157 | adding an attribute keeps each name once, sets the name it names and changes no other |
| SdpLaws.MediaLinesAccept | src/Sdp.js:427-457 | the lines of a media description are all taken exactly when each has an allowed type |
| SdpLaws.ParseMediaAccepts | src/Sdp.js:408-460 | `media.parse` succeeds exactly when the first line has at least four words and every other line an allowed type; the first three words are the media, port and protocol |
| SdpLaws.MediaRoundTrip | src/Sdp.js:386-493 | a media description written out and read back is the same description |
| SdpLaws.TimingsRun | src/Sdp.js:119-130 | the loop over the t lines reads every leading t and r line and makes one timing per t line |
| SdpLaws.MediasRun | src/Sdp.js:165-176 | from an m line on, the loop over the media descriptions reads every line |
| SdpLaws.AfterPreTimingAccepts | src/Sdp.js:114-178 | the rest of `parse` from the first t line succeeds exactly when the lines before the media have allowed types, and then there is at least one timing |
| SdpLaws.SessionAccepts | src/Sdp.js:44-179 | `parse` succeeds exactly on the descriptions `Accepts` describes, and an accepted description has at least one timing |
| SdpSessionLaws.SessionTextLines | src/Sdp.js:181-225 | with every attribute valued, the text of a session is its lines, each followed by CRLF |
| SdpSessionLaws.LinesOfTerminated | src/Sdp.js:45-52 | lines without CR, each followed by CRLF, split back into the same lines |
| SdpSessionLaws.AbsorbAll | src/Sdp.js:121-124 | the gathering loop takes the lines that pass its test, up to the first that does not |
| SdpSessionLaws.TimingsBlocks | src/Sdp.js:119-130 | the t blocks written for some timings are read back as those timings |
| SdpSessionLaws.MediasBlocks | src/Sdp.js:165-176 | the m blocks written for some media descriptions are read back as those descriptions |
| SdpSessionLaws.SessionRoundTrip | src/Sdp.js:44-225 | a well-formed description written out by `toString` and read back by `parse` is accepted and gives the same description, whatever the clock reads |
| Relay.Routed | src/RelayConnection.js:171-206 | a request delivered to a session is delivered to a session of the connection |
| Relay.RoutedDelivers | src/RelayConnection.js:171-206 | a request reaches a session exactly when its To-Path is one URI that parses, names a session and equals that session's local URI, and it is a SEND or a REPORT; 501 goes exactly to other methods that pass the same check |
| Relay.RoutedIgnoresSender | src/RelayConnection.js:171-206 | routing reads only the To-Path and the method |
| Relay.AddressedToSession | src/RelayConnection.js:171-206 | a SEND or REPORT addressed to the text of a session's local URI reaches that session |
| Relay.RoutedTo | src/RelayConnection.js:177-197 | a request whose lone To-Path URI parses to the URI of the session it names reaches that session |
| Relay.Carried | src/RelayConnection.js:194-200 | the messages handed to the socket are at most the calls made |
| Relay.Dismissed | src/RelayConnection.js:161-169 | the sessions removed are exactly those the calls name |
| Relay.WaitingTwice | src/RelayConnection.js:149-151 | telling a waiting session of the error again changes nothing |
| Relay.CarriedSent | src/RelayConnection.js:194-200 | calls that only send messages carry every message, in order |
| Relay.QueueOf | src/RelayConnection.js:239-267 | the scheduler's view of the connection covers every queued sender, in queue order, with nothing cut yet |
| Relay.RelayConnection.constructor | src/RelayConnection.js:18-50 | a new connection has no socket, no sessions, an empty queue and nothing outstanding |
| Relay.RelayConnection.Connect | src/RelayConnection.js:52-56 | a connection without a socket opens one; one with a socket is left as it was |
| Relay.RelayConnection.CreateSession | src/RelayConnection.js:69-92 | the new session has the chosen session id and the local URI built from it, is filed under that id, and a socket is opened when there was none |
| Relay.RelayConnection.OnWsError | src/RelayConnection.js:135-152 | the socket and the outstanding count are dropped, a reconnection is due exactly when there was a socket and sessions, and every session returns to AWAIT_CONNECT |
| Relay.RelayConnection.OnWsDisconnect | src/RelayConnection.js:154-159 | the socket and the outstanding count are dropped and nothing else changes |
| Relay.RelayConnection.RemoveSession | src/RelayConnection.js:161-169 | the session is forgotten, and removing the last one disconnects the socket |
| Relay.RelayConnection.SendResponse | src/RelayConnection.js:225-237 | the response goes on the wire exactly when the request wants it; a request without `responseOn` throws |
| Relay.RelayConnection.Carry | src/RelayConnection.js:194-200 | the session's calls are carried out in order: messages go on the wire and removed sessions are forgotten |
| Relay.RelayConnection.OnMsrpRequest | src/RelayConnection.js:171-206 | the request is routed as `Routed` says: answered by the connection, or handed to its session whose calls are carried out |
| Relay.RelayConnection.Dispatch | src/RelayConnection.js:194-200 | a REPORT goes to its session and changes nothing the connection holds; a SEND's calls are carried out |
| Relay.RelayConnection.OnMsrpResponse | src/RelayConnection.js:213-223 | a response to a SEND, and only to a SEND, frees one place in the count; the queue and the other senders stay for the pass that follows |
| Relay.RelayConnection.Handled | src/RelayConnection.js:214-219 | only a response to an AUTH request makes calls, and none of them adds a sender |
| Relay.RelayConnection.AddSender | src/RelayConnection.js:208-211 | the sender joins the tail of the queue and one scheduling pass runs, ending as `SendQueue.SendPass` says |
| Relay.RelayConnection.SendRequests | src/RelayConnection.js:239-267 | one pass of the scheduler: the queue, the count, the transaction ids and the wire end as `SendQueue.SendPass` says, and every queued sender ends in the state its lane says |
| Relay.RelayConnection.Serve | src/RelayConnection.js:248-266 | one turn: the head cuts a chunk, which goes on the wire, and the queue, the count and the ids become the scheduler's step |
| Relay.RelayConnection.ShiftIf | src/RelayConnection.js:249-252 | a sender the far end aborted is shifted off the queue, and an empty queue stays empty |
| Relay.RelayConnection.Settle | src/RelayConnection.js:260-266 | a send-complete head is shifted off; an unfinished one moves to the tail when others wait |
| Relay.RelayConnection.Sent | src/RelayConnection.js:253-257 | the chunk goes on the wire, the count goes up by one and one transaction id is used |
| Relay.WaitAll | src/RelayConnection.js:149-151 | every session is told of the error and returns to AWAIT_CONNECT |
| Relay.Cut | src/RelayConnection.js:253-260 | the head sender cuts its chunk with the given transaction id and its lane moves on, while every other lane stays |
| Uris.ParseThrows | src/Uri.js:24-72 | parsing throws exactly when there is no '://', the scheme is neither msrp nor msrps in any letter case, or no '/' or no ';' follows the '://' |
| Uris.ParseSecure | src/Uri.js:33-43 | a parsed URI is secure exactly when its scheme is msrps in any letter case |
| Uris.CutFields | src/Uri.js:53-64 | the user is the text before the first '@' of the authority part and the port the text after the first ':' of the rest; with their separators they give back the authority part |
| Uris.ParseFormat | src/Uri.js:24-105 | a URI written by `toString` parses back to its fields, when no field holds a separator a later step cuts at and neither the user nor the port is empty |
| Uris.PortlessUnequal | src/Uri.js:126-128 | two URIs without a port are never equal, not even to themselves, because the port comparison reads NaN |
| Uris.EqualsIgnoresUser | src/Uri.js:107-139 | the user plays no part in the comparison |
| Uris.EqualsSymmetric | src/Uri.js:107-139 | the comparison is symmetric, and a URI equals itself exactly when its port reads as a number |
| Uris.EqualsUpToCase | src/Uri.js:120-137 | letter case matters for the session id but not for the authority or the transport |
| Uris.SampleParses | test/Uri.js:5-50 | the four URIs of the tests parse to the fields the tests expect |
| Uris.SampleThrows | test/Uri.js:52-65 | an unknown scheme and text without '://' both throw |
| Uris.SampleSemicolonFirst | src/Uri.js:66-71 | a ';' inside the authority part makes the session id run backwards over it |
| Uris.Onto | src/Uri.js:24-72 | after `parse`, every field is the parsed one, except a user or a port the text lacks, which keeps its old value |
| Uris.OntoDefaults | src/Uri.js:10-22 | on a new object `parse` leaves exactly the parsed fields |
| Uris.Uri.constructor | src/Uri.js:10-16 | a new URI object holds the defaults and no cached text |
| Uris.Uri.Parse | src/Uri.js:24-72 | `parse` succeeds exactly when the text parses, and then the fields are those parsed, onto the old user and port; the cached text is untouched |
| Uris.Uri.ParseRest | src/Uri.js:45-72 | the cuts after the '://' succeed exactly when both separators are found, and set the fields as parsed |
| Uris.Uri.SetAuthority | src/Uri.js:50-64 | the authority part is stored with the user and then the port cut off it; the other fields stay |
| Uris.Uri.ToString | src/Uri.js:77-105 | `toString` answers the cached text when there is one and the formatted fields otherwise, and caches what it answers |
| Uris.FormatJoin | src/Uri.js:77-105 | the text built piece by piece is the formatted URI |
| Uris.NewUri | src/Uri.js:10-22 | `new Uri` throws exactly when the text is non-empty and does not parse, and otherwise holds the fields `New` gives |
| Uris.SampleRoundTrip | test/Uri.js:17-27 | the text of the URI built from 'msrp://alice@test.invalid/1234;tcp' is that string |
| SendQueue.Wire | src/RelayConnection.js:253-254 | one message goes on the wire per chunk cut |
| SendQueue.CarriesWire | src/RelayConnection.js:253-254 | the messages carried are the chunks of the cuts, in order |
| SendQueue.Unqueued | src/RelayConnection.js:249-252 | the first shift only removes senders from the queue |
| SendQueue.Requeued | src/RelayConnection.js:259-266 | the queue after the head sent a chunk holds only senders that were queued |
| SendQueue.Shifted | src/RelayConnection.js:249-266 | both shifts together only remove senders from the queue |
| SendQueue.Step | src/RelayConnection.js:248-266 | one turn cuts one chunk, adds one to the outstanding count, uses one transaction id and keeps every lane of the queue |
| SendQueue.Pass | src/RelayConnection.js:239-267 | a pass keeps every sender's lane and the queue covered |
| SendQueue.PassCounts | src/RelayConnection.js:240-258 | a pass sends at most its budget of two chunks, each adding one to the outstanding count and using one transaction id |
| SendQueue.PassStops | src/RelayConnection.js:245-247 | a pass sends nothing exactly when it may not start, and stops short of its budget only with an empty queue or a full count |
| SendQueue.PassWithin | src/RelayConnection.js:239-267 | a pass only drops senders from the queue |
| SendQueue.PassBounded | src/RelayConnection.js:245-247 | an outstanding count at or below the maximum stays at or below it |
| SendQueue.PassSends | src/RelayConnection.js:253-254 | the chunks a pass cuts follow those already cut, each with the next unused transaction id in order |
| SendQueue.PassKeepsIdle | src/RelayConnection.js:239-267 | senders that are not queued keep their state through a pass |
| SendQueue.WireSends | src/ChunkSender.js:85-138 | every chunk on the wire is a SEND with its cut's transaction id |
| SendQueue.StepRotates | src/RelayConnection.js:259-266 | a head not aborted by the far end leaves once send-complete and otherwise moves to the tail when others wait; the queue loses at most the head |
| SendQueue.RemoteAbortShiftsTwice | src/RelayConnection.js:249-262 | a head aborted by the far end sends its abort chunk and leaves, and the second shift also takes the sender behind it: with two or more senders the queue loses its first two |
| SendQueue.RemoteAbortLosesNext | src/RelayConnection.js:249-262 | the sender queued behind a remotely aborted head is no longer queued after the turn, though it sent nothing |
| SendQueue.TwoSendersAlternate | src/RelayConnection.js:239-267 | with two healthy senders each with more than one chunk left, a pass sends one chunk from each, in queue order, and leaves the queue as it found it |
| Transfer.Delivered | src/ChunkSender.js:85-138 | the chunks as the far end reads them each carry the message's Message-ID |
| Transfer.InOrderExtends | src/ChunkReceiver.js:57-165 | with nothing waiting out of order, the chunk the receiver expects extends its contiguous prefix by exactly its bytes and counts them, and a prefix that reaches the total is written to the blob |
| Transfer.FeedCarries | src/ChunkReceiver.js:57-165 | chunks carrying the rest of a payload, fed in order, are all accepted and leave the receiver complete with exactly the payload, its size counted and nothing waiting |
| Transfer.SendReceive | src/ChunkSender.js:25-138 | the chunks a new sender cuts from a non-empty payload, fed in order to a receiver built from the first, are all accepted, and the receiver ends complete holding exactly the payload, with the payload's size received and nothing waiting |
| Reassembly.AnyOrder | src/ChunkReceiver.js:21-168 | the chunks a new sender cuts from a non-empty payload, delivered in any order, each exactly once, to a receiver built from whichever arrives first, are all accepted; the receiver ends complete and not aborted, with exactly the payload in its blob, every byte counted once and no chunk waiting out of order |
| Reassembly.CarriedAnyOrder | src/ChunkReceiver.js:21-168 | chunks that carry a whole message, in any order, each once, leave the receiver built from the first to arrive complete with the message in its blob, the message's size received and nothing waiting |
| Reassembly.FeedAnyOrder | src/ChunkReceiver.js:57-158 | the chunks still to come, fed in any order to a receiver that holds the others, are each accepted and complete the message, and their bytes are counted |
| Reassembly.Step | src/ChunkReceiver.js:57-134 | a chunk still to come is accepted and its bytes counted; afterwards it lies inside the received prefix or waits under its own offset beyond it, and nothing else waits |
| Reassembly.AllArrived | src/ChunkReceiver.js:166-168 | once every piece has arrived the receiver is complete, holds the message in its blob and has nothing waiting |
| Reassembly.RunTakes | src/ChunkReceiver.js:106-124 | the drain takes every waiting piece that starts inside the bytes it appends |
| Reassembly.CarriesPieces | src/ChunkSender.js:85-138 | the chunks a sender cuts split the payload into non-empty pieces that do not overlap and cover it, at increasing offsets, each chunk carrying its piece, and their bytes add up to the payload |
| BinaryFrames.DrainAgrees | src/ChunkReceiver.js:106-124 | with no binary chunk waiting, the drain as written stages the same chunks, counts the same bytes and leaves the same map as the intended drain, and the count stays a number |
| BinaryFrames.StepAgrees | src/ChunkReceiver.js:57-158 | while no waiting chunk is binary and the count is a number, `processChunk` as written gives the same receiver and result as the intended receiver, and a chunk from a text frame keeps that so |
| BinaryFrames.TextAgrees | src/ChunkReceiver.js:57-158 | chunks none of which comes from a binary frame, fed in any order, leave the receiver as written exactly where the intended receiver ends, with the same result |
| BinaryFrames.OneThreeTwoStalls | src/ChunkReceiver.js:74-131 | chunks 1, 3, 2 of "123" in binary frames are each accepted and all three bytes counted, yet the drain of chunk 3 leaves the count NaN and the blob at one byte, so the receiver is not complete; the intended receiver, fed the same chunks, completes with "123" |
| BinaryFrames.IntendedCompletes | src/ChunkReceiver.js:57-168 | the intended receiver, fed chunks 1, 3, 2 of "123", accepts them all and completes with "123" in its blob |
| Sessions.Entered | src/Session.js:711-775 | the state is set; AWAIT_CONNECT, AUTH_FAILED, ERROR and CLOSED clear `established` and reset the auth timer and both halves of the To-Path; ESTABLISHED sets `established`; the other states keep the auth fields |
| Sessions.EnteredEffects | src/Session.js:740-768 | AUTH_FAILED, ERROR and CLOSED remove the session from its connection, and no other state does |
| Sessions.TriedFirst | src/Session.js:808-814 | trying the challenges gives a usable authorisation exactly when one of them does, and it is the one from the first such challenge |
| Sessions.AuthRequest | src/Session.js:791-830 | the AUTH request goes to the relay's MSRP URI alone, from the local URI, with the transaction id drawn |
| Sessions.AddAuthorisation | src/Session.js:822 | the Authorization header is added at the end of the table |
| Sessions.AddExpires | src/Session.js:828 | the Expires header is added at the end of the table |
| Sessions.FirstAuth | src/Session.js:823-830 | without a challenge the session sends a bare AUTH, with Expires when configured, and awaits the challenge |
| Sessions.ChallengeAnswered | src/Session.js:794-822 | a challenge answered with a usable digest sends the AUTH with that Authorization and awaits the result; one that yields none ends the session in ERROR, which removes it |
| Sessions.ChallengeTwiceFails | src/Session.js:635-638 | a second challenge while the answer to the first is awaited ends the session in AUTH_FAILED, which removes it |
| Sessions.AuthAccepted | src/Session.js:836-851 | a 200 with a Use-Path makes it the relay path, starts the timer and tells the application `onAuthenticated`; without a Use-Path the session ends in ERROR |
| Sessions.IntervalRetried | src/Session.js:646-650 | a 423 stores the relay's interval and starts again with a bare AUTH carrying it |
| Sessions.AuthRefused | src/Session.js:651-653 | any other status to an AUTH ends the session in AUTH_FAILED |
| Sessions.ReportNotifies | src/Session.js:599-626 | the application hears about a message at most once, exactly when its last report arrives and it was not aborted locally; a 200 report delivers it and any other fails it with that status and comment |
| Sessions.FirstUsable | src/Session.js:219-224 | the line chosen is the first usable media line, and none is chosen exactly when no line is usable |
| Sessions.Timeouts | src/Session.js:913-919 | one timeout callback per expired receiver |
| Sessions.TimeoutsAt | src/Session.js:916 | each callback names its receiver and carries the bytes it had stored |
| Sessions.Search | src/Session.js:219-224 | the loop over the media lines stops at the line `FirstUsable` names |
| Sessions.AbortSenders | src/Session.js:417-419 | every sender is aborted and nothing else about it changes |
| Sessions.AbortReceivers | src/Session.js:396-398 | every receiver is aborted and nothing else about it changes |
| Sessions.Session.constructor | src/Session.js:29-102 | a new session is in AWAIT_CONNECT, not established, with empty paths, no receivers or senders, nothing sent, and its SDP session id taken from the clock |
| Sessions.Session.SetFile | src/RelayConnection.js:107-116 | only the file to send changes |
| Sessions.Session.InitAuth | src/Session.js:776-789 | the auth timer stops and the relay and far-end paths empty; nothing else changes |
| Sessions.Session.ChangeState | src/Session.js:711-775 | the auth fields move as `Entered` says, the callbacks due are logged and the connection calls are those `EnteredEffects` lists |
| Sessions.Session.Authorise | src/Session.js:808-814 | the loop yields what `Tried` gives for the challenges |
| Sessions.Session.SendAuth | src/Session.js:791-834 | the session moves, logs and sends as `AuthSent` says |
| Sessions.Session.MakeAuthRequest | src/Session.js:794-830 | the request built with `addHeader` is the AUTH request `AuthRequest` describes |
| Sessions.Session.Decide | src/Session.js:797-820 | the next state and authorisation are those `AuthStep` gives |
| Sessions.Session.ProcessAuthRes | src/Session.js:836-851 | the session moves as `AuthResProcessed` says |
| Sessions.Session.AuthTimerFired | src/Session.js:844-849 | the auth state is reset and a bare AUTH is sent |
| Sessions.Session.OnWsConnect | src/Session.js:435-437 | authentication starts with a bare AUTH |
| Sessions.Session.OnWsError | src/Session.js:439-442 | the session returns to AWAIT_CONNECT and makes no connection call |
| Sessions.Session.OnAuthResponse | src/Session.js:633-656 | the response to the AUTH request moves the session as `AuthAnswered` says |
| Sessions.Session.OnSendResponse | src/Session.js:659-695 | without a Message-ID nothing happens; a 200 logs the progress callbacks; any other status aborts the sender as a remote abort, forgets it and logs the failure |
| Sessions.Session.SendFailed | src/Session.js:684-694 | the sender is aborted remotely, forgotten, and the failure with the response's status and comment is logged |
| Sessions.Session.OnIncomingResponse | src/Session.js:630-697 | a response to an AUTH is handled as `AuthAnswered` says; any other makes no connection call and leaves the configured interval |
| Sessions.Session.ReportTimeout | src/Session.js:699-709 | the sender is forgotten and a 408 'Report Timeout' failure is logged |
| Sessions.Session.OnIncomingSend | src/Session.js:444-582 | the answers, callbacks, receiver filing, sweep and drawn id are those `Delivery.Handle` decides for a relayed session; after a lone 200 the success REPORT follows when asked for |
| Sessions.Session.Respond | src/Session.js:563-581 | the responses for the statuses answered go out, then the success REPORT after a lone 200 when the request asks for one |
| Sessions.Session.Receive | src/Session.js:447-562 | the handling up to the answers is the one `Delivery.Handle` decides |
| Sessions.Session.ReceiveWhole | src/Session.js:448-485 | a message in one chunk is handled as `Delivery.Handle` decides |
| Sessions.Session.ReceiveOpening | src/Session.js:494-521 | a first chunk is handled as `Delivery.Handle` decides |
| Sessions.Session.Open | src/Session.js:501-518 | the receiver is filed, and the sweep started, only once the application accepts the first callback |
| Sessions.Session.ReceiveLater | src/Session.js:522-561 | a later chunk is handled as `Delivery.Handle` decides |
| Sessions.Session.Finish | src/Session.js:545-560 | a receiver that took its chunk is removed once complete and the message delivered; otherwise the progress is logged |
| Sessions.Session.OnIncomingReport | src/Session.js:584-628 | a report without a Message-ID or for a message not being sent is ignored; otherwise the sender takes it and, once complete, is forgotten and the application told as `ReportEvents` says |
| Sessions.Session.CheckReceivers | src/Session.js:907-929 | every receiver idle for longer than the chunk timeout is aborted, forgotten and reported, in visiting order; the others stay; the sweep stops once none is left |
| Sessions.Session.Sweep | src/Session.js:910-921 | the loop expires exactly the receivers given and logs their timeouts |
| Sessions.Session.Expire | src/Session.js:913-919 | one idle receiver is aborted, forgotten and its timeout logged |
| Sessions.Session.ProcessSdpAnswer | src/Session.js:204-266 | outside AWAIT_SDP and ESTABLISHED, or with no usable media line, nothing happens; the first usable line is adopted, and a new sender is started when none exists |
| Sessions.Session.Adopt | src/Session.js:226-235 | the far-end path, accepted types and wrapped types come from the usable line, the To-Path is the relay path followed by the far-end path, and the session enters ESTABLISHED |
| Sessions.Session.StartSender | src/Session.js:237-255 | a new sender with the next Message-ID and a report-timeout handler is filed under its id and handed to the connection |
| Sessions.Session.Send | src/Session.js:361-379 | a session not established throws; otherwise a new sender with the type `SendType` picks is queued and its Message-ID returned |
| Sessions.Session.AbortReceive | src/Session.js:386-402 | a named id without a receiver throws a RangeError; a named id aborts only its receiver; no id aborts them all |
| Sessions.Session.AbortSend | src/Session.js:408-423 | a named id without a sender throws a RangeError; a named id aborts only its sender; no id aborts them all |
| Sessions.Session.CloseAsWritten | src/Session.js:428-433 | `close()` as written: the call of the undefined `abortFileReceive` throws a TypeError, and no receiver, sender or session state changes |
| Sessions.Session.Close | src/Session.js:428-433 | `close()` as evidently intended: every receiver and sender is aborted and the session enters CLOSED, which removes it from its connection |

## Left out

- `sendFile`, `createFileTransferSession` and `addSdpAttributes`: the file
  is set by `Sessions.Session.SetFile`, and the browser `File` metadata is not
  modelled.
- SDP offer and answer assembly (`getSdpOffer`, `getSdpAnswer` in
  `Session.js` and `DataChannelSession.js`): this is attribute-string gluing
  over the SDP codec, which is modelled.
- `WSWrapper.js` and `DCWrapper.js`: the WebSocket and data-channel glue,
  including the transaction table and its synthesised 408. The request a
  response answers is a parameter of the response handlers.
- Digest authentication (`digestAuthentication.js`): it relies on a foreign
  MD5 and a random cnonce. It is a parameter `digest` that returns an
  authorisation or nothing.
- Timers and the clock: they become flags (`authTimer`, `receiverCheck`)
  and an explicit `now` reading. Random identifiers become an injected
  sequence `ids`.
- `console` logging, and the try/catch wrappers around logging.
- Sessions.Session.CheckReceivers: JavaScript visits the receivers in
  `for-in` order. The contract states the effects for the visiting order
  `order` it returns, not for that specific order.
- Sessions.Session.ProcessSdpAnswer: when senders already exist, the source
  returns the first key its `for-in` visits. The contract says only that the
  result is one of the senders' ids.
- Channels.DataChannelSession.CheckReceivers: JavaScript visits the
  receivers in `for-in` order. The contract states the effects for the
  visiting order `visited` it returns, not for that specific order.
- Transfer.SendReceive: chunks pass from sender to receiver as values. That
  `encode` and `parseMessage` carry a request across is proved on its own
  for any encodable request (`RoundTrip.RequestRoundTrip`). It is not
  composed with the chunks a sender cuts, so the model does not show that
  each chunk is encodable, or that its Byte-Range and Message-ID headers
  parse back to the values the receiver uses. The same holds for
  `Reassembly.AnyOrder`.
- Case mapping: `JsString.LowerChar` and `JsString.UpperChar` map ASCII
  letters only, where JavaScript's `toLowerCase` and `toUpperCase` are
  Unicode-aware. This feeds `Util.NormaliseHeader`, `Uris.ParseThrows`,
  `Uris.EqualsUpToCase` and `Parser.FailureReportCaseInsensitive`; they
  agree with the source for ASCII input.
- Numbers: JavaScript numbers are doubles. `ParseInt` and decimal rendering
  are exact for every integer here, so `Parser.ByteRangeRoundTrip`,
  `Parser.ExpiresRoundTrip` and `Util.NtpRoundTrip` also hold above 2^53,
  where the source loses precision. `Util.NtpTimeToDate` returns a value
  even beyond the ±8.64e15 ms range of a `Date`.
- Property order: message headers, SDP attributes, content-type parameters
  and Content-Disposition parameters are kept in insertion order.
  JavaScript's `for-in` visits integer-like property names first, in
  ascending order. So the source writes such names first: `encode` for
  headers, and the SDP and content-type writers for theirs.
- ChunkSending.MinKey, ChunkSending.Drain: the waiting reports are visited
  smallest offset first. `for-in` does so only for array-index names, below
  2^32 - 1. Reports for offsets beyond 4 GiB would be visited after those,
  in insertion order; the model does not cover that order.
- Assoc.Get, Assoc.Put, Message.AddHeader: the source keys these tables by
  plain JavaScript objects. Those objects also answer the names they inherit
  from `Object.prototype` (`__proto__`, `toString`, `constructor` and the
  like); the model answers nothing for them. The consequences are:
  - a header named `__proto__` makes `addHeader`, and so `parseMessage`,
    throw a TypeError where `Parser.Parse` returns a message;
  - a later SEND chunk whose Message-ID is such a name gets 500 from the
    caught TypeError where `Delivery.Handle` answers 413;
  - a REPORT with such a Message-ID throws in the source, where
    `Sessions.Session.OnIncomingReport` and
    `Channels.DataChannelSession.HandleReport` ignore it;
  - an SDP attribute named `__proto__`, and content-type and
    Content-Disposition parameters with that name, are silently dropped by
    the source; `Sdp.AddAttribute`, `ContentTypes.ParamRound` and
    `Parser.DispositionParams` keep them.
  The model takes keys to be ordinary names.
- `RelayConnection.disconnect` and the connection's own `onWsConnect`: they
  are socket management outside the routing and scheduling modelled here.
- UTF-8 encoding: text and binary bodies are strings of octets, one
  character per octet. The UTF-8 re-encoding of text frames by `Blob` is not
  modelled.
- ChunkReceiving.Process: the out-of-order drain reads `.size` of a waiting
  chunk, which a chunk from a binary frame, kept as a `Uint8Array`, lacks.
  `ChunkReceiving.Process` counts the bytes of every waiting chunk, as
  intended. The receiver as written is `BinaryFrames.ProcessAsWritten`, and
  the stall it causes is the second row of "Findings". The rest of the model
  (`Transfer`, `Reassembly`, `Delivery`, the sessions) uses the intended
  receiver, so `Reassembly.AnyOrder` holds for the source only when no chunk
  from a binary frame has to wait (`BinaryFrames.TextAgrees`).
- A released data channel: after `onDcClose` the source sets `dataChannel`
  to null, so a response sent later would throw a TypeError. Such a request
  cannot arrive, because messages come through that channel. The model
  records the channel as a flag and does not make sends depend on it.
- Delivery.Handle, Sessions.Session.OnIncomingSend, Sessions.SentEvents,
  Sessions.ReportEvents: the source calls `onChunkReceived`,
  `onMessageDelivered`, `onChunkSent` and `onMessageSent` only when the
  application defines them (src/Session.js:470, 480, 558, 619, 669,
  673-674). The model always logs `Notify.ChunkReceived`,
  `Notify.MessageDelivered`, `Notify.ChunkSent` and `Notify.MessageSent`.
  An entry for one of these stands for a call made when the callback exists,
  and `Notify.Verdict` has no case for a callback that is absent.
- Notify.BlobReceived: `onMessageReceived` also gets `blob.type` (src/Session.js:475,
  555). The event carries only the blob's bytes. That type is the first
  chunk's Content-Type once the receiver has written its buffer out
  (src/ChunkReceiver.js:153, 183), and the empty string before that.
- ChunkSending.BodyParts, ChunkSending.ChunkSender.constructor: a body of any
  other kind makes the source's constructor throw a TypeError
  (src/ChunkSender.js:55-57). `ChunkSending.Content` holds only the kinds the
  constructor accepts, so that path cannot be expressed.
- Sessions.SentEvents, Sessions.Session.OnSendResponse: the source calls
  `onChunkSent` and then `onMessageSent` inside one try block
  (src/Session.js:668-680). When `onChunkSent` throws, `onMessageSent` is not
  called. `OnSendResponse` takes no application, so it logs `MessageSent`
  for every 200 to an end chunk, whatever `onChunkSent` did.
- `Events.js`, `Exceptions.js` and `FileParams.js` hold declarations only.
  Their callbacks appear as the `Notify` events, and their exceptions as the
  `Outcome` and `Verdict` values.

## Findings

| source | as written | input that shows it | evidently intended | confidence | as-written member | corrected member |
|---|---|---|---|---|---|---|
| src/Session.js:428-433 | `close()` first calls `this.abortFileReceive()` (and then `this.abortFileSend()`), which sessions do not define, so it throws a TypeError | any call of `close()` on a session | abort every receiver and sender (`abortReceive()`, `abortSend()`) and enter CLOSED, as the data-channel session's `close()` does | high, not executed | Sessions.Session.CloseAsWritten | Sessions.Session.Close |
| src/ChunkReceiver.js:74-79, 106-131 | a chunk from a binary frame is kept as a `Uint8Array`; when it waits for a gap and the drain later takes it, its size is read as `.size`, which a `Uint8Array` lacks, so the buffered byte count and the expected offset become NaN; the buffer is then never written out, and only a later chunk of the message, taking the overwrite branch, writes it | the three one-byte chunks of "123" in binary frames, arriving 1, 3, 2, with no later chunk: each is accepted and 3 bytes are counted, but the blob holds one byte and the receiver never completes | every arrival order completes, the drain counting a waiting chunk's bytes (`byteLength`) whatever its form | high, not executed | BinaryFrames.OneThreeTwoStalls | Reassembly.AnyOrder |
