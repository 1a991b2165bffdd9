# Reshape: a verified model of its session protocol and text algorithms

Reshape is a local agent. A Rust server accepts WebSocket connections, speaks JSON-RPC and feeds one
agent worker; a browser extension talks to it through a connection manager whose methods interleave at
every `await`; a command-line tool parses arguments, streams answers from a gateway and keeps sidecar
files for its daemons. This project models those parts in Dafny and proves what they keep, over every
input and every run.

`dafny verify dfyconfig.toml` checks the whole project.

## How the model is laid out

- **Session protocol.** `RpcProtocol` holds the frames and what each side makes of them. `RpcServer` is
  the server as a transition system: any number of connections, a bounded queue, one worker; each action
  is a stretch of code between two awaits and any order of actions is a run, so every choice of
  `tokio::select!` is covered, and every write to a socket may fail. `RpcServerProofs` holds the invariant
  and its preservation, `RpcServerTheorems` what follows for whole runs, `RpcWire` why each frame stands on
  the wire, and `RpcOutcomes` how the runtime's own events and outcome reach it.
- **Extension.** `ConnectionManager` holds the manager's fields as a class, each method tied to a function
  on its state, and the popup's copy of the message list. `ExtensionClient` adds the sockets and every call
  waiting at an await; a settled call resumes in a later step, so calls interleave in any order the event
  loop allows, against a server that may send any frame or text that is not JSON at any time.
  `ExtensionClientProofs` and `Conversation` prove what every run keeps, `ClientEffects` what each call does
  with its text, its reply and its history.
- **Both together.** `Session` connects every socket of the extension with a connection of the server,
  frames travelling in order both ways while other clients use the same server. `SessionProofs` proves the
  properties that need both sides, `LostReply` follows one run in which a reply is lost.
- **Chat.** `ChatStream` (incremental parser, tool-call assembly), `StreamRoundTrip` (the wire format written
  out and read back) and `ChatLoop` (message log, turns,
  compaction).
- **Command line.** `Flags` (three argument scanners against one reference reading), `ShellWords`,
  `Cookies` (the header) and `CurlCookies` (the cookies file and the cURL scanner).
- **Daemon and text.** `DaemonInventory`, `Workspace`, `Utf8` with `TextLimits`, `PortHash`.
- `Wrappers`, `Strings` and `Sequences` hold Option and Result, trimming and decimal printing, and sequence algebra.

## What the code does not promise

Some natural statements about the code are false. The code is modelled as it is, and each of these has the
exact condition under which the property holds.

- A reply can be lost. When two connects overlap, the first succeeds and a send starts on it, and then the
  second fails, the history is cleared under the running send; the answer then trips over
  `this.history.messages` and is recorded nowhere (`ReplyCanBeLost`, a run of both programs). A current reply is recorded exactly
  when the history is still defined (`ReplyIsRecordedIff`).
- The popup's replacement functions and the manager's agree exactly when a placeholder exists
  (`PopupAgreesIff`).
- Compaction keeps a log well paired exactly when the kept part does not start on a tool message
  (`CompactionIsSafeIff`); the fallback of `find_safe_split` can break that (`FallbackCutsToolExchange`), but
  no interactive session reaches it (`RunInteractive`).
- Output over the character limit is not always changed: it comes through as it is when what would be cut
  is, character for character, the notice that replaces it (`OutputLimit`, `OverTheLimitUnchanged`).
- A JSON-RPC request whose id is null is refused as having no id, although the error text of the id check
  and the TypeScript types allow null; a request is accepted exactly when it says version 2.0, names a method
  and has a string or a number as its id (`RequestAcceptedIff`).
- A file that holds a bare cookie-string does not always read back. When the first name starts with `curl'`,
  which a cookie name may, the file is taken for a cURL command and refused; in all other cases it reads
  back (`BareHeaderReadsBackIff`, `RefusedHeader`).
- A turn's list of changed files is not always the changed files. A tree that could not be read before the
  turn makes every file count, so that an unchanged file is listed (`UnchangedFileIsReported`), one that cannot
  be read after it makes none. `ReportIsExactIff` gives the exact condition.
- The server refuses the extension's handshake exactly when the tab id does not fit in 32 unsigned bits,
  which Chrome's "no tab" id of -1 does not (`HandshakeAcceptedIff`).

## Model

| member | source | states |
|---|---|---|
| `SessionProofs.NoFrameIsDropped` | extensions/reshape/src/background-connection.ts:69-191 | in every run of extension and server together, a frame of the extension that reaches the server finds it in its main loop, never inside the select loop of an input turn that would drop it as overlapping |
| `SessionProofs.ProgressEqualsActivity` | extensions/reshape/src/rpc.ts:167-189 | in every run, a send answered with a result was given through onProgress, in order, exactly the events the runtime emitted for the input turn of the very frame that send wrote, received by the server on that connection, its activity list repeats exactly those, and its text is the one with which the runtime finished that turn |
| `SessionProofs.WorldRunKeeps` | extensions/reshape/src/rpc.ts:280-318 | the joint invariant of every run: each outstanding input turn is still unread by the server, being enqueued, running with wire and heard events in step, answered but unread, or given up |
| `Session.SeenIsParsed` | crates/reshape-cli/src/rpc_server.rs:240-303 | the server's handshake parser and request decoder, applied to each frame the extension builds, give what the joint model feeds the server |
| `RpcOutcomes.TurnOnTheWire` | crates/reshape-cli/src/rpc_server.rs:352-417 | from the enqueueing of an input turn to its reply, under any select choices and anything else in between, the connection's wire gains exactly the events the runtime emitted for that turn, in order, none lost or repeated, and then one reply that tells the runtime's outcome: its text and again those events, or its error |
| `RpcOutcomes.ReplyTellsOutcome` | crates/reshape-cli/src/rpc_server.rs:240-417 | when the reply to a request is written, the wire gains one entry, for that request's frame and id, that tells exactly the outcome with which the runtime finished it: text and events, history messages, or error; an error if it never finished |
| `RpcOutcomes.RunIsRecorded` | crates/reshape-cli/src/rpc_server.rs:465-541 | over every run a request's events are those the runtime emitted while it worked on it, it is finished at most once, and its reply channel holds that outcome unless its client has gone |
| `RpcOutcomes.WorkerGone` | crates/reshape-cli/src/rpc_server.rs:256-275 | once the worker is gone a request is answered at once, under its own id, with that error |
| `RpcWire.WireIsExplained` | crates/reshape-cli/src/rpc_server.rs:174-303 | in every reachable state each acknowledgement answers an accepted handshake and is the only one, a connection counts as handshaken exactly when it is on the wire, each reply before it is the refusal of a handshake with its error, each later one what its request asks for under its id |
| `RpcWire.FrameIsTreated` | crates/reshape-cli/src/rpc_server.rs:174-238 | every frame of the main loop is treated at once: closed on close, acknowledged if an accepted handshake, queued if for the worker, else answered with its one proper reply |
| `RpcWire.RefusedWriteEnds` | crates/reshape-cli/src/rpc_server.rs:174-238 | a write the socket refuses leaves nothing on the wire and ends the connection |
| `RpcWire.FramesDuringATurn` | crates/reshape-cli/src/rpc_server.rs:352-417 | frames during a turn change nothing but the record of what came in, unless they end the stream: then the turn is given up and nothing written |
| `RpcWire.ConnectionsGoOn` | crates/reshape-cli/src/rpc_server.rs:174-417 | in every reachable state each connection can take exactly the steps its phase allows; enqueueing waits exactly for room in the 32 places or the worker's end |
| `RpcWire.WorkerGoesOn` | crates/reshape-cli/src/rpc_server.rs:421-541 | in every reachable state the idle worker can start what is queued, the busy one can emit and finish, and exactly an abandoned turn can be cancelled |
| `RpcServerTheorems.RepliesCorrelate` | crates/reshape-cli/src/rpc_server.rs:174-238 | on every connection in every reachable state no frame has two replies, replies keep the order of the frames, a non-null id is that frame's id, exactly one of result and error is set |
| `RpcWire.GatedByHandshake` | crates/reshape-cli/src/rpc_server.rs:174-238 | a request enters the agent queue only from a connection whose wire already carries the acknowledgement of a received frame that is an accepted handshake, and it is the request of the frame last received |
| `RpcServerTheorems.WorkerIsFifo` | crates/reshape-cli/src/rpc_server.rs:421-541 | requests start in enqueue order, the queue never holds more than 32, and every started request but the active one has had its reply channel answered or dropped |
| `RpcServerTheorems.AnsweredAtMostOnce` | crates/reshape-cli/src/rpc_server.rs:421-541 | a reply channel once answered or dropped keeps that answer, and that turn's events, in every continuation of the run |
| `RpcServerTheorems.AbandonedNeverBlock` | crates/reshape-cli/src/rpc_server.rs:465-501 | when the active request and the first n queued ones are abandoned, worker steps alone reach request n, leaving all connections and the rest of the queue as they were |
| `RpcServerTheorems.RunExtends` | crates/reshape-cli/src/rpc_server.rs:174-541 | every run only extends: wires, start order, tickets and given answers of any state are kept by every later state |
| `RpcServerProofs.RunKeeps` | crates/reshape-cli/src/rpc_server.rs:174-541 | the server invariant over connections, tickets and worker holds in every reachable state |
| `RpcServerProofs.StepKeeps` | crates/reshape-cli/src/rpc_server.rs:174-541 | each single action of handler or worker, successful writes and failed ones, keeps the server invariant |
| `RpcServerProofs.OnFrameLogs` | crates/reshape-cli/src/rpc_server.rs:174-300 | a frame read by the main loop leaves a matched log, grows the wire, completes the handshake only with an acknowledgement, and starts enqueueing only the request that frame asks for |
| `RpcProtocol.RequestRoundTrip` | crates/reshape-cli/src/rpc_protocol.rs:403-485 | every request the extension builds decodes on the server to the operation it asks for, with its id, text and tab metadata intact |
| `RpcProtocol.HandshakeAcceptedIff` | crates/reshape-cli/src/rpc_protocol.rs:317-353 | the extension's handshake is accepted if and only if its tab id, when present, is an unsigned 32-bit number |
| `RpcProtocol.RequestAcceptedIff` | crates/reshape-cli/src/rpc_protocol.rs:403-437 | a frame is accepted as a request if and only if it is an object with jsonrpc "2.0", a string method and a string or number id; an accepted request carries that id and method |
| `RpcProtocol.HandshakeVerdict` | crates/reshape-cli/src/rpc_protocol.rs:317-353 | for every text: accepted as a handshake exactly with the right type, version, a client name and version that say something and a proper tab; which refusals are errors of the parameters |
| `RpcProtocol.MethodDecides` | crates/reshape-cli/src/rpc_server.rs:240-303 | an accepted request goes where its method says, unknown methods are refused under its id |
| `RpcProtocol.InputAcceptedIff` | crates/reshape-cli/src/rpc_protocol.rs:439-485 | for every request: the exact parameters an input needs, and that its envelope carries its text and its metadata with the printed id |
| `RpcProtocol.FramesCarryTheTab` | extensions/reshape/src/rpc.ts:59-112 | handshake and input carry the tab's id, url and title, each under its own name |
| `RpcProtocol.SuccessResponse` | crates/reshape-cli/src/rpc_protocol.rs:487-530 | a success response echoes its id, has exactly the given result and no error |
| `RpcProtocol.ErrorResponse` | crates/reshape-cli/src/rpc_protocol.rs:532-546 | an error response has exactly the given error and no result, and its id is the given one, null only when none was given |
| `ExtensionClientProofs.ClientRunKeeps` | extensions/reshape/src/background-connection.ts:69-191 | the client invariant holds after every interleaving of connects, sends, resets, disconnects, closes, errors, messages and text that is not JSON |
| `ExtensionClientProofs.WorkingIffOneCurrentSend` | extensions/reshape/src/background-connection.ts:105-161 | isWorking holds exactly while a pending send carries the current generation, there is at most one, pending generations are distinct, and "connected" implies a socket |
| `ExtensionClientProofs.NeverWritesDuringATurn` | extensions/reshape/src/background-connection.ts:105-191 | a request is written to a socket only while no input turn is outstanding on it, and one at a time |
| `ExtensionClientProofs.GenerationNeverFalls` | extensions/reshape/src/background-connection.ts:105-161 | over every run the generation never falls and a pending send keeps its own until it is over |
| `ExtensionClientProofs.SupersededSendIsInert` | extensions/reshape/src/background-connection.ts:134-160 | once superseded, a send's completion, whenever it comes in any later run, changes no field of the manager and no socket |
| `ExtensionClientProofs.ReplyIsRecordedIff` | extensions/reshape/src/background-connection.ts:130-160 | a current reply is recorded as complete in the history if and only if the history is still defined; otherwise the status becomes an error with the TypeError text |
| `LostReply.ReplyCanBeLost` | extensions/reshape/src/background-connection.ts:69-160 | a run of extension and server in which a current send is answered and its completion ends in that TypeError, with no history |
| `Conversation.HistoryOfARun` | extensions/reshape/src/background-connection.ts:118-160 | after any undisturbed stretch of a run the history is the fetched messages, one (user, reply) pair per completed send in the order of the sends, and the last user message with the placeholder exactly while a send is outstanding |
| `ClientEffects.CallAcceptedIff` | extensions/reshape/src/background-connection.ts:105-170 | in every reachable state a send or reset is accepted exactly when a socket is held, the status is connected and nothing is working |
| `ClientEffects.ConnectDialsUnless` | extensions/reshape/src/background-connection.ts:69-80 | a connect does nothing exactly when already connected to that address, else it dials and closes the held socket |
| `ClientEffects.SendWritesItsText` | extensions/reshape/src/rpc.ts:167-175 | a send writes one request with its own text under the id it waits for, while the history shows the display text |
| `ClientEffects.SendIsSettled` | extensions/reshape/src/rpc.ts:167-189 | progress adds its event, the reply with the send's id gives it the result's text and events or the error's message, all else is ignored |
| `ClientEffects.FetchedIsTheReply` | extensions/reshape/src/rpc.ts:191-205 | the history becomes the messages of the reply, in order, with their roles and texts; empty after an error |
| `ClientEffects.ResetIsTheReply` | extensions/reshape/src/rpc.ts:207-221 | the same for a reset; an error leaves the history and shows its message |
| `ClientEffects.HandshakeDecides` | extensions/reshape/src/rpc.ts:152-165 | an acknowledged connect holds its socket and asks for the history, any other first message closes the socket and fails the connect |
| `ClientEffects.ErrorRejects` | extensions/reshape/src/rpc.ts:252-318 | an error on a socket rejects every call waiting on it and no other |
| `ClientEffects.CloseReaches` | extensions/reshape/src/background-connection.ts:84-97 | a close reaches the manager only after the history fetch and only for the held socket, and never ends a send |
| `ClientEffects.DisconnectDrops` | extensions/reshape/src/background-connection.ts:182-191 | disconnecting closes the held socket and drops everything but the address |
| `Conversation.TranscriptSays` | extensions/reshape/src/background-connection.ts:132-160 | a completed send stands in the history as its display text and the reply's text or its error's message |
| `Conversation.ReplyIsRecorded` | extensions/reshape/src/background-connection.ts:134-160 | the completion of the current send turns its placeholder, and nothing else, into the reply |
| `ConnectionManager.ReplaceLastWorkingMessage` | extensions/reshape/src/background-connection.ts:194-209 | the downward scan replaces the last working message, or appends when there is none |
| `ConnectionManager.ReplacePlaceholder` | extensions/reshape/src/background-connection.ts:194-209 | right after a placeholder was appended, replacing changes only that placeholder |
| `ConnectionManager.PopupAgreesIff` | extensions/reshape/src/popup-state.ts:80-131 | the popup's two replacement functions give the manager's list if and only if the list holds a working message |
| `ConnectionManager.PopupWithoutPlaceholder` | extensions/reshape/src/popup-state.ts:80-121 | without a placeholder the popup adds an unmarked message, but not a reply that is already its last |
| `ConnectionManager.LastWorking` | extensions/reshape/src/popup-state.ts:123-131 | the index of the last working message, -1 exactly when there is none |
| `ConnectionManager.RpcConnectionManager.constructor` | extensions/reshape/src/background-connection.ts:39-67 | a new manager is unconnected, idle, without history, at generation 0 |
| `ConnectionManager.RpcConnectionManager.BeginConnect` | extensions/reshape/src/background-connection.ts:69-83 | nothing happens when already connected to that address; otherwise connecting begins, the generation moves on and the held socket is the one to close |
| `ConnectionManager.RpcConnectionManager.ConnectResolved` | extensions/reshape/src/background-connection.ts:69-103 | an opened socket is held and the status is connected before the history arrives |
| `ConnectionManager.RpcConnectionManager.HistoryResolved` | extensions/reshape/src/background-connection.ts:69-103 | the fetched history overwrites whatever was there and nothing else |
| `ConnectionManager.RpcConnectionManager.ConnectRejected` | extensions/reshape/src/background-connection.ts:69-103 | a failed connect drops socket and history and reports the error, leaving isWorking and generation |
| `ConnectionManager.RpcConnectionManager.CloseEvent` | extensions/reshape/src/background-connection.ts:84-103 | only the held socket's close drops socket and history; isWorking stays |
| `ConnectionManager.RpcConnectionManager.BeginSend` | extensions/reshape/src/background-connection.ts:105-132 | refused unless connected and idle; else a new generation, and user message and placeholder appended |
| `ConnectionManager.RpcConnectionManager.EndSend` | extensions/reshape/src/background-connection.ts:132-160 | a stale completion changes nothing; a current one records reply, rejection or failure, including the failure on a cleared history |
| `ConnectionManager.RpcConnectionManager.EndReset` | extensions/reshape/src/background-connection.ts:163-178 | a finished reset overwrites the history, a failed one only the status |
| `ConnectionManager.RpcConnectionManager.Disconnect` | extensions/reshape/src/background-connection.ts:180-191 | everything but the address is dropped and the generation moves on |
| `ChatStream.ParseGatewayStream` | crates/agent-browser/src/chat.rs:398-491 | however the text was cut into chunks, texts and tool calls are the meaning of all text received before the first broken chunk: complete lines up to [DONE], an unterminated last line ignored |
| `StreamRoundTrip.StreamRoundTrip` | crates/agent-browser/src/chat.rs:411-491 | for every list of payloads written as data lines with any carriage returns and any other lines between them, every end of the stream and every cutting into chunks, the result is the texts and tool calls of the payloads that decode, in order |
| `StreamRoundTrip.DeltasAdd` | crates/agent-browser/src/chat.rs:446-483 | each delta adds its text and its fragments, in order, and nothing else does |
| `StreamRoundTrip.OneDelta` | crates/agent-browser/src/chat.rs:446-458 | an empty text adds nothing, any other itself; the fragments are the delta's own |
| `StreamRoundTrip.FirstIsEarliest` | crates/agent-browser/src/chat.rs:458-473 | id and name come from the earliest fragment of an index |
| `StreamRoundTrip.ArgumentsAdd` | crates/agent-browser/src/chat.rs:474-482 | the arguments of an index are those of its fragments one after the other |
| `StreamRoundTrip.OneFragment` | crates/agent-browser/src/chat.rs:474-482 | a fragment adds its arguments to its own index only |
| `ChatStream.MeaningIsUnique` | crates/agent-browser/src/chat.rs:398-503 | a text has only one meaning, so two cuttings of the same text give the same result |
| `ChatStream.CollectToolCalls` | crates/agent-browser/src/chat.rs:494-503 | the table's calls, one per index, in ascending order of index |
| `ChatStream.TableGrows` | crates/agent-browser/src/chat.rs:456-483 | adding a fragment to the table keeps, for every index, id and name of its first fragment and all its arguments in arrival order |
| `ChatStream.TakeLine` | crates/agent-browser/src/chat.rs:419-484 | one finished line that is not [DONE] adds its delta's text and fragments, or nothing |
| `ChatStream.LinesOfUnlines` | crates/agent-browser/src/chat.rs:411-422 | the lines of a text put together from finished lines and a rest are those lines and the lines of the rest |
| `ChatLoop.RunChatTurn` | crates/agent-browser/src/chat.rs:195-394 | at every return the log is the old log and whole rounds, at most 50, and well paired if it was; success and failure happen exactly where the turn's replies say |
| `ChatLoop.RunStep` | crates/agent-browser/src/chat.rs:291-376 | one streamed answer adds one assistant message that merges text and calls, then one tool message per call, same ids, same order |
| `ChatLoop.RoundSays` | crates/agent-browser/src/chat.rs:291-376 | a streamed answer adds one assistant message with its joined text and its calls, then for each call, in order, the result of executing that call |
| `ChatLoop.JoinIs` | crates/agent-browser/src/chat.rs:294-296 | joining keeps every piece in order and adds nothing |
| `ChatLoop.RoundsArePaired` | crates/agent-browser/src/chat.rs:232-377 | any number of rounds is well paired |
| `ChatLoop.PairedEverywhere` | crates/agent-browser/src/chat.rs:232-377 | well paired, position by position: every assistant message is followed at once by exactly its own tool messages and then by none |
| `ChatLoop.CompactionIsSafeIff` | crates/agent-browser/src/chat.rs:160-177 | compacting a well-paired log keeps it well paired if and only if the kept part does not start on a tool message |
| `ChatLoop.FindSafeSplit` | crates/agent-browser/src/native/stream/chat.rs:184-195 | the last user message that leaves the wanted number of recent ones; without one exactly that number is kept, whatever message it starts on |
| `ChatLoop.FallbackCutsToolExchange` | crates/agent-browser/src/native/stream/chat.rs:184-195 | a well-paired log without a user message whose fallback split lands on a tool message and whose compaction is not well paired |
| `ChatLoop.Prepare` | crates/agent-browser/src/chat.rs:150-177 | the log gains the trimmed line; it is compacted exactly when over 200,000 characters and eight messages and the part before the last user message that leaves six is summarized, and then is the system prompt, that summary and the rest |
| `ChatLoop.RunInteractive` | crates/agent-browser/src/chat.rs:123-190 | blank lines are skipped and a quitting line ends the session; after each prompt the log is the one before, prepared and extended by the rounds of that turn; it always starts with the system prompt, is well paired and a user message opens it |
| `Flags.ParseFlags` | crates/agent-browser/src/flags.rs:522-831 | the main scan makes exactly the settings of the reference reading, in order |
| `Flags.WishesRoundTrip` | crates/agent-browser/src/flags.rs:192-918 | for every list of switches turned on or off, values given, configs, doctor flags and plain words, written as arguments, the main scan reads exactly what they set, in order, and the third scan leaves exactly the words |
| `Flags.StrideKeepsMeaning` | crates/agent-browser/src/flags.rs:522-831 | where the main scan strides differently from the reference it passes only inert true/false words |
| `Flags.ExtractConfigPath` | crates/agent-browser/src/flags.rs:212-255 | the early scan finds the first --config that the reference reads as a flag, and the path it returns is the argument the reference gives to it; none exactly when there is none |
| `Flags.CleanArgs` | crates/agent-browser/src/flags.rs:833-918 | the third scan keeps exactly the arguments the reference reads as neither flag nor value |
| `Flags.CleaningIsFinal` | crates/agent-browser/src/flags.rs:833-918 | the cleaned list is an order-preserving subsequence without global flags, holds no setting, and cleaning it again changes nothing |
| `Flags.EarlyTableAgrees` | crates/agent-browser/src/flags.rs:213-243 | the early scan's table lists exactly the flags that take a value in the main scan |
| `Flags.ValueTableAgrees` | crates/agent-browser/src/flags.rs:859-890 | the third scan's value table is the main scan's value flags and --config |
| `Flags.BoolTableAgrees` | crates/agent-browser/src/flags.rs:838-857 | the third scan's boolean table is the main scan's switches and the three doctor flags |
| `ShellWords.SplitUndoesQuoting` | crates/agent-browser/src/commands.rs:2645-2674 | any list of non-empty words, each written as any mixture of bare, escaped, single-quoted and double-quoted stretches, with any number of spaces between, before and after, splits back to that list |
| `ShellWords.DanglingIsDropped` | crates/agent-browser/src/commands.rs:2652-2656 | a backslash with nothing behind it is dropped |
| `ShellWords.OpenQuoteEnds` | crates/agent-browser/src/commands.rs:2657-2673 | a quote that is never closed still ends its word |
| `ShellWords.SplitConcatenates` | crates/agent-browser/src/commands.rs:2645-2674 | when a ends outside quotes and not on a dangling backslash, splitting a + " " + b is the concatenation of the splits |
| `ShellWords.SplitHasNoEmptyWord` | crates/agent-browser/src/commands.rs:2645-2674 | no produced word is empty |
| `ShellWords.ShellWordsSplit` | crates/agent-browser/src/commands.rs:2645-2674 | the loop with its two quote flags computes the split those lemmas are about |
| `CurlCookies.CurlRoundTrip` | crates/agent-browser/src/commands.rs:129-221 | cookies in the form of section 4.2.1 of RFC 6265 without the enclosing quote, sent in the first quoted -H cookie argument (any case of the name, any white space around the flag), after any text without a quoted -H and any other quoted headers with such text between them, are extracted and parse back to the same list, also across line continuations |
| `CurlCookies.FileRoundTrip` | crates/agent-browser/src/commands.rs:84-127 | the same for the whole cookies file: a text that starts like a cURL command yields exactly those cookies |
| `CurlCookies.OneLineRoundTrip` | crates/agent-browser/src/commands.rs:84-127 | in particular for every one-line command that begins with curl and ends with the cookie header |
| `CurlCookies.SmallestCommand` | crates/agent-browser/src/commands.rs:84-127 | curl 'u' -H 'cookie: a=b' yields the cookie a=b |
| `CurlCookies.BareHeaderReadsBackIff` | crates/agent-browser/src/commands.rs:84-127 | a file that holds just a cookie-string reads back if and only if its first name does not start with curl and a single quote; otherwise it is refused |
| `CurlCookies.FallbackFlags` | crates/agent-browser/src/commands.rs:129-146 | in a command whose quoted headers are all others, the first -b, if quoted, is the header, without -b the first --cookie, without both there is none |
| `CurlCookies.HeaderIsFound` | crates/agent-browser/src/commands.rs:151-204 | after any text without a quoted -H and other quoted headers, with any white space around the flag, the first cookie header is found, whatever follows it |
| `CurlCookies.NoCookieHeader` | crates/agent-browser/src/commands.rs:151-204 | in a command whose quoted headers are all others the -H scan finds nothing |
| `CurlCookies.RefusedHeader` | crates/agent-browser/src/commands.rs:84-127 | a one-cookie file that is refused as a cURL command without cookies |
| `CurlCookies.MatchQuotedArg` | crates/agent-browser/src/commands.rs:151-204 | the scanner ends, its index growing in every iteration, with the first quoted argument of the flag that carries the expected header |
| `CurlCookies.ParseCurlCookies` | crates/agent-browser/src/commands.rs:84-127 | the file's text, array form or header, through the functions those lemmas are about, with the error for an empty file and for a command without cookies |
| `CurlCookies.ContinuationsAreSpaces` | crates/agent-browser/src/commands.rs:129-136 | a command laid out on lines that end in continuations of the shell or of cmd is scanned as one line with a space for each |
| `CurlCookies.UnclosedQuoteEnds` | crates/agent-browser/src/commands.rs:181-189 | a quote that is never closed ends the search without a result |
| `CurlCookies.CookieInAnyCase` | crates/agent-browser/src/commands.rs:191-197 | the header's name is found in lower, mixed and upper case |
| `CurlCookies.LooksLikeCurlSpelled` | crates/agent-browser/src/commands.rs:109-116 | the test for a command, letter by letter |
| `CurlCookies.JoinedOneLine` | crates/agent-browser/src/commands.rs:129-136 | replacing line continuations leaves a command on one line as it is |
| `Cookies.CookieStringPieces` | crates/agent-browser/src/commands.rs:206-221 | every non-empty list of cookie pairs, joined as a cookie-string, reads back as that list |
| `Cookies.HeaderReadsBack` | crates/agent-browser/src/commands.rs:206-221 | every header, with any white space around names and values and any junk between semicolons, reads back as exactly its pairs in order |
| `Cookies.ParseCookieHeader` | crates/agent-browser/src/commands.rs:206-221 | the loop collects the cookies of the pieces in order and fails exactly when there is none |
| `DaemonInventory.DaemonDir.WalkDaemons` | crates/agent-browser/src/connection.rs:242-330 | in any order of directory entries the walk leaves exactly the directory AfterWalk and reports each ordinary session once, live or cleaned with the right reason, and nothing else but the dashboard; a missing directory gives an empty inventory and no change |
| `DaemonInventory.DaemonDir.CleanupStaleFiles` | crates/agent-browser/src/connection.rs:131-150 | removes the four sidecar files of the session and no other file |
| `DaemonInventory.WalkSettles` | crates/agent-browser/src/connection.rs:242-330 | after a walk every named pid file but the dashboard's belongs to a live process and every socket has its pid file; a second walk changes nothing |
| `DaemonInventory.WalkOfSession` | crates/agent-browser/src/connection.rs:242-330 | of an ordinary session a walk removes all four files or none: none exactly when the process lives or neither pid nor socket file is there |
| `DaemonInventory.WalkOfDashboard` | crates/agent-browser/src/connection.rs:242-330 | of the dashboard it removes the pid file of a dead process, and everything when a socket is left without one |
| `DaemonInventory.WalkKeepsOthers` | crates/agent-browser/src/connection.rs:242-330 | every other file stays as it is and none is added |
| `DaemonInventory.SessionIsReported` | crates/agent-browser/src/connection.rs:268-328 | live with its pid and version, or cleaned for exactly the reason that applies |
| `DaemonInventory.DashboardIsReported` | crates/agent-browser/src/connection.rs:253-266 | the dashboard's pid and liveness when its pid file can be read |
| `DaemonInventory.LiveIsRead` | crates/agent-browser/src/connection.rs:274-297 | the pid is read without the white space around it |
| `DaemonInventory.NoPidIsRead` | crates/agent-browser/src/connection.rs:274-288 | without a readable pid file there is no pid and no live session |
| `DaemonInventory.VersionIsRead` | crates/agent-browser/src/connection.rs:222-229 | the version is the file's text without the white space around it, none when missing, unreadable or blank |
| `DaemonInventory.SettledReportsNothing` | crates/agent-browser/src/connection.rs:242-330 | a walk of a settled directory reports nothing as cleaned |
| `DaemonInventory.SidecarsAreOwned` | crates/agent-browser/src/connection.rs:117-150 | a session's sidecar files are exactly the files it owns, so cleaning one session never touches another's |
| `DaemonInventory.PassesCompose` | crates/agent-browser/src/connection.rs:242-330 | the two loops together leave what the declarative walk leaves |
| `Workspace.WorkspaceFingerprint` | crates/reshape-cli/src/rpc_server.rs:600-637 | the explicit-stack traversal ends on every tree, fails exactly when the root is no directory or some directory below it is unreadable, and otherwise returns exactly the regular files with their stamps |
| `Workspace.FingerprintIsUnique` | crates/reshape-cli/src/rpc_server.rs:600-637 | a tree has only one fingerprint |
| `Workspace.ChangedWorkspaceFiles` | crates/reshape-cli/src/rpc_server.rs:584-598 | exactly the files below the root that are new or restamped against the earlier snapshot, never deleted ones, each once, in path order; none when the root cannot be read in full |
| `Workspace.PathsInOrder` | crates/reshape-cli/src/rpc_server.rs:584-598 | paths are ordered by the first name that differs |
| `Workspace.ParentFirst` | crates/reshape-cli/src/rpc_server.rs:584-598 | a directory comes before what lies below it |
| `Workspace.NamesInOrder` | crates/reshape-cli/src/rpc_server.rs:584-598 | names by the first character that differs, a name before its extensions |
| `Workspace.ChangesOfTurn` | crates/reshape-cli/src/rpc_server.rs:481-505 | around a turn, in path order: the files of the later tree that are not unchanged against a readable earlier tree; every file when the earlier tree is unreadable, none when the later one is |
| `Workspace.ReportIsExactIff` | crates/reshape-cli/src/rpc_server.rs:481-505 | those are exactly the new or restamped files if and only if the later tree is readable and so is the earlier one or no file is unchanged, or the later tree is unreadable and no file changed |
| `Workspace.UnchangedFileIsReported` | crates/reshape-cli/src/rpc_server.rs:481-505 | two trees between which an unchanged file is reported |
| `TextLimits.OutputLimit` | crates/agent-browser/src/output.rs:36-59 | for every text: within the character limit unchanged, over it exactly the first characters and the notice; unchanged if and only if within the limit or the rest is the notice itself |
| `TextLimits.NoticeSays` | crates/agent-browser/src/output.rs:48-55 | the notice names first the number of characters shown and then the number there were, in decimal |
| `TextLimits.CharLimit` | crates/agent-browser/src/output.rs:36-59 | the byte-length fast path and the character search agree with the character count |
| `TextLimits.OverTheLimitUnchanged` | crates/agent-browser/src/output.rs:36-59 | a text over the limit that comes through unchanged |
| `TextLimits.DescriptionIsCutCleanly` | crates/agent-browser/src/skills.rs:165-177 | a description over the byte limit is cut at the last space of the one longest prefix of whole characters that fits, or at that prefix's end |
| `TextLimits.CutStartupError` | crates/agent-browser/src/connection.rs:723-732 | the message is the one longest prefix of whole characters within 500 bytes |
| `Utf8.BoundaryIff` | crates/agent-browser/src/connection.rs:724-729 | a byte index is a character boundary if and only if some number of whole characters ends there |
| `Utf8.EncodeIsInjective` | crates/agent-browser/src/output.rs:36-59 | different texts have different bytes |
| `PortHash.GetPortForSession` | crates/agent-browser/src/connection.rs:338-346 | the wrapping shift-and-subtract loop gives the base-31 polynomial of the characters reduced to 32 bits, and the port, for every hash down to the most negative, is in 49152-65534 |
| `PortHash.PolynomialSnoc` | crates/agent-browser/src/connection.rs:338-342 | one more character multiplies the polynomial by 31 and adds the character |

## Left out

- JSON text, WebSocket framing and TCP: frames are decoded values, channels are sequences; numbers that are not integers, serde's array form of structs and serde's own error texts are not modelled.
- The agent runtime: an arbitrary finite sequence of progress events and an outcome. Output variants are reduced to their text, and changed files and preview rendering do not appear in the reply.
- Serialization of a response is taken to succeed, and an output's metadata is reduced to its list of tool events.
- A history or reset result without `messages`, a progress notification without a proper event, and an `onProgress` callback that throws: the server sends none of the first two.
- `normalizeRpcAddress`, `isConnectedToEditedAddress`, storage, the React popup and theme handling: user interface.
- Bytes of one character split across network chunks, and the JSON decoding of a data line: the stream parser works on decoded text and takes the decoder as a parameter.
- The gateway, tool execution, the summarizer and the size estimate of the chat loop: parameters of the model. Printing and the JSON event output of the loop are not modelled.
- `native/stream/chat.rs` other than `find_safe_split`: the dashboard's own chat endpoint.
- The values of parsed flags: the model says which flag is given which argument, in order; number parsing, list splitting and environment defaults are easy field-by-field facts. The arguments are a datatype with one constructor per spelling.
- `DaemonInventory.DaemonDir.WalkDaemons`: process liveness and pid parsing are fixed during a walk and removals succeed; the Windows `.port` file is not modelled.
- `Workspace.WorkspaceFingerprint`: a failing metadata call counts as an unreadable directory, file names are text, and path order compares characters.
- `CurlCookies.MatchQuotedArg`: the header name is compared with ASCII lower case; Unicode letters whose lower case is ASCII are not modelled, and quoted values are text rather than possibly invalid UTF-8.
- `CurlCookies.ParseCurlCookies`: the array form of the file is a parameter, since it is JSON text.
- The `parse_command` match, help texts and response printing: many shallow branches.
- Static file serving, browser preview refresh, installation, upgrade, doctor, daemon spawning, encryption and image comparison: file, network and library behaviour.
