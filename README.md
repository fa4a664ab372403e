# librtc in Dafny

librtc is a C++ wrapper around the native WebRTC library. It exposes a peer connection and data
channels with a small interface built from three parts:
- its own result container, `Result<T, E>` (with `Expected<T> = Result<T, std::error_code>`);
- a subscription registry, `EventSource`, that emits to handlers whose owners are still alive;
- two error enumerations with `std::error_category` tables.

This project models that value and bookkeeping layer and the decision logic of the wrapper
classes, and proves properties of the model.

The modules follow the library's files:

| module | file | form |
|---|---|---|
| `Expected` | `include/librtc/utils/expected.hpp` | datatypes and functions |
| `Events` | `include/librtc/utils/event.hpp` | class `EventSource` with a `seq` of subscriptions, in-place sweep loop |
| `PeerConnectionErrors`, `DataChannelErrors` | `include/librtc/errors/*.hpp` | datatypes and functions |
| `ErrorCodes`, `SystemError` | `std::error_code` as the library uses it | datatypes and functions |
| `LibrtcTypes` | `include/librtc/peer_connection.hpp`, `include/librtc/data_channel.hpp` | value types |
| `WebRtc` | the native library, as the wrapper sees it | mirror enums, abstract native objects |
| `SessionDescriptionProxies` | `src/impl/proxy/session_description_proxies.hpp` | functions |
| `DataChannels` | `src/impl/data_channel_impl.cpp` | class `DataChannelImpl` |
| `PeerConnections` | `src/impl/peer_connection_impl.cpp` | class `PeerConnectionImpl` |
| `ObserverProxies` | `src/impl/proxy/peer_connection_observer_proxy.hpp` | functions and class `PeerConnectionObserverProxy` |

Modelling choices:
- **Error codes.** A `std::error_code` is an integer paired with a category. Only the library's
  two categories occur here, so the category is a tag and `message()` dispatches on it.
- **The converting constructors** of `Result` and `ErrorValue` take the mapping to apply
  (`make_error_code`) as a parameter `mk`.
- **Emission.** Trackers (the `weak_ptr`s) and user handlers are numbers. An `Interleaving`
  fixes, for one emission, three things: which trackers are alive at the sweep, which are alive
  when the k-th snapshot handler runs, and what the k-th handler subscribes while it runs.
  `Emit` is proved against the reference predicate `Emitted`. Under a single liveness view it
  equals the plain "notify every live subscriber in order" function `Notify`.
- **Forwarded arguments.** `emit` passes its arguments with `std::forward` to every snapshot
  handler in turn. The first handler's `std::function` parameter is built by moving the
  argument, so each later handler gets what the move left behind. `Emit` takes that
  moved-from value as a parameter `moved`. For the enumerations, spans, booleans and
  `const IceCandidate&` that most events carry, it is the argument itself, and those events
  use `EmitCopying`. For the `std::shared_ptr<DataChannel>` of the data-channel event it is
  null (see "## Findings").
- **Native enumerations** take one constructor per enumerator. One more constructor stands for
  an integer outside the enumeration, because the library's switches provide fallbacks for
  that case.
- **Native objects** record what the wrapper asks of them. The outcomes of their operations are
  part of their state, chosen by the environment:
  - whether `Send` takes a buffer;
  - whether `AddIceCandidate` succeeds;
  - whether `CreateDataChannelOrError` succeeds.
- **Native parsers are oracles.** `CreateSessionDescription` and `CreateIceCandidate` are the
  `Parser` parameter. `SdpTypeToString`/`SdpTypeFromString` are written out with the type names
  of the RTCSdpType enumeration of the W3C WebRTC specification ("offer", "pranswer", "answer",
  "rollback").
- **Weak locks.** Whether the weak reference to a peer connection can still be locked is the
  `locked` parameter of each observer callback.
- **Asynchronous completions.** For `set_local_description` and `set_remote_description`, the
  native error the observer later receives is the `completion` parameter.
- **Text as bytes.** The text overload of `send` takes the text as bytes, which is what its
  `reinterpret_cast` hands on.

## Model

| member | source | states |
|---|---|---|
| Expected.HasErrorIsNotHasValue | include/librtc/utils/expected.hpp:63-69 | `has_error` is the negation of `has_value` for the void and the non-void Result; `has_value` holds exactly for a success |
| Expected.ValueOrReturnsPayloadOrDefault | include/librtc/utils/expected.hpp:164-170 | `value_or(d)` is the payload on success and `d` on error |
| Expected.ValueOrIgnoresError | include/librtc/utils/expected.hpp:164-170 | `value_or` never looks at the error: any two failures give `d` |
| Expected.AndThenOnErrorSkipsContinuation | include/librtc/utils/expected.hpp:172-178 | on an error `and_then` returns the same error, whatever the continuation |
| Expected.AndThenOnSuccessCallsContinuation | include/librtc/utils/expected.hpp:172-178 | on a success `and_then(f)` is `f(value)` |
| Expected.AndThenRightIdentity | include/librtc/utils/expected.hpp:172-178 | `and_then` with the success constructor changes nothing |
| Expected.AndThenAssociative | include/librtc/utils/expected.hpp:172-178 | chained `and_then` calls regroup freely |
| Expected.ChainShortCircuits | include/librtc/utils/expected.hpp:172-178 | any chain of `and_then` started on an error returns that error unchanged |
| Expected.ChainStopsAtFirstFailure | include/librtc/utils/expected.hpp:172-178 | a chain ends with the error of its first failing step |
| Expected.OrElseOnSuccessSkipsRecovery | include/librtc/utils/expected.hpp:180-186 | on a success `or_else` returns the same success, whatever the recovery |
| Expected.OrElseOnErrorCallsRecovery | include/librtc/utils/expected.hpp:180-186 | on an error `or_else(f)` is `f(error)` |
| Expected.RecoverOnSuccessIsIdentity | include/librtc/utils/expected.hpp:180-186 | any chain of `or_else` started on a success returns it unchanged |
| Expected.TransformMapsPayloadKeepsError | include/librtc/utils/expected.hpp:188-194 | `transform(f)` maps a payload to `f(payload)`, passes an error through, and keeps the success/error case |
| Expected.TransformIsAndThenWithOk | include/librtc/utils/expected.hpp:188-194 | `transform(f)` equals `and_then` with `f` followed by the success constructor |
| Expected.TransformComposes | include/librtc/utils/expected.hpp:188-194 | two transforms equal one transform by the composed function |
| Expected.ConvertKeepsPayloadMapsError | include/librtc/utils/expected.hpp:117-126 | the converting constructor keeps the case and the payload, and maps the error with `make_error_code` |
| Expected.ConvertVoidKeepsSuccessMapsError | include/librtc/utils/expected.hpp:48-57 | the void converting constructor keeps success and maps the error |
| Expected.ConvertInjective | include/librtc/utils/expected.hpp:117-126 | converting by an injective mapping keeps distinct Results distinct |
| Expected.ConvertComposes | include/librtc/utils/expected.hpp:117-126 | two conversions equal one by the composed mapping |
| Expected.ConvertCommutesWithTransform | include/librtc/utils/expected.hpp:117-126 | conversion and `transform` commute |
| Expected.ErrorValueConvertingConstructor | include/librtc/utils/expected.hpp:23-26 | the converting `ErrorValue` holds `make_error_code(e)`; building a Result from it equals the Result converting constructors applied to `Err(e)` |
| Expected.AndThenConvertingIsConvertThenAndThen | include/librtc/utils/expected.hpp:172-178 | an `and_then` whose continuation returns another error type equals converting the receiver's error with `make_error_code` and then the plain `and_then`, for the void and the non-void Result; with the identity mapping it is the plain `and_then` |
| Expected.DefaultVoidIsSuccess | include/librtc/utils/expected.hpp:200-210 | a default-constructed void Result is a success, and `Success()` converts to it |
| Expected.VoidAndThenCallsOnlyOnSuccess | include/librtc/utils/expected.hpp:83-89 | void `and_then(f)` is `f()` on success; on an error it keeps the error whatever `f` is |
| Expected.VoidAndThenValueCallsOnlyOnSuccess | include/librtc/utils/expected.hpp:83-89 | the same when `f` returns a non-void Result |
| Expected.VoidOrElseOnSuccessSkipsRecovery | include/librtc/utils/expected.hpp:91-97 | void `or_else` returns success on success and `f(error)` on error |
| Expected.ErrBuildsExactError | include/librtc/utils/expected.hpp:217-220 | a Result built from `Err(e)` is an error holding exactly `e` |
| Expected.SuccessWithHoldsValue | include/librtc/utils/expected.hpp:212-215 | `Success(v)` is a success holding `v` |
| Events.EventSource.constructor | include/librtc/utils/event.hpp:100 | a new source has no subscriptions |
| Events.EventSource.SubscribeInternal | include/librtc/utils/event.hpp:93-96 | appends `(tracker, handler)` at the end and leaves the earlier entries unchanged |
| Events.EventSource.Connect | include/librtc/utils/event.hpp:37-44 | appends a subscription whose tracker is the context and whose handler is the context-guarded user handler; keeps every entry so made |
| Events.EventSource.Subscribe | include/librtc/utils/event.hpp:49-52 | `operator()` has exactly the effect of `connect` |
| Events.EventSource.Sweep | include/librtc/utils/event.hpp:76-85 | the in-place erase loop leaves exactly the unexpired subscriptions in their order, and returns their handlers in that order |
| Events.EventSource.Emit | include/librtc/utils/event.hpp:73-90 | the new list is the swept list followed by what the running handlers subscribed; the calls are exactly the snapshot handlers whose context is still live at their turn, in order; the first snapshot handler takes the argument, and every later one gets the moved-from value |
| Events.EventSource.EmitCopying | include/librtc/utils/event.hpp:87-89 | the emission with `handler(args...)` in place of the forwarding call: the same calls, with every call carrying the emitted argument |
| Events.LiveIsTheUnexpired | include/librtc/utils/event.hpp:77-84 | a subscription survives the sweep if and only if it was in the list and its tracker is alive |
| Events.LiveDistributes | include/librtc/utils/event.hpp:77-84 | the sweep keeps relative order: sweeping a concatenation is concatenating the sweeps |
| Events.LiveKeepsAllWhenNoneExpired | include/librtc/utils/event.hpp:77-84 | with no expired tracker the sweep erases nothing |
| Events.SweepIsIdempotent | include/librtc/utils/event.hpp:76-85 | a second sweep with the same liveness erases nothing more |
| Events.TargetsAreTheHandlers | include/librtc/utils/event.hpp:81 | the snapshot holds the kept subscriptions' handlers, one per subscription, in order |
| Events.DispatchCallsOnlyLiveHandlers | include/librtc/utils/event.hpp:87-89 | every call comes from a snapshot position whose handler's context was live at that position's turn, and carries that position's argument (the emitted one at position 0, the moved-from one after) |
| Events.DispatchCallsEveryLiveHandlerInOrder | include/librtc/utils/event.hpp:87-89 | when every context is live, each snapshot handler is called once, in order, with its position's argument |
| Events.DispatchCallsEachLiveHandlerOnceInOrder | include/librtc/utils/event.hpp:87-89 | under any liveness: the calling positions are exactly those whose context is live at their turn, each appears once, in strictly increasing order, and the j-th call is the j-th calling position's handler with that position's argument |
| Events.JoinedHoldsWhatRunningHandlersSubscribed | include/librtc/utils/event.hpp:87-96 | a subscription made by a handler that ran is in the list after the emission |
| Events.EmitCallsOnlySweptLiveHandlers | include/librtc/utils/event.hpp:73-90 | every call of an emission belongs to a registered subscription whose tracker was live at the sweep. It comes from the swept position k holding its handler, whose context was live at k's own turn, and carries k's argument, so an expired tracker is never called |
| Events.EmitKeepsSubscriptionsMadeDuringIt | include/librtc/utils/event.hpp:87-96 | a subscription made by a running handler is in the list afterwards, behind the swept list |
| Events.EmitSnapshotExcludesNewSubscriptions | include/librtc/utils/event.hpp:73-90 | two emissions from the same list that see the same liveness make the same calls whatever their handlers subscribe meanwhile, so a subscription added during an emission gets no call from it |
| Events.EmitHandsLaterCallsTheMovedArgument | include/librtc/utils/event.hpp:87-89 | as written, every call after the first carries the moved-from value |
| Events.EmitWithExpiredFirstHandlerLosesTheArgument | include/librtc/utils/event.hpp:87-89 | as written, when the first snapshot handler's context has expired by its turn, no call receives the argument |
| Events.CopyingCallsCarryTheArgument | include/librtc/utils/event.hpp:87-89 | with a copying dispatch every call carries the emitted argument |
| Events.DispatchOfSweptIsNotify | include/librtc/utils/event.hpp:73-90 | for subscriptions made by `connect` under one liveness view, the calls of a copying dispatch are the reference notification |
| Events.EmitNotifiesEveryLiveSubscriber | include/librtc/utils/event.hpp:73-90 | when nothing expires during the call loop, a copying emission calls every live subscriber once, in subscription order, with the argument, and no other |
| Events.EmitOnEmptyRegistry | include/librtc/utils/event.hpp:73-90 | emitting on an empty list calls nothing and leaves the list empty |
| PeerConnectionErrors.ValuesFollowDeclarationOrder | include/librtc/errors/peer_connection_error.hpp:9-24 | `Success` is 0 and the 14 enumerators take 0 to 13 in declaration order |
| PeerConnectionErrors.EveryEnumeratorIsDeclared | include/librtc/errors/peer_connection_error.hpp:9-24 | the enumeration list is complete |
| PeerConnectionErrors.IntConversionRoundTrip | include/librtc/errors/peer_connection_error.hpp:9-24 | the integer of an enumerator converts back to it; exactly 0 to 13 name an enumerator |
| PeerConnectionErrors.MessagesDistinct | include/librtc/errors/peer_connection_error.hpp:30-60 | each enumerator has its own text, different from every other one and from "Unknown error" |
| PeerConnectionErrors.MessageUnknownExactlyOutOfRange | include/librtc/errors/peer_connection_error.hpp:61 | `message(ev)` is "Unknown error" if and only if `ev` is outside 0 to 13 |
| PeerConnectionErrors.MakeErrorCodeKeepsValue | include/librtc/errors/peer_connection_error.hpp:70-72 | `make_error_code(e)` carries the integer of `e` and the peer-connection category, so it is injective |
| DataChannelErrors.ValuesFollowDeclarationOrder | include/librtc/errors/data_channel_error.hpp:9-16 | Success=0, NotOpen=1, BufferFull=2, InvalidArgument=3, InvalidData=4, Closed=5 |
| DataChannelErrors.EveryEnumeratorIsDeclared | include/librtc/errors/data_channel_error.hpp:9-16 | the enumeration list is complete |
| DataChannelErrors.IntConversionRoundTrip | include/librtc/errors/data_channel_error.hpp:9-16 | the integer of an enumerator converts back to it; exactly 0 to 5 name an enumerator |
| DataChannelErrors.MessagesDistinct | include/librtc/errors/data_channel_error.hpp:22-36 | each of the six enumerators has its own text, different from "Unknown error" |
| DataChannelErrors.MessageUnknownExactlyOutOfRange | include/librtc/errors/data_channel_error.hpp:38 | `message(ev)` is "Unknown error" if and only if `ev` is outside 0 to 5 |
| DataChannelErrors.MakeErrorCodeKeepsValue | include/librtc/errors/data_channel_error.hpp:47-49 | `make_error_code(e)` carries the integer of `e` and the data-channel category, so it is injective |
| ErrorCodes.CategoryNamesDiffer | include/librtc/errors/peer_connection_error.hpp:27-29 | the category names are "librtc_peer_connection" and "librtc_datachannel", and they differ |
| ErrorCodes.MadeCodesDescribeTheirEnumerator | include/librtc/errors/peer_connection_error.hpp:70-72 | the message of a made error code is its enumerator's text in both domains, and codes of the two domains never coincide |
| SessionDescriptionProxies.ConvertRtcError | src/impl/proxy/session_description_proxies.hpp:18-47 | the translation yields `Success` if and only if the native error is `NONE` |
| SessionDescriptionProxies.ConvertRtcErrorRenames | src/impl/proxy/session_description_proxies.hpp:26-43 | `INVALID_PARAMETER` gives `InvalidArgument` and `OPERATION_ERROR_WITH_DATA` gives `OperationError` |
| SessionDescriptionProxies.ConvertRtcErrorNamesakes | src/impl/proxy/session_description_proxies.hpp:22-41 | every other listed type gives the enumerator of the same name |
| SessionDescriptionProxies.ConvertRtcErrorInternalExactlyForFallback | src/impl/proxy/session_description_proxies.hpp:40-45 | the result is `InternalError` exactly for `INTERNAL_ERROR` and for unlisted types |
| SessionDescriptionProxies.ConvertRtcErrorInjectiveOnListedTypes | src/impl/proxy/session_description_proxies.hpp:18-43 | distinct listed types give distinct errors |
| SessionDescriptionProxies.ConvertRtcErrorIgnoresMessage | src/impl/proxy/session_description_proxies.hpp:19 | only the error's type is looked at |
| SessionDescriptionProxies.ConvertRtcErrorRange | src/impl/proxy/session_description_proxies.hpp:18-47 | an enumerator can be produced if and only if it is neither `InvalidSdp` nor `OperationCanceled` |
| SessionDescriptionProxies.CreateOnSuccess | src/impl/proxy/session_description_proxies.hpp:62-66 | `OnSuccess` passes a success carrying the SDP text and a type name that parses back to the native type |
| SessionDescriptionProxies.CreateOnFailure | src/impl/proxy/session_description_proxies.hpp:68-70 | `OnFailure` passes an error holding the translated type |
| SessionDescriptionProxies.CompletionResult | src/impl/proxy/session_description_proxies.hpp:90-122 | both completion handlers pass success exactly when the native error is ok; otherwise they pass the translated error, which is never `Success` |
| SessionDescriptionProxies.CompletionNeverReportsInvalidSdp | src/impl/proxy/session_description_proxies.hpp:90-122 | a completion never reports `InvalidSdp` |
| DataChannels.ConvertState | src/impl/data_channel_impl.cpp:126-140 | the result is `Open` if and only if the native state is `kOpen` |
| DataChannels.ConvertStateNamesakes | src/impl/data_channel_impl.cpp:128-137 | Connecting, Open, Closing and Closed map to their namesakes |
| DataChannels.ConvertStateFallback | src/impl/data_channel_impl.cpp:139 | any other value maps to `Closed` |
| DataChannels.ConvertStateInjectiveOnEnumerators | src/impl/data_channel_impl.cpp:128-137 | on the four enumerators the map is one-to-one |
| DataChannels.SendOutcome | src/impl/data_channel_impl.cpp:63-81 | `send` succeeds if and only if there is a native channel, it is `kOpen` and it takes the buffer; every failure is a data-channel code |
| DataChannels.SendWithoutNativeIsClosed | src/impl/data_channel_impl.cpp:64-66 | without a native channel the result is `Closed`, before any state check |
| DataChannels.SendNotOpenIgnoresQueue | src/impl/data_channel_impl.cpp:68-70 | a channel not in `kOpen` gives `NotOpen` whatever its queue would do |
| DataChannels.SendWhenOpen | src/impl/data_channel_impl.cpp:76-80 | an open channel gives success when the native `Send` takes the buffer, `BufferFull` otherwise |
| DataChannels.SendErrorMessages | src/impl/data_channel_impl.cpp:63-81 | the three failures carry the texts "Data channel is closed", "Data channel is not open" and "Send buffer is full" |
| DataChannels.SendStateCheckMatchesConvertedState | src/impl/data_channel_impl.cpp:68-70 | the state check passes exactly when the translated native state is `Open` |
| DataChannels.DataChannelImpl.Create | src/impl/data_channel_impl.cpp:13-43 | creation stores native and context. With a native channel it registers the observer and caches the translated native state; otherwise the cached state stays `Closed` |
| DataChannels.DataChannelImpl.Send | src/impl/data_channel_impl.cpp:63-81 | the result is `SendOutcome` of the native state and queue; the native `Send` gets the buffer only on an open channel, and nothing else changes |
| DataChannels.DataChannelImpl.SendText | src/impl/data_channel_impl.cpp:83-85 | the text overload sends the same bytes with `is_binary = false` |
| DataChannels.DataChannelImpl.SendBinary | src/impl/data_channel_impl.cpp:87-89 | the byte-vector overload sends the same bytes with `is_binary = true` |
| DataChannels.DataChannelImpl.Close | src/impl/data_channel_impl.cpp:91-95 | asks the native channel to close and keeps it, so label and id are unchanged |
| DataChannels.DataChannelImpl.Destroy | src/impl/data_channel_impl.cpp:25-31 | the destructor closes the native channel, unregisters the observer and drops the channel; afterwards the getters give "", -1 and 0 |
| DataChannels.DataChannelImpl.Label | src/impl/data_channel_impl.cpp:97-103 | the native label, or "" without a native channel |
| DataChannels.DataChannelImpl.Id | src/impl/data_channel_impl.cpp:105-111 | the native id, or -1 without a native channel |
| DataChannels.DataChannelImpl.BufferedAmount | src/impl/data_channel_impl.cpp:113-119 | the native amount, or 0 without a native channel |
| DataChannels.DataChannelImpl.HandleStateChange | src/impl/data_channel_impl.cpp:45-54 | caches the translated native state, and `state()` then returns it; emits that same value |
| DataChannels.DataChannelImpl.HandleMessage | src/impl/data_channel_impl.cpp:56-61 | emits the buffer's bytes and binary flag |
| PeerConnections.ParseDescription | src/impl/peer_connection_impl.cpp:71-80 | parsing fails when the type name does not parse; otherwise it is the body parse with that type |
| PeerConnections.CreatedDescriptionsParseBack | src/impl/peer_connection_impl.cpp:71-77 | a description produced by `OnSuccess` passes the type check and hands the parser its original type and text |
| PeerConnections.DescriptionOutcome | src/impl/peer_connection_impl.cpp:69-88 | the result of setting a description is success exactly when parsing succeeded and the completion is ok; every failure is a peer-connection code |
| PeerConnections.InvalidSdpExactlyOnParseFailure | src/impl/peer_connection_impl.cpp:71-80 | the result is `InvalidSdp` if and only if parsing failed |
| PeerConnections.AddCandidateOutcome | src/impl/peer_connection_impl.cpp:127-138 | `add_ice_candidate` succeeds exactly when the candidate parses and the native add succeeds |
| PeerConnections.AddCandidateErrorsInOrder | src/impl/peer_connection_impl.cpp:131-136 | a parse failure is `InvalidArgument` whatever the native add would do; a native failure is `InternalError`; the two codes differ |
| PeerConnections.TranslateConfig | src/impl/peer_connection_impl.cpp:142-154 | `ordered`, `protocol` and `negotiated` are always copied; `max_retransmits`, `max_retransmit_time_ms` and `id` are copied when present, and otherwise the native defaults stay |
| PeerConnections.TranslateConfigRoundTrip | src/impl/peer_connection_impl.cpp:142-154 | the configuration can be read back from the translation, except that an explicit id of -1 reads as "not set" |
| PeerConnections.DefaultConfigTranslatesToDefaultInit | src/impl/peer_connection_impl.cpp:142-154 | the default configuration translates to the default native one |
| PeerConnections.PeerConnectionImpl.constructor | src/impl/peer_connection_impl.hpp:90-92 | a new connection has no native object, the cached states Stable, New and New, and four empty event sources |
| PeerConnections.PeerConnectionImpl.SetPc | src/impl/peer_connection_impl.cpp:45-47 | stores the native connection and changes no cached state |
| PeerConnections.PeerConnectionImpl.HandleSignalingChange | src/impl/peer_connection_impl.cpp:187-193 | afterwards `signaling_state()` returns `s`, and `s` was emitted on the signaling event; nothing else changes |
| PeerConnections.PeerConnectionImpl.HandleIceConnectionChange | src/impl/peer_connection_impl.cpp:195-201 | afterwards `ice_connection_state()` returns `s`, and `s` was emitted on the ICE-connection event; nothing else changes |
| PeerConnections.PeerConnectionImpl.HandleIceGatheringChange | src/impl/peer_connection_impl.cpp:203-208 | updates the cached gathering state and leaves every event source unchanged |
| PeerConnections.PeerConnectionImpl.HandleIceCandidate | src/impl/peer_connection_impl.cpp:210-212 | emits the candidate on the candidate event |
| PeerConnections.PeerConnectionImpl.HandleDataChannel | src/impl/peer_connection_impl.cpp:214-216 | emits the channel on the data-channel event, whose `std::shared_ptr` argument is moved into the first snapshot handler, leaving null for every later one |
| PeerConnections.DataChannelEventStarvesSecondSubscriber | src/impl/peer_connection_impl.cpp:214-216 | with two subscribers alive throughout, the first receives the channel and the second receives null |
| PeerConnections.CopyingDataChannelEventReachesBothSubscribers | include/librtc/utils/event.hpp:87-89 | with the copying emission both subscribers receive the channel |
| PeerConnections.PeerConnectionImpl.Close | src/impl/peer_connection_impl.cpp:180-185 | closes the native connection once and drops it (`pc_` becomes null); a second call changes nothing |
| PeerConnections.PeerConnectionImpl.AddIceCandidate | src/impl/peer_connection_impl.cpp:127-138 | the result is `AddCandidateOutcome`; the native connection is handed the candidate only when it parsed |
| PeerConnections.PeerConnectionImpl.SetLocalDescription | src/impl/peer_connection_impl.cpp:69-88 | the result is `DescriptionOutcome`; the native operation is started, with the parsed description, only when parsing succeeded |
| PeerConnections.PeerConnectionImpl.SetRemoteDescription | src/impl/peer_connection_impl.cpp:90-109 | the same on the remote side |
| PeerConnections.PeerConnectionImpl.CreateDataChannel | src/impl/peer_connection_impl.cpp:140-163 | asks the native connection for the label and translated configuration; a refusal is `InternalError`; otherwise a new wrapper over a new native channel with this connection as context, observer registered. Its label is the requested one, its id is the native channel's id, and its cached state is the translated native state |
| ObserverProxies.ConvertSignalingState | src/impl/proxy/peer_connection_observer_proxy.hpp:57-74 | the result is `Closed` if and only if the native state is `kClosed` |
| ObserverProxies.ConvertSignalingStateNamesakes | src/impl/proxy/peer_connection_observer_proxy.hpp:57-72 | the six native states map to their namesakes |
| ObserverProxies.ConvertSignalingStateFallback | src/impl/proxy/peer_connection_observer_proxy.hpp:73 | a value outside the enumeration maps to `Stable` |
| ObserverProxies.ConvertSignalingStateInjective | src/impl/proxy/peer_connection_observer_proxy.hpp:57-72 | on the six enumerators the map is injective |
| ObserverProxies.ConvertSignalingStateOnto | src/impl/proxy/peer_connection_observer_proxy.hpp:57-72 | every library signaling state comes from some native enumerator |
| ObserverProxies.ConvertIceConnectionStateNamesakes | src/impl/proxy/peer_connection_observer_proxy.hpp:76-96 | the seven listed native states map to their namesakes |
| ObserverProxies.ConvertIceConnectionStateNewExactlyForFallback | src/impl/proxy/peer_connection_observer_proxy.hpp:76-96 | the result is `New` exactly for `kIceConnectionNew`, `kIceConnectionMax` and values outside the enumeration |
| ObserverProxies.ConvertIceConnectionStateInjective | src/impl/proxy/peer_connection_observer_proxy.hpp:76-96 | on the seven listed states the map is injective |
| ObserverProxies.ConvertIceGatheringStateNamesakes | src/impl/proxy/peer_connection_observer_proxy.hpp:98-109 | New, Gathering and Complete map to their namesakes |
| ObserverProxies.ConvertIceGatheringStateNewExactlyForFallback | src/impl/proxy/peer_connection_observer_proxy.hpp:98-109 | the result is `New` exactly for `kIceGatheringNew` and values outside the enumeration |
| ObserverProxies.ForwardedCandidateParsesBack | src/impl/proxy/peer_connection_observer_proxy.hpp:35-43 | the forwarded candidate copies the native text, `sdp_mid` and `sdp_mline_index` into their places, so `add_ice_candidate` would hand the parser those same fields |
| ObserverProxies.PeerConnectionObserverProxy.constructor | src/impl/proxy/peer_connection_observer_proxy.hpp:13-14 | the proxy holds the given connection |
| ObserverProxies.PeerConnectionObserverProxy.OnSignalingChange | src/impl/proxy/peer_connection_observer_proxy.hpp:16-20 | when the lock succeeds, caches and emits the translated state; otherwise changes nothing and calls nothing |
| ObserverProxies.PeerConnectionObserverProxy.OnIceConnectionChange | src/impl/proxy/peer_connection_observer_proxy.hpp:22-27 | when the lock succeeds, caches and emits the translated state; otherwise changes nothing and calls nothing |
| ObserverProxies.PeerConnectionObserverProxy.OnIceGatheringChange | src/impl/proxy/peer_connection_observer_proxy.hpp:29-33 | when the lock succeeds, caches the translated state; otherwise changes nothing |
| ObserverProxies.PeerConnectionObserverProxy.OnIceCandidate | src/impl/proxy/peer_connection_observer_proxy.hpp:35-43 | when the lock succeeds, emits the copied candidate; otherwise changes nothing and calls nothing |
| ObserverProxies.PeerConnectionObserverProxy.OnDataChannel | src/impl/proxy/peer_connection_observer_proxy.hpp:45-49 | when the lock succeeds, emits a new wrapper over the native channel with the connection as context (as written, only the first snapshot handler receives it, later ones null); otherwise creates and changes nothing |

## Left out

- `AsyncBridge` (include/librtc/utils/async_bridge.hpp) is not part of this model. Its behaviour is that of Boost.Asio's `async_initiate`, `get_associated_executor` and `post`. The completion handler runs on the explicit executor when one is given, otherwise on the handler's associated executor. The model passes the completion's value straight through.
- The `create_offer` and `create_answer` coroutines, and the coroutine framing of `set_local_description` and `set_remote_description`, are coroutine and Asio glue. Only the values their proxies deliver are modelled (`CreateOnSuccess`, `CreateOnFailure`, `CompletionResult`).
- `PeerConnectionImpl::Create` and `set_threads_and_factory` are left out: they only build threads and factories, initialise SSL once and wire codecs in the native library.
- `local_description` and `remote_description` are left out: they serialise through the native `ToString` and `SdpTypeToString`.
- Mutexes and `std::lock_guard` are left out. Each locked block is modelled as one atomic step, and emissions run sequentially.
- `weak_ptr`/`shared_ptr` lifetime is left out. Liveness is a set of trackers in an emission and the `locked` flag in the observer callbacks. Reference counts and destruction order are not modelled.
- User handlers run during an emission may only subscribe to the same event source. Other side effects of handler code are not modelled.
- `DataChannelObserverProxy` (src/impl/proxy/data_channel_observer_proxy.hpp) is not part of this model. It locks and forwards to `handle_state_change`, `handle_message` and the empty `handle_buffered_amount_change`, which are modelled directly.
- src/peer_connection.cpp, a thin forwarder, is not part of this model. Neither are the demo program and the packaging script.
- The three empty observer callbacks (`OnRenegotiationNeeded`, `OnConnectionChange`, `OnStandardizedIceConnectionChange`) are methods with empty bodies and no `modifies` clause. That already says they change nothing, so they have no contract of their own.
- The native stack's own behaviour is abstract. This covers when a data channel opens or closes after `Close`, and what a native `Send` does with the buffered amount. The initial state, stream id and send behaviour of a channel the stack creates are its choice, the `opens` function of a native connection.
- DataChannels.DataChannelImpl.HandleStateChange: requires a native channel, because librtc dereferences `native_` without a check. That method is only reached through the observer, which exists only with a native channel.
- PeerConnections.PeerConnectionImpl.AddIceCandidate: requires a native connection once the candidate has parsed, because librtc calls `pc_->AddIceCandidate` without a null check. A call after `close` is undefined behaviour in librtc.
- PeerConnections.PeerConnectionImpl.SetLocalDescription and PeerConnections.PeerConnectionImpl.SetRemoteDescription: require a native connection once the description has parsed, for the same reason.
- PeerConnections.PeerConnectionImpl.CreateDataChannel: requires a native connection, because librtc calls `pc_->CreateDataChannelOrError` unconditionally.
- `buffered_amount()` returns a `uint64_t`. The model uses a natural number, since the value is only passed through.

## Findings

| source | as written | input that shows it | evidently intended | confidence | as-written member | corrected member |
|---|---|---|---|---|---|---|
| include/librtc/utils/event.hpp:87-89 | `handler(std::forward<Args>(args)...)` runs once per snapshot handler. For the by-value `std::shared_ptr<DataChannel>` of the data-channel event (src/impl/peer_connection_impl.hpp:74), the first handler's parameter is move-constructed from `args`, so every later handler receives null. If the first handler's context has expired, no handler receives the channel | two live subscribers of `on_data_channel` and one announced channel: the second handler is called with null | every live subscriber receives the channel: `handler(args...)` | high (not executed) | Events.EventSource.Emit, PeerConnections.PeerConnectionImpl.HandleDataChannel, PeerConnections.DataChannelEventStarvesSecondSubscriber, Events.EmitHandsLaterCallsTheMovedArgument | Events.EventSource.EmitCopying, Events.CopyingCallsCarryTheArgument, Events.EmitNotifiesEveryLiveSubscriber, PeerConnections.CopyingDataChannelEventReachesBothSubscribers |

The other events carry values that a move leaves intact, so they use `EmitCopying`. The data-channel event keeps the emission as written, so that `HandleDataChannel` and `OnDataChannel` describe what librtc does.
