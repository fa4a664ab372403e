/** `DataChannelImpl`: the library's data channel over a native one. It owns two event
    sources (incoming messages and state changes), caches the last state the native channel
    reported, and turns `send`, `close` and the property getters into calls on the native
    channel, with fixed answers when there is none. */
module DataChannels {
  import opened Expected
  import opened SystemError
  import opened Events
  import WebRtc
  import opened LibrtcTypes
  import D = DataChannelErrors
  import ErrorCodes

  /** A received message as the message event delivers it: the bytes and whether they are
      binary. */
  datatype Message = Message(data: seq<WebRtc.Byte>, binary: bool)

  /** `DataChannelImpl::convert_state`: the four native states to their namesakes, any other
      value to `Closed`. */
  function ConvertState(s: WebRtc.DataState): (r: DataChannelState)
    ensures r == Open <==> s == WebRtc.kOpen
  {
    match s
    case kConnecting => Connecting
    case kOpen => Open
    case kClosing => Closing
    case kClosed => DataChannelState.Closed
    case OtherDataState(_) => DataChannelState.Closed
  }

  lemma ConvertStateNamesakes()
    ensures ConvertState(WebRtc.DataState.kConnecting) == Connecting
    ensures ConvertState(WebRtc.kOpen) == Open
    ensures ConvertState(WebRtc.kClosing) == Closing
    ensures ConvertState(WebRtc.DataState.kClosed) == DataChannelState.Closed
  {
  }

  lemma ConvertStateFallback(raw: int)
    ensures ConvertState(WebRtc.OtherDataState(raw)) == DataChannelState.Closed
  {
  }

  /** On the four enumerators the translation is one-to-one. */
  lemma ConvertStateInjectiveOnEnumerators(a: WebRtc.DataState, b: WebRtc.DataState)
    requires !a.OtherDataState? && !b.OtherDataState?
    requires ConvertState(a) == ConvertState(b)
    ensures a == b
  {
  }

  /** The result of `send`, by its three checks in their order: no native channel gives
      `Closed`; a native channel not in `kOpen` gives `NotOpen`; otherwise the native `Send`
      decides between success and `BufferFull`. Each error is a data-channel error code. */
  function SendOutcome(hasNative: bool, state: WebRtc.DataState, accepted: bool): (r: VoidResult<ErrorCode>)
    ensures r.VoidOk? <==> hasNative && state == WebRtc.kOpen && accepted
    ensures r.VoidFail? ==> r.error.category == DataChannelCategory
  {
    if !hasNative then VoidFromErrorConverting(Err(D.Closed), D.MakeErrorCode)
    else if state != WebRtc.kOpen then VoidFromErrorConverting(Err(D.NotOpen), D.MakeErrorCode)
    else if accepted then Success()
    else VoidFromErrorConverting(Err(D.BufferFull), D.MakeErrorCode)
  }

  /** Without a native channel the answer is `Closed`, whatever the state and the send outcome
      would have been: that check comes first. */
  lemma SendWithoutNativeIsClosed(state: WebRtc.DataState, accepted: bool)
    ensures SendOutcome(false, state, accepted) == VoidFail(D.MakeErrorCode(D.Closed))
  {
  }

  /** A channel that is not open answers `NotOpen` whatever its send queue would have done. */
  lemma SendNotOpenIgnoresQueue(state: WebRtc.DataState, accepted: bool)
    requires state != WebRtc.kOpen
    ensures SendOutcome(true, state, accepted) == VoidFail(D.MakeErrorCode(D.NotOpen))
  {
  }

  /** An open channel fails only with `BufferFull`, exactly when the queue refuses. */
  lemma SendWhenOpen(accepted: bool)
    ensures SendOutcome(true, WebRtc.kOpen, accepted)
            == (if accepted then VoidOk else VoidFail(D.MakeErrorCode(D.BufferFull)))
  {
  }

  /** The three failures are told apart by the message of their error code. */
  lemma SendErrorMessages(hasNative: bool, state: WebRtc.DataState, accepted: bool)
    ensures var r := SendOutcome(hasNative, state, accepted);
            r.VoidFail? ==>
              ErrorCodes.Message(r.error)
              == (if !hasNative then "Data channel is closed"
                  else if state != WebRtc.kOpen then "Data channel is not open"
                  else "Send buffer is full")
  {
  }

  /** The state check of `send` passes exactly when the translated native state is `Open`. */
  lemma SendStateCheckMatchesConvertedState(state: WebRtc.DataState, accepted: bool)
    ensures SendOutcome(true, state, accepted) != VoidFail(D.MakeErrorCode(D.NotOpen))
            <==> ConvertState(state) == Open
  {
    D.MakeErrorCodeKeepsValue(D.NotOpen, D.BufferFull);
  }

  class DataChannelImpl {
    /** `native_`; null once destroyed, or when created without one. */
    var native: WebRtc.NativeDataChannel?
    /** `context_`: keeps the owning peer connection alive; never read. */
    const context: object?
    /** Whether `observer_proxy_` has been installed. */
    var observerInstalled: bool
    /** `cached_state_`. */
    var cachedState: DataChannelState
    const messageEvent: EventSource<Message>
    const stateEvent: EventSource<DataChannelState>

    /** `DataChannelImpl::Create(native, context)`: construction, then `init_internal`, which
        installs and registers the observer and caches the translated native state when there
        is a native channel. The cached state is `Closed` otherwise. */
    constructor Create(native: WebRtc.NativeDataChannel?, context: object?)
      modifies native
      ensures this.native == native && this.context == context
      ensures fresh(messageEvent) && fresh(stateEvent)
      ensures messageEvent.subscriptions == [] && stateEvent.subscriptions == []
      ensures native == null ==> !observerInstalled && cachedState == DataChannelState.Closed
      ensures native != null ==> observerInstalled && cachedState == ConvertState(native.state)
      ensures native != null ==> native.Log() == old(native.Log()).(observerRegistered := true)
    {
      this.native := native;
      this.context := context;
      observerInstalled := false;
      cachedState := DataChannelState.Closed;
      messageEvent := new EventSource<Message>();
      stateEvent := new EventSource<DataChannelState>();
      new;
      if native != null {
        observerInstalled := true;
        native.RegisterObserver();
        cachedState := ConvertState(native.state);
      }
    }

    /** `send(data, is_binary)`. The native `Send` is attempted only on an open channel. */
    method Send(data: seq<WebRtc.Byte>, isBinary: bool) returns (r: VoidResult<ErrorCode>)
      modifies native
      ensures native == null ==> r == SendOutcome(false, WebRtc.DataState.kClosed, false)
      ensures native != null ==> r == SendOutcome(true, old(native.state), old(native.acceptsSend))
      ensures native != null ==>
                native.Log() == old(native.Log()).(sendAttempts := old(native.sendAttempts)
                  + (if old(native.state) == WebRtc.kOpen then [WebRtc.DataBuffer(data, isBinary)] else []))
    {
      if native == null {
        return VoidFromErrorConverting(Err(D.Closed), D.MakeErrorCode);
      }
      if native.state != WebRtc.kOpen {
        return VoidFromErrorConverting(Err(D.NotOpen), D.MakeErrorCode);
      }
      var ok := native.Send(WebRtc.DataBuffer(data, isBinary));
      if ok {
        r := Success();
      } else {
        r := VoidFromErrorConverting(Err(D.BufferFull), D.MakeErrorCode);
      }
    }

    /** `send(string_view)`: the text's bytes, sent as text. */
    method SendText(text: seq<WebRtc.Byte>) returns (r: VoidResult<ErrorCode>)
      modifies native
      ensures native == null ==> r == SendOutcome(false, WebRtc.DataState.kClosed, false)
      ensures native != null ==> r == SendOutcome(true, old(native.state), old(native.acceptsSend))
      ensures native != null ==>
                native.Log() == old(native.Log()).(sendAttempts := old(native.sendAttempts)
                  + (if old(native.state) == WebRtc.kOpen then [WebRtc.DataBuffer(text, false)] else []))
    {
      r := Send(text, false);
    }

    /** `send(vector<byte>)`: the same bytes, sent as binary. */
    method SendBinary(data: seq<WebRtc.Byte>) returns (r: VoidResult<ErrorCode>)
      modifies native
      ensures native == null ==> r == SendOutcome(false, WebRtc.DataState.kClosed, false)
      ensures native != null ==> r == SendOutcome(true, old(native.state), old(native.acceptsSend))
      ensures native != null ==>
                native.Log() == old(native.Log()).(sendAttempts := old(native.sendAttempts)
                  + (if old(native.state) == WebRtc.kOpen then [WebRtc.DataBuffer(data, true)] else []))
    {
      r := Send(data, true);
    }

    /** `close()`: asks the native channel to close and keeps it, so the getters still report
        the native values. */
    method Close()
      modifies native
      ensures native != null ==> native.Log() == old(native.Log()).(closeRequests := old(native.closeRequests) + 1)
      ensures Label() == old(Label()) && Id() == old(Id())
    {
      if native != null {
        native.Close();
      }
    }

    /** `~DataChannelImpl()`: closes the native channel, unregisters the observer and drops
        the channel, after which `send` answers `Closed` and the getters their fallbacks. */
    method Destroy()
      modifies this, native
      ensures native == null
      ensures old(native) != null ==>
                old(native).Log() == old(native.Log()).(closeRequests := old(native.closeRequests) + 1,
                                                         observerRegistered := false)
      ensures cachedState == old(cachedState) && observerInstalled == old(observerInstalled)
      ensures Label() == "" && Id() == -1 && BufferedAmount() == 0
    {
      if native != null {
        native.Close();
        native.UnregisterObserver();
        native := null;
      }
    }

    /** `label()`: the native label, or "" without a native channel. */
    function Label(): (l: string)
      reads this, native
      ensures native != null ==> l == native.channelLabel
      ensures native == null ==> l == ""
    {
      if native != null then native.channelLabel else ""
    }

    /** `id()`: the native id, or -1 without a native channel. */
    function Id(): (id: int)
      reads this, native
      ensures native != null ==> id == native.id
      ensures native == null ==> id == -1
    {
      if native != null then native.id else -1
    }

    /** `buffered_amount()`: the native amount, or 0 without a native channel. */
    function BufferedAmount(): (n: nat)
      reads this, native
      ensures native != null ==> n == native.bufferedAmount
      ensures native == null ==> n == 0
    {
      if native != null then native.bufferedAmount else 0
    }

    /** `state()`: the cached state. */
    function State(): DataChannelState
      reads this
    {
      cachedState
    }

    /** `handle_state_change()`: caches the translated native state, then emits that same
        value. librtc reads the native channel without a null check. */
    method HandleStateChange(w: Interleaving) returns (calls: seq<Call<DataChannelState>>)
      requires native != null
      modifies this, stateEvent
      ensures native == old(native) && observerInstalled == old(observerInstalled)
      ensures State() == ConvertState(native.state)
      ensures Emitted(old(stateEvent.subscriptions), stateEvent.subscriptions, State(), State(), w, calls)
    {
      var newState := ConvertState(native.state);
      cachedState := newState;
      calls := stateEvent.EmitCopying(newState, w);
    }

    /** `handle_message(buffer)`: emits the buffer's bytes and binary flag. */
    method HandleMessage(buffer: WebRtc.DataBuffer, w: Interleaving) returns (calls: seq<Call<Message>>)
      modifies messageEvent
      ensures Emitted(old(messageEvent.subscriptions), messageEvent.subscriptions, Message(buffer.data, buffer.binary),
                      Message(buffer.data, buffer.binary), w, calls)
    {
      calls := messageEvent.EmitCopying(Message(buffer.data, buffer.binary), w);
    }
  }
}
