/**
  `MediaConnection`: the media session object, whose constructor, `answer`
  and `addStream` handler update its fields in place. Every method is proved
  to take the session's state to what the matching function of `MediaSpec`
  gives. `Replay` at the end proves that an object built by the constructor
  and then driven by `Answer` and `OnAddStream` is in the state `MediaSpec.Run`
  gives, so the lemmas about `Run` hold of such an object.
 */
module Media {
  import opened MediaSpec

  type PeerId = string

  class MediaConnection {
    const remoteId: PeerId
    /** The `type` tag collaborators dispatch on, and the id prefix given to the base class. */
    const kind: string
    const idPrefix: string

    var localStream: Option<Stream>
    var remoteStream: Option<Stream>
    /** `_queuedMessages`: messages that arrived before the negotiator was started. */
    var queued: seq<Msg>
    /** `_pcAvailable`: the negotiator has been started. */
    var pcAvailable: bool
    var open: bool
    /** `_options.payload` and `_options.pcConfig`. */
    var payload: Option<Payload>
    const pcConfig: Option<PcConfig>

    /** Each `startConnection` call made on the negotiator, in order. */
    ghost var startCalls: seq<StartCall>
    /** Each message handed to the negotiator by `_handleQueuedMessages`, in order. */
    ghost var forwarded: seq<Msg>
    /** Each event emitted to the session's listeners, in order. */
    ghost var emitted: seq<Event>
    /** The number of warnings logged. */
    ghost var warnings: nat

    /** The session's state as a value. */
    ghost function State(): Session
      reads this
    {
      Session(localStream, remoteStream, queued, pcAvailable, open, payload, pcConfig,
              startCalls, forwarded, emitted, warnings)
    }

    /**
      Builds a session with the peer `remoteId`; on the caller side
      (`options.stream` given) it starts the negotiator at once and hands the
      buffered messages over. The `addStream` subscription it installs is the
      method `OnAddStream`.
     */
    constructor (remoteId: PeerId, options: Options)
      ensures this.remoteId == remoteId
      ensures kind == MediaType && idPrefix == IdPrefix
      ensures State() == Create(options)
    {
      // the base class: the peer, the options, a closed connection
      this.remoteId := remoteId;
      pcConfig := options.pcConfig;
      payload := options.payload;
      open := false;
      remoteStream := None;
      startCalls, forwarded, emitted, warnings := [], [], [], 0;

      idPrefix := IdPrefix;
      kind := MediaType;
      localStream := options.stream;
      queued := SeededQueue(options);
      pcAvailable := false;
      new;
      if localStream.Some? {
        startCalls := startCalls + [StartCall(MediaType, localStream, true, None, pcConfig)];
        pcAvailable := true;
        HandleQueuedMessages();
      }
    }

    /**
      `_handleQueuedMessages` of the base class: hands every buffered message
      to the negotiator in arrival order and empties the buffer (an
      assumption about the base class, whose body is not part of this model).
      It is only called once the negotiator has been started.
     */
    method HandleQueuedMessages()
      requires pcAvailable
      modifies this
      ensures State() == Drain(old(State()))
    {
      forwarded := forwarded + queued;
      queued := [];
    }

    /**
      Answers the call with `stream`. A session that already has a local
      stream only warns; one without an offer payload throws before it
      changes anything; otherwise the stream goes into the payload and
      `localStream`, the negotiator starts as responder with the offer, the
      buffer is handed over and the connection opens.
     */
    method Answer(stream: Option<Stream>) returns (outcome: AnswerOutcome)
      modifies this
      ensures (State(), outcome) == MediaSpec.Answer(old(State()), stream)
      // the two clauses below follow from the one above; they spell out the guard for readers
      ensures outcome == AlreadyAnswered ==> localStream == old(localStream)
      ensures unchanged(this`remoteStream)
    {
      if localStream.Some? {
        warnings := warnings + 1;
        return AlreadyAnswered;
      }
      if payload.None? {
        return PayloadMissing;
      }

      payload := Some(payload.value.(stream := stream));

      localStream := stream;
      startCalls := startCalls + [StartCall(MediaType, localStream, false, payload.value.offer, pcConfig)];
      pcAvailable := true;

      HandleQueuedMessages();

      open := true;
      outcome := Answered;
    }

    /** The negotiator's `addStream` notification: records the remote stream and emits `stream`. */
    method OnAddStream(remote: Stream)
      modifies this
      ensures State() == StreamArrived(old(State()), remote)
      // the two clauses below follow from the one above; they spell out the frame for readers
      ensures remoteStream == Some(remote)
      ensures unchanged(this`localStream, this`queued, this`pcAvailable, this`open, this`payload)
    {
      remoteStream := Some(remote);
      emitted := emitted + [Emitted(StreamEvent, remote)];
    }
  }

  /**
    A client of the class: constructs a session and delivers the calls to
    it in order, each `AnswerCall` as `Answer` and each `StreamArrival` as
    `OnAddStream`. The object ends in the state `Run(Create(options), calls)`,
    so it has started the negotiator at most once whenever every `answer`
    was given a stream.
   */
  method Replay(remoteId: PeerId, options: Options, calls: seq<Call>) returns (c: MediaConnection)
    ensures fresh(c)
    ensures c.State() == Run(Create(options), calls)
    ensures StreamsSupplied(calls) ==> |c.startCalls| <= 1
  {
    c := new MediaConnection(remoteId, options);
    var i := 0;
    while i < |calls|
      invariant 0 <= i <= |calls|
      invariant Run(c.State(), calls[i..]) == Run(Create(options), calls)
    {
      assert calls[i..][1..] == calls[i + 1..];
      match calls[i] {
        case AnswerCall(stream) =>
          var _ := c.Answer(stream);
        case StreamArrival(remote) =>
          c.OnAddStream(remote);
      }
      i := i + 1;
    }
    if StreamsSupplied(calls) {
      StartsAtMostOnce(options, calls);
    }
  }
}
