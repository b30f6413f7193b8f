/**
 * The CEC transport adapter over libCEC, with the Audio Return Channel
 * responder the tool runs when it simulates an ARC receiver.
 *
 * libCEC itself is outside the model. A frame handed to its `transmit` is
 * appended to the ghost log `sent`, and a message handed to the upper
 * layer's callback is appended to `delivered`. Adapter discovery, opening
 * and polling are answers carried by a `LibCec` record.
 */
module CecBusAdapter {
  import opened LipTypes
  import opened ShortAudioDescriptors

  // CEC opcodes (HDMI 1.4b CEC, ARC and audio descriptor messages).
  const CEC_OPCODE_REPORT_SAD: nat := 0xA3
  const CEC_OPCODE_REQUEST_SAD: nat := 0xA4
  const CEC_OPCODE_START_ARC: nat := 0xC0
  const CEC_OPCODE_REPORT_ARC_STARTED: nat := 0xC1
  const CEC_OPCODE_REPORT_ARC_ENDED: nat := 0xC2
  const CEC_OPCODE_REQUEST_ARC_START: nat := 0xC3
  const CEC_OPCODE_REQUEST_ARC_END: nat := 0xC4
  const CEC_OPCODE_END_ARC: nat := 0xC5
  /** The LIP library's "no opcode" value for a bare polling frame. */
  const DLB_CEC_OPCODE_NONE: nat := 0xFD

  /** Logical address of the TV. */
  const CECDEVICE_TV: int := 0
  /** Timeout of the ARC control frames, in milliseconds. */
  const ARC_TRANSMIT_TIMEOUT: nat := 1000
  /** libCEC's default transmit timeout, in milliseconds. */
  const CEC_DEFAULT_TRANSMIT_TIMEOUT: nat := 1000
  /** Operands in one CEC frame: 16 blocks less the header and opcode. */
  const CEC_MAX_OPERANDS: nat := 14

  /** A libCEC frame. */
  datatype CecCommand = CecCommand(
    initiator: int,
    destination: int,
    ack: bool,
    eom: bool,
    opcode: nat,
    opcodeSet: bool,
    transmitTimeout: nat,
    parameters: seq<byte>)

  /** The LIP library's message record; its length is `|data|`. */
  datatype CecMessage = CecMessage(initiator: int, destination: int, opcode: nat, data: seq<byte>)

  /** What libCEC answers during start-up. */
  datatype LibCec = LibCec(
    initialises: bool,
    adaptersFound: int,
    opens: bool,
    primaryAddress: int,
    tvAnswersPoll: bool)

  datatype InitResult =
    | InitFatal        // the process aborts
    | InitNoTransport  // the bus is not available (NULL)
    | InitReady

  /** A frame the adapter itself composes: acknowledged, not end of message,
      opcode set, the ARC timeout. */
  function ReplyFrame(from: int, to: int, opcode: nat, parameters: seq<byte>): CecCommand {
    CecCommand(from, to, true, false, opcode, true, ARC_TRANSMIT_TIMEOUT, parameters)
  }

  /** The opcodes the ARC responder consumes. */
  predicate ArcHandled(opcode: nat) {
    opcode in {CEC_OPCODE_REQUEST_ARC_START, CEC_OPCODE_REQUEST_ARC_END,
               CEC_OPCODE_REPORT_ARC_STARTED, CEC_OPCODE_REPORT_ARC_ENDED, CEC_OPCODE_REQUEST_SAD}
  }

  /** The frames the ARC responder sends back for an incoming frame. */
  function ArcReplies(own: int, command: CecCommand): seq<CecCommand> {
    if command.opcode == CEC_OPCODE_REQUEST_ARC_START then
      [ReplyFrame(own, command.initiator, CEC_OPCODE_START_ARC, [])]
    else if command.opcode == CEC_OPCODE_REQUEST_ARC_END then
      [ReplyFrame(own, command.initiator, CEC_OPCODE_END_ARC, [])]
    else if command.opcode == CEC_OPCODE_REQUEST_SAD then
      [ReplyFrame(own, command.initiator, CEC_OPCODE_REPORT_SAD, SadPayload(command.parameters))]
    else
      []
  }

  /** The responder answers only the three requests, each with exactly one
      frame back to the sender from its own address; the two reports and
      every other opcode get no answer. A SAD report is sent even when it
      carries no descriptor. */
  lemma ArcRepliesShape(own: int, command: CecCommand)
    ensures |ArcReplies(own, command)| <= 1
    ensures |ArcReplies(own, command)| == 1 <==>
      command.opcode in {CEC_OPCODE_REQUEST_ARC_START, CEC_OPCODE_REQUEST_ARC_END, CEC_OPCODE_REQUEST_SAD}
    ensures forall r | r in ArcReplies(own, command) ::
      r.initiator == own && r.destination == command.initiator && r.opcodeSet && r.ack && !r.eom
    ensures command.opcode in {CEC_OPCODE_REQUEST_ARC_START, CEC_OPCODE_REQUEST_ARC_END} ==>
      ArcReplies(own, command)[0].parameters == []
    ensures command.opcode == CEC_OPCODE_REQUEST_SAD ==>
      |ArcReplies(own, command)[0].parameters| == 3 * KnownSadCount(command.parameters)
  {
    if command.opcode == CEC_OPCODE_REQUEST_SAD {
      SadPayloadLength(command.parameters);
    }
  }

  /** The frame the upper layer receives for an incoming libCEC frame. */
  function ToMessage(command: CecCommand): CecMessage {
    CecMessage(command.initiator, command.destination, command.opcode, command.parameters)
  }

  /** The frame libCEC is handed for an outgoing message. */
  function ToCommand(message: CecMessage): CecCommand {
    CecCommand(message.initiator, message.destination, true, false, message.opcode,
               message.opcode != DLB_CEC_OPCODE_NONE, CEC_DEFAULT_TRANSMIT_TIMEOUT, message.data)
  }

  /** An outgoing message and the frame handed to libCEC carry the same
      addresses, opcode and payload, so the frame gives the message back. */
  lemma MessageFrameRoundTrip(message: CecMessage)
    ensures ToMessage(ToCommand(message)) == message
    ensures ToCommand(message).opcodeSet <==> message.opcode != DLB_CEC_OPCODE_NONE
    ensures |ToCommand(message).parameters| == |message.data|
  {
  }

  /** The adapter's handle. */
  class CecBus {
    var simArc: bool
    var arcInitiated: bool
    var logicalAddress: int
    var hasCallback: bool
    /** Frames handed to libCEC's transmit, oldest first. */
    ghost var sent: seq<CecCommand>
    /** Messages handed to the upper layer's callback, oldest first. */
    ghost var delivered: seq<CecMessage>

    /** The handle before start-up: all zero. */
    constructor ()
      ensures !simArc && !arcInitiated && logicalAddress == 0 && !hasCallback
      ensures sent == [] && delivered == []
    {
      simArc := false;
      arcInitiated := false;
      logicalAddress := 0;
      hasCallback := false;
      sent := [];
      delivered := [];
    }

    /** Start the transport. Only an audio system may simulate an ARC
        receiver; otherwise start-up aborts. libCEC must initialise, find an
        adapter when no port is named, and open it. When simulating ARC
        and the TV answers a poll, one START_ARC goes to the TV. ARC is not
        marked active until the TV reports it. */
    method Init(portName: string, deviceType: DeviceType, simArc: bool, lib: LibCec) returns (result: InitResult)
      modifies this`simArc, this`arcInitiated, this`logicalAddress, this`sent
      ensures this.simArc == simArc && !arcInitiated
      ensures result == InitFatal <==> simArc && deviceType != LipDeviceAvr
      ensures result == InitNoTransport <==>
        !(simArc && deviceType != LipDeviceAvr) &&
        (!lib.initialises || (portName == [] && lib.adaptersFound <= 0) || !lib.opens)
      ensures result == InitReady ==> logicalAddress == lib.primaryAddress
      ensures sent == old(sent) +
        if result == InitReady && simArc && lib.tvAnswersPoll
        then [ReplyFrame(lib.primaryAddress, CECDEVICE_TV, CEC_OPCODE_START_ARC, [])]
        else []
    {
      this.simArc := simArc;
      arcInitiated := false;
      if deviceType != LipDeviceAvr && simArc {
        return InitFatal;
      }
      if !lib.initialises {
        return InitNoTransport;
      }
      if portName == [] && lib.adaptersFound <= 0 {
        return InitNoTransport;
      }
      if !lib.opens {
        return InitNoTransport;
      }
      logicalAddress := lib.primaryAddress;
      if simArc && lib.tvAnswersPoll {
        SendArcInitiate();
      }
      result := InitReady;
    }

    /** Ask the TV to start ARC. */
    method SendArcInitiate()
      modifies this`sent
      ensures sent == old(sent) + [ReplyFrame(logicalAddress, CECDEVICE_TV, CEC_OPCODE_START_ARC, [])]
    {
      sent := sent + [ReplyFrame(logicalAddress, CECDEVICE_TV, CEC_OPCODE_START_ARC, [])];
    }

    /** Tell the TV ARC ends; ARC is marked inactive first. */
    method SendArcTerminate()
      modifies this`sent, this`arcInitiated
      ensures !arcInitiated
      ensures sent == old(sent) + [ReplyFrame(logicalAddress, CECDEVICE_TV, CEC_OPCODE_END_ARC, [])]
    {
      arcInitiated := false;
      sent := sent + [ReplyFrame(logicalAddress, CECDEVICE_TV, CEC_OPCODE_END_ARC, [])];
    }

    /** Shut down: one END_ARC to the TV exactly when ARC is active. */
    method Destroy()
      modifies this`sent, this`arcInitiated
      ensures !arcInitiated
      ensures sent == old(sent) +
        if old(arcInitiated) then [ReplyFrame(logicalAddress, CECDEVICE_TV, CEC_OPCODE_END_ARC, [])] else []
    {
      if arcInitiated {
        SendArcTerminate();
      }
    }

    method RegisterCallback(present: bool)
      modifies this`hasCallback
      ensures hasCallback == present
    {
      hasCallback := present;
    }

    /** Hand an outgoing message to libCEC; 0 exactly when libCEC's transmit
        answered 1. */
    method Transmit(message: CecMessage, libResult: int) returns (status: int)
      requires |message.data| <= CEC_MAX_DATA_PACKET_SIZE
      modifies this`sent
      ensures sent == old(sent) + [ToCommand(message)]
      ensures ToMessage(sent[|sent| - 1]) == message
      ensures status == (if libResult == 1 then 0 else 1)
    {
      var command := CecCommand(message.initiator, message.destination, true, false, message.opcode,
                                message.opcode != DLB_CEC_OPCODE_NONE, CEC_DEFAULT_TRANSMIT_TIMEOUT, message.data);
      sent := sent + [command];
      status := if libResult == 1 then 0 else 1;
    }

    /** libCEC's callback for an incoming frame. When simulating ARC, the five
        ARC and SAD opcodes are answered or absorbed here and never reach the
        upper layer; everything else is forwarded once, if a callback is
        registered. */
    method CommandReceived(command: CecCommand)
      requires |command.parameters| <= CEC_MAX_OPERANDS
      modifies this`arcInitiated, this`sent, this`delivered
      ensures arcInitiated ==
        if simArc && command.opcode == CEC_OPCODE_REPORT_ARC_STARTED then true
        else if simArc && command.opcode == CEC_OPCODE_REPORT_ARC_ENDED then false
        else old(arcInitiated)
      ensures sent == old(sent) + if simArc then ArcReplies(logicalAddress, command) else []
      ensures delivered == old(delivered) +
        if hasCallback && !(simArc && ArcHandled(command.opcode)) then [ToMessage(command)] else []
    {
      var message := CecMessage(command.initiator, command.destination, command.opcode, command.parameters);
      var handled := false;
      if simArc {
        var transmit := false;
        var replyOpcode := 0;
        var reply := new DataPacket();
        if command.opcode == CEC_OPCODE_REQUEST_ARC_START {
          handled, transmit, replyOpcode := true, true, CEC_OPCODE_START_ARC;
        } else if command.opcode == CEC_OPCODE_REQUEST_ARC_END {
          handled, transmit, replyOpcode := true, true, CEC_OPCODE_END_ARC;
        } else if command.opcode == CEC_OPCODE_REPORT_ARC_STARTED {
          handled := true;
          arcInitiated := true;
        } else if command.opcode == CEC_OPCODE_REPORT_ARC_ENDED {
          handled := true;
          arcInitiated := false;
        } else if command.opcode == CEC_OPCODE_REQUEST_SAD {
          handled, transmit, replyOpcode := true, true, CEC_OPCODE_REPORT_SAD;
          var i := 0;
          while i < |command.parameters|
            invariant 0 <= i <= |command.parameters|
            invariant reply.Valid() && reply.Contents() == SadPayload(command.parameters[..i])
            invariant reply.size <= 3 * i
            invariant arcInitiated == old(arcInitiated) && sent == old(sent) && delivered == old(delivered)
          {
            SadPayloadLength(command.parameters[..i]);
            SadDescriptorLength(command.parameters[i]);
            InsertSad(command.parameters[i], reply);
            assert command.parameters[..i + 1] == command.parameters[..i] + [command.parameters[i]];
            SadPayloadSnoc(command.parameters[..i], command.parameters[i]);
            i := i + 1;
          }
          assert command.parameters[..i] == command.parameters;
        }
        if transmit {
          sent := sent + [ReplyFrame(logicalAddress, command.initiator, replyOpcode, reply.data[..reply.size])];
        }
      }
      if !handled && hasCallback {
        delivered := delivered + [message];
      }
    }
  }
}
