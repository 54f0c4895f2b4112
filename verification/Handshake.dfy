/** The settings agreement between a HOST and a new PEER (UDTPHandshake). */
module Handshake {
  import opened Protocol

  /** One flag for each place where the text of the code departs from its own comments. */
  datatype Repairs = Repairs(
    wireCarriesCode: bool, // every packed handshake carries its current response code
    gateOnRespond: bool)   // a packet goes back only when respond asks for it

  const AS_WRITTEN := Repairs(false, false)

  datatype Settings = Settings(version: nat, agreement: nat, least: nat, most: nat)

  /** What travels: the response code and the sender's version and chunk size. */
  datatype Data = Data(code: ResponseCode, version: nat, agreement: nat)

  /** What a response does beside changing the packet. */
  datatype Effect = Nothing | ApprovePeer | RejectPeer | ApproveSelf

  datatype Response = Response(code: ResponseCode, effect: Effect, reply: bool)

  predicate Accepts(host: Settings, version: nat, agreement: nat) {
    version == host.version && host.least <= agreement <= host.most
  }

  function Respond(own: Settings, data: Data): Response {
    match data.code
    case ResponseStart => Response(ResponseNone, Nothing, true)
    case ResponseNone =>
      if Accepts(own, data.version, data.agreement) then Response(ResponseApproved, ApprovePeer, true)
      else Response(ResponseCriticalError, RejectPeer, true)
    case ResponseApproved => Response(ResponseApproved, ApproveSelf, false)
    case code => Response(code, Nothing, false)
  }

  predicate Unpacks(code: ResponseCode) { code == ResponseStart || code == ResponseNone }

  predicate Packs(code: ResponseCode) {
    code in {ResponseStart, ResponseNone, ResponseApproved, ResponseCriticalError}
  }

  /** As written only ResponseStart puts its code into the data; the others leave the code that came in. */
  function Pack(fix: Repairs, own: Settings, code: ResponseCode, data: Data): Data {
    match code
    case ResponseStart => data.(code := ResponseStart)
    case ResponseNone => Data(if fix.wireCarriesCode then code else data.code, own.version, own.agreement)
    case ResponseApproved => data.(code := if fix.wireCarriesCode then code else data.code)
    case ResponseCriticalError => data.(code := if fix.wireCarriesCode then code else data.code)
    case _ => data
  }

  /** What the listen loop makes of one handshake: its effect, and what it sends back, if anything. */
  datatype Handled = Handled(effect: Effect, back: Option<Data>)

  function Handle(fix: Repairs, own: Settings, data: Data): Handled {
    var r := Respond(own, data);
    Handled(r.effect,
      if Resends(fix.gateOnRespond, Unpacks(data.code), r.reply, Packs(r.code))
      then Some(Pack(fix, own, r.code, data)) else None)
  }

  // ----- the objects -----

  datatype InitProcessEvent =
    | ListenSocket | ListenThread | MutexFrameworkInit | MutexSelfInit | QueueThreads | HandshakeDone | Completed

  function Bit(e: InitProcessEvent): bv8 {
    match e
    case ListenSocket => 0x01
    case ListenThread => 0x02
    case MutexFrameworkInit => 0x04
    case MutexSelfInit => 0x08
    case QueueThreads => 0x10
    case HandshakeDone => 0x20
    case Completed => 0x40
  }

  /** The number of an event, and so of its bit. */
  function EventNumber(e: InitProcessEvent): nat {
    match e
    case ListenSocket => 0
    case ListenThread => 1
    case MutexFrameworkInit => 2
    case MutexSelfInit => 3
    case QueueThreads => 4
    case HandshakeDone => 5
    case Completed => 6
  }

  lemma BitIsShift(e: InitProcessEvent)
    ensures Bit(e) == (1 as bv8) << EventNumber(e)
  {
  }

  predicate HasEvent(mask: bv8, e: InitProcessEvent) { mask & Bit(e) != 0 }

  class Peer {
    var initProcess: bv8
    var online: bool

    predicate HandshakeComplete()
      reads this
    {
      HasEvent(initProcess, HandshakeDone)
    }

    /** Exactly this event is added to those that are complete. */
    method SetInitProcessComplete(e: InitProcessEvent)
      modifies `initProcess
      ensures initProcess == old(initProcess) | Bit(e)
      ensures forall d :: HasEvent(initProcess, d) <==> HasEvent(old(initProcess), d) || d == e
    {
      initProcess := initProcess | Bit(e);
    }

    method CheckInitProcess(e: InitProcessEvent) returns (r: bool)
      ensures r <==> HasEvent(initProcess, e)
    {
      if initProcess & Bit(e) == 0 { return false; }
      return true;
    }
  }

  class UDTPHandshake {
    var responseCode: ResponseCode
    var data: Data
    var versionNumber: nat
    var chunkSizeAgreement: nat

    constructor (received: Data)
      ensures data == received
    {
      data := received;
      responseCode, versionNumber, chunkSizeAgreement := ResponseStart, 0, 0;
    }

    method CompareSettings(own: Settings) returns (r: bool)
      ensures r <==> Accepts(own, versionNumber, chunkSizeAgreement)
      ensures r <==> versionNumber == own.version && own.least <= chunkSizeAgreement && chunkSizeAgreement <= own.most
    {
      if versionNumber != own.version { return false; }
      if chunkSizeAgreement < own.least { return false; }
      if chunkSizeAgreement > own.most { return false; }
      return true;
    }

    method Unpack() returns (r: bool)
      modifies this
      ensures r <==> Unpacks(data.code)
      ensures r <==> data.code == ResponseStart || data.code == ResponseNone
      ensures data == old(data) && responseCode == data.code
      ensures data.code == ResponseNone ==> versionNumber == data.version && chunkSizeAgreement == data.agreement
    {
      responseCode := data.code;
      match responseCode {
        case ResponseStart => return true;
        case ResponseNone =>
          versionNumber := data.version;
          chunkSizeAgreement := data.agreement;
          return true;
        case _ => return false;
      }
    }

    method PackData(fix: Repairs, own: Settings) returns (r: bool)
      modifies `data
      ensures r <==> Packs(responseCode)
      ensures !r <==> responseCode !in {ResponseStart, ResponseNone, ResponseApproved, ResponseCriticalError}
      ensures data.version == (if responseCode == ResponseNone then own.version else old(data.version))
      ensures data.agreement == (if responseCode == ResponseNone then own.agreement else old(data.agreement))
      ensures fix.wireCarriesCode && r ==> data.code == responseCode
      ensures !r || (!fix.wireCarriesCode && responseCode != ResponseStart) ==> data.code == old(data.code)
      ensures data == Pack(fix, own, responseCode, old(data))
    {
      match responseCode {
        case ResponseStart =>
          data := data.(code := ResponseStart);
          return true;
        case ResponseNone =>
          data := data.(agreement := own.agreement);
          data := data.(version := own.version);
          if fix.wireCarriesCode { data := data.(code := responseCode); }
          return true;
        case ResponseApproved =>
          if fix.wireCarriesCode { data := data.(code := responseCode); }
          return true;
        case ResponseCriticalError =>
          if fix.wireCarriesCode { data := data.(code := responseCode); }
          return true;
        case _ => return false;
      }
    }

    /** `sender` is the HOST's entry for the peer the packet came from, `self` the endpoint's own entry. */
    method RespondTo(own: Settings, sender: Peer, self: Peer) returns (reply: bool)
      requires responseCode == data.code
      requires data.code == ResponseNone ==> versionNumber == data.version && chunkSizeAgreement == data.agreement
      requires sender != self
      modifies `responseCode, sender, self
      ensures var r := Respond(own, data);
        && responseCode == r.code && reply == r.reply
        && sender.HandshakeComplete() == (old(sender.HandshakeComplete()) || r.effect == ApprovePeer)
        && sender.online == (old(sender.online) && r.effect != RejectPeer)
        && self.HandshakeComplete() == (old(self.HandshakeComplete()) || r.effect == ApproveSelf)
        && self.online == old(self.online)
        && sender.initProcess == (if r.effect == ApprovePeer then old(sender.initProcess) | Bit(HandshakeDone) else old(sender.initProcess))
        && self.initProcess == (if r.effect == ApproveSelf then old(self.initProcess) | Bit(HandshakeDone) else old(self.initProcess))
    {
      if responseCode == ResponseStart {
        responseCode := ResponseNone;
        return true;
      }
      if responseCode == ResponseNone {
        var same := CompareSettings(own);
        if !same {
          responseCode := ResponseCriticalError;
          sender.online := false;
          return true;
        }
        responseCode := ResponseApproved;
        sender.SetInitProcessComplete(HandshakeDone);
        return true;
      }
      if responseCode == ResponseApproved {
        self.SetInitProcessComplete(HandshakeDone);
        return false;
      }
      return false;
    }

    /** unpack, respond and pack, and the test whether the packet goes back. */
    method Process(fix: Repairs, own: Settings, sender: Peer, self: Peer) returns (back: Option<Data>)
      requires sender != self
      modifies this, sender, self
      ensures back == Handle(fix, own, old(data)).back
      ensures var effect := Handle(fix, own, old(data)).effect;
        && sender.HandshakeComplete() == (old(sender.HandshakeComplete()) || effect == ApprovePeer)
        && sender.online == (old(sender.online) && effect != RejectPeer)
        && self.HandshakeComplete() == (old(self.HandshakeComplete()) || effect == ApproveSelf)
        && self.online == old(self.online)
        && sender.initProcess == (if effect == ApprovePeer then old(sender.initProcess) | Bit(HandshakeDone) else old(sender.initProcess))
        && self.initProcess == (if effect == ApproveSelf then old(self.initProcess) | Bit(HandshakeDone) else old(self.initProcess))
    {
      var unpacked := Unpack();
      var responded := RespondTo(own, sender, self);
      var packed := PackData(fix, own);
      var resendCheck := ResendCheck(unpacked, responded, packed);
      if resendCheck & (if fix.gateOnRespond then 0x02 else 0x07) != 0 {
        return Some(data);
      }
      return None;
    }
  }
}
