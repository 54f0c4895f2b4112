/** The enumerations that every packet of the protocol shares. */
module Protocol {
  datatype TransferType = Push | Pull

  datatype ThreadType = Incoming | Outgoing

  datatype ResponseCode =
    | ResponseStart
    | ResponseNone
    | ResponseApproved
    | ResponseRejected
    | ResponseRetry
    | ResponseCriticalError
    | ResponseConfirm
    | ResponseFileNotFound
    | ResponseFileExistsAlready
    | ResponseListingFound
    | ResponseInvalidPath

  datatype Option<+T> = None | Some(value: T)

  /** The bits that the listen loop collects from unpack, respond and pack. */
  function ResendCheck(unpacked: bool, responded: bool, packed: bool): bv8 {
    (if unpacked then 0x01 else 0x00) | (if responded then 0x02 else 0x00) | (if packed then 0x04 else 0x00)
  }

  /** As written the loop sends the packet back when any bit is set; gated, only when respond asks for it. */
  function Resends(gated: bool, unpacked: bool, responded: bool, packed: bool): (r: bool)
    ensures r <==> responded || (!gated && (unpacked || packed))
  {
    ResendCheck(unpacked, responded, packed) & (if gated then 0x02 else 0x07) != 0
  }
}
