/** The slot occupancy a printer reports; the wire contract both services share (link/frames.go,
    printer/frames.go). */
module PrinterSlots {
  datatype SlotInfo = SlotInfo(current: int, max: int)
}
