/** The seat record the server sends to the frontend (`SeatResponse`). */
module ApiSeat {
  import opened Wrappers

  /** A seat record as the server sends it. */
  datatype Seat = Seat(
    id: string, seatNumber: string, seatType: string,
    hasPowerOutlet: bool, hasWifi: bool, hasAc: bool, accessibility: bool,
    capacity: int, floorId: string, x: real, y: real, status: string,
    notes: Option<string>, createdAt: string, updatedAt: string)
}
