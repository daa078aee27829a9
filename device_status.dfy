/** What the device-check screens show for each device, and the media tracks they inspect. */
module DeviceStatus {

  datatype Status = Checking | Success | Error

  /** A media track, by whether it is enabled. */
  datatype Track = Track(enabled: bool)
}
