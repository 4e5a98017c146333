/** The service record the bonjour browser reports for an AirPlay receiver. */
module Bonjour {
  /** A discovered device: its host, its port and its advertised name. */
  datatype Device = Device(host: string, port: int, name: string)
}
