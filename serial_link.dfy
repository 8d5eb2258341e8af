/** The serial port as the managers see it: whether it is open, whether the
    connection is healthy, and what has been put on the wire. The port itself
    (pyserial, baud rates, reading) is not modelled; `connected` and `healthy`
    are set from outside, like the hardware would. */
module SerialLink {

  class Link {
    /** `serial_manager.is_connected()` */
    var connected: bool
    /** `serial_manager.is_connection_healthy()` */
    var healthy: bool
    /** Commands handed to `send_serial_command`, oldest first. */
    var sent: seq<string>
    /** Raw strings written to `shinho_serial_connection.write`, oldest first. */
    var written: seq<string>

    constructor (connected: bool, healthy: bool)
      ensures this.connected == connected && this.healthy == healthy
      ensures sent == [] && written == []
    {
      this.connected := connected;
      this.healthy := healthy;
      sent := [];
      written := [];
    }

    /** `send_serial_command(command)`: the command goes to the device. */
    method SendSerialCommand(command: string)
      modifies this`sent
      ensures sent == old(sent) + [command]
    {
      sent := sent + [command];
    }

    /** `shinho_serial_connection.write(data.encode())` on an open port. */
    method Write(data: string)
      requires connected
      modifies this`written
      ensures written == old(written) + [data]
    {
      written := written + [data];
    }
  }
}
