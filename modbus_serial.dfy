/** src-tauri/src/commands/modbus_serial.rs: the shared MODBUS connection and the commands
    that use it. The serial channel, its requests and the port enumeration are outside the
    model; their outcomes are parameters, and each command reports whether it would have
    gone to the channel at all. */
module ModbusSerial {
  import opened Wrappers

  type U16 = x: int | 0 <= x < 0x1_0000

  /** An RTU channel opened on a serial port. */
  datatype Channel = Channel(port: string, baudRate: nat)

  /** One register of a read reply: its address and value. */
  datatype RegisterResponse = RegisterResponse(index: U16, value: U16)

  const AlreadyConnected := "Already connected"
  const ConnectedSuccessfully := "Connected successfully"
  const ConnectFailed := "Failed to connect after 3 attempts"
  const Connected := "Connected"
  const NoActiveConnection := "No active connection"
  const Disconnected := "Disconnected succesfully"
  const NoConnectionToDisconnect := "No connection to disconnect"
  const NoRegistersFound := "No registers found"

  /** How many times `connect_modbus` probes a freshly enabled channel. */
  const Attempts: nat := 3

  class CurrentConnection {
    var connection: Option<Channel>

    /** `CurrentConnection::default()`. */
    constructor ()
      ensures connection == None && !IsConnected()
    {
      connection := None;
    }

    predicate IsConnected()
      reads this
    {
      connection.Some?
    }

    method SetConnection(channel: Channel)
      modifies this
      ensures connection == Some(channel) && IsConnected()
    {
      connection := Some(channel);
    }

    method ClearConnection()
      modifies this
      ensures connection == None && !IsConnected()
    {
      connection := None;
    }
  }

  /** The retry loop of `connect_modbus`: `probe(a)` is whether the coil read of attempt `a`
      succeeds. It stops at the first success and sleeps only between attempts. */
  method ProbeWithRetries(probe: nat -> bool) returns (succeeded: bool, attempts: nat, sleeps: nat)
    ensures 1 <= attempts <= Attempts && sleeps == attempts - 1
    ensures succeeded <==> exists a :: 1 <= a <= Attempts && probe(a)
    ensures succeeded ==> probe(attempts) && forall a :: 1 <= a < attempts ==> !probe(a)
    ensures !succeeded ==> attempts == Attempts
  {
    succeeded, attempts, sleeps := false, 0, 0;
    for attempt := 1 to Attempts + 1
      invariant attempts == attempt - 1 && sleeps == Min(attempts, Attempts - 1)
      invariant forall a :: 1 <= a < attempt ==> !probe(a)
    {
      attempts := attempt;
      if probe(attempt) {
        succeeded := true;
        return;
      }
      if attempt < Attempts {
        sleeps := sleeps + 1;
      }
    }
  }

  /** `connect_modbus`: `enable` is the outcome of enabling the new channel (its error already
      rendered), `probe` the outcome of each attempt's coil read. */
  method ConnectModbus(current: CurrentConnection, port: string, baudRate: nat, enable: Result<()>, probe: nat -> bool)
    returns (r: Result<string>, attempts: nat, sleeps: nat)
    modifies current
    ensures old(current.IsConnected()) ==>
      r == Err(AlreadyConnected) && current.connection == old(current.connection) && attempts == 0
    ensures !old(current.IsConnected()) && enable.Err? ==>
      r == Err("Failed to enable connection " + enable.error) && !current.IsConnected() && attempts == 0
    ensures !old(current.IsConnected()) && enable.Ok? ==>
      && 1 <= attempts <= Attempts && sleeps == attempts - 1
      && (r.Ok? <==> exists a :: 1 <= a <= Attempts && probe(a))
      && (r.Ok? ==> r.value == ConnectedSuccessfully && current.connection == Some(Channel(port, baudRate)))
      && (r.Ok? ==> probe(attempts) && forall a :: 1 <= a < attempts ==> !probe(a))
      && (r.Err? ==> r.error == ConnectFailed && attempts == Attempts && !current.IsConnected())
    ensures r.Ok? <==> current.IsConnected() && !old(current.IsConnected())
  {
    attempts, sleeps := 0, 0;
    if current.IsConnected() {
      return Err(AlreadyConnected), attempts, sleeps;
    }
    var channel := Channel(port, baudRate);
    if enable.Err? {
      return Err("Failed to enable connection " + enable.error), attempts, sleeps;
    }
    var succeeded;
    succeeded, attempts, sleeps := ProbeWithRetries(probe);
    if succeeded {
      current.SetConnection(channel);
      return Ok(ConnectedSuccessfully), attempts, sleeps;
    }
    r := Err(ConnectFailed);
  }

  /** The `is_connected` command. */
  method IsConnectedCommand(current: CurrentConnection) returns (r: Result<string>)
    ensures r.Ok? <==> current.IsConnected()
    ensures r == if current.IsConnected() then Ok(Connected) else Err(NoActiveConnection)
  {
    if current.IsConnected() {
      r := Ok(Connected);
    } else {
      r := Err(NoActiveConnection);
    }
  }

  method DisconnectModbus(current: CurrentConnection) returns (r: Result<string>)
    modifies current
    ensures r.Ok? <==> old(current.IsConnected())
    ensures !current.IsConnected()
    ensures r == if old(current.IsConnected()) then Ok(Disconnected) else Err(NoConnectionToDisconnect)
  {
    if current.IsConnected() {
      current.ClearConnection();
      r := Ok(Disconnected);
    } else {
      r := Err(NoConnectionToDisconnect);
    }
  }

  /** The start address and count `AddressRange::try_from` accepts: a non-empty range that
      does not run past the last address. */
  predicate ValidRange(address: U16, count: U16)
  {
    0 < count && address + count <= 0x1_0000
  }

  /** `read_holding_registers`: `reply` is the channel's answer, errors already rendered;
      `requested` says whether a request went to the channel. */
  method ReadHoldingRegisters(current: CurrentConnection, address: U16, count: U16, reply: Result<seq<RegisterResponse>>)
    returns (r: Result<RegisterResponse>, requested: bool)
    requires current.IsConnected() ==> ValidRange(address, count)
    ensures requested <==> current.IsConnected()
    ensures !current.IsConnected() ==> r == Err(NoActiveConnection)
    ensures current.IsConnected() && reply.Err? ==> r == Err("Read error: " + reply.error)
    ensures current.IsConnected() && reply.Ok? ==>
      r == if reply.value == [] then Err(NoRegistersFound) else Ok(reply.value[0])
  {
    if current.connection.None? {
      return Err(NoActiveConnection), false;
    }
    requested := true;
    match reply
    case Err(e) => r := Err("Read error: " + e);
    case Ok(registers) =>
      if |registers| > 0 {
        r := Ok(registers[0]);
      } else {
        r := Err(NoRegistersFound);
      }
  }

  /** The shape shared by `write_single_register`, `write_single_coil` and `read_coils`: the
      channel's reply, already rendered, or `prefix` and the rendered error. */
  method ChannelRequest(current: CurrentConnection, reply: Result<string>, prefix: string)
    returns (r: Result<string>, requested: bool)
    ensures requested <==> current.IsConnected()
    ensures !current.IsConnected() ==> r == Err(NoActiveConnection)
    ensures current.IsConnected() ==>
      r == if reply.Ok? then Ok(reply.value) else Err(prefix + reply.error)
  {
    if current.connection.None? {
      return Err(NoActiveConnection), false;
    }
    requested := true;
    match reply
    case Ok(response) => r := Ok(response);
    case Err(e) => r := Err(prefix + e);
  }

  method WriteSingleRegister(current: CurrentConnection, value: U16, address: U16, reply: Result<string>)
    returns (r: Result<string>, requested: bool)
    ensures requested <==> current.IsConnected()
    ensures !current.IsConnected() ==> r == Err(NoActiveConnection)
    ensures current.IsConnected() ==>
      r == if reply.Ok? then Ok(reply.value) else Err("Write error: " + reply.error)
  {
    r, requested := ChannelRequest(current, reply, "Write error: ");
  }

  method WriteSingleCoil(current: CurrentConnection, value: bool, address: U16, reply: Result<string>)
    returns (r: Result<string>, requested: bool)
    ensures requested <==> current.IsConnected()
    ensures !current.IsConnected() ==> r == Err(NoActiveConnection)
    ensures current.IsConnected() ==>
      r == if reply.Ok? then Ok(reply.value) else Err("Write error: " + reply.error)
  {
    r, requested := ChannelRequest(current, reply, "Write error: ");
  }

  method ReadCoils(current: CurrentConnection, address: U16, count: U16, reply: Result<string>)
    returns (r: Result<string>, requested: bool)
    requires current.IsConnected() ==> ValidRange(address, count)
    ensures requested <==> current.IsConnected()
    ensures !current.IsConnected() ==> r == Err(NoActiveConnection)
    ensures current.IsConnected() ==>
      r == if reply.Ok? then Ok(reply.value) else Err("Read error: " + reply.error)
  {
    r, requested := ChannelRequest(current, reply, "Read error: ");
  }

  datatype PortType = UsbPort | PciPort | BluetoothPort | Unknown

  datatype PortInfo = PortInfo(portName: string, portType: PortType)

  /** The names of the USB ports, in enumeration order. */
  function UsbPortNames(ports: seq<PortInfo>): (names: seq<string>)
    ensures |names| <= |ports|
  {
    if ports == [] then []
    else
      var last := ports[|ports| - 1];
      UsbPortNames(ports[..|ports| - 1]) + (if last.portType.UsbPort? then [last.portName] else [])
  }

  /** `available_ports`: `enumeration` is the serial port enumeration, its error already rendered. */
  function AvailablePorts(enumeration: Result<seq<PortInfo>>): (r: Result<seq<string>>)
    ensures r.Ok? <==> enumeration.Ok?
    ensures enumeration.Err? ==> r.error == "Failed to list serial ports: " + enumeration.error
  {
    match enumeration
    case Ok(ports) => Ok(UsbPortNames(ports))
    case Err(e) => Err("Failed to list serial ports: " + e)
  }

  /** Filtering keeps enumeration order: the names of two runs of ports are the names of each run, in turn. */
  lemma {:induction false} UsbPortNamesConcat(a: seq<PortInfo>, b: seq<PortInfo>)
    ensures UsbPortNames(a + b) == UsbPortNames(a) + UsbPortNames(b)
    decreases |b|
  {
    if b == [] {
      assert a + b == a;
    } else {
      assert (a + b)[..|a + b| - 1] == a + b[..|b| - 1];
      assert (a + b)[|a + b| - 1] == b[|b| - 1];
      UsbPortNamesConcat(a, b[..|b| - 1]);
    }
  }

  /** A name is listed exactly when some USB port carries it. */
  lemma {:induction false} UsbPortNamesMembers(ports: seq<PortInfo>, name: string)
    ensures name in UsbPortNames(ports) <==> exists p :: p in ports && p.portType.UsbPort? && p.portName == name
    decreases |ports|
  {
    if ports != [] {
      var init, last := ports[..|ports| - 1], ports[|ports| - 1];
      UsbPortNamesMembers(init, name);
      assert ports == init + [last];
      assert forall p :: p in ports <==> p in init || p == last;
    }
  }

  /** When every port is a USB port, every name is listed, in order. */
  lemma {:induction false} AllUsbPortsListed(ports: seq<PortInfo>)
    requires forall i :: 0 <= i < |ports| ==> ports[i].portType.UsbPort?
    ensures UsbPortNames(ports) == seq(|ports|, i requires 0 <= i < |ports| => ports[i].portName)
    decreases |ports|
  {
    if ports != [] {
      AllUsbPortsListed(ports[..|ports| - 1]);
    }
  }
}
