/**
 * The serial-port library the port finder talks to, replaced by an oracle:
 * the ports the operating system enumerates, and for each port name how
 * opening, configuring, obtaining the streams and reading a reply turn out.
 * Every call the finder makes on a port is recorded as an `Event`.
 */
module SerialIo {
  import opened JavaText

  /** `CommPortIdentifier.getPortType()`. */
  datatype PortType = Serial | Parallel | I2C | RS485 | Raw

  /** One element of `CommPortIdentifier.getPortIdentifiers()`. */
  datatype PortIdentifier = PortIdentifier(name: string, portType: PortType)

  /** How `getInputStream()` / `getOutputStream()` turns out. */
  datatype Acquire = Provided | ReturnsNull | Throws

  /** What `read(buffer)` finds on the line after the id request. */
  datatype Reply = Bytes(data: seq<byte>) | EndOfStream | ReadThrows

  /**
   * How one named port behaves: `opens` is false when `open` throws
   * (port in use), `configures` is false when setting the line parameters
   * or the flow control throws.
   */
  datatype PortBehaviour = PortBehaviour(
    opens: bool,
    configures: bool,
    input: Acquire,
    output: Acquire,
    reply: Reply)

  /**
   * The library as the finder sees it: the enumeration, in order, and the
   * behaviour of every name `getPortIdentifier` knows (any other name makes
   * it throw `NoSuchPortException`).
   */
  datatype Library = Library(identifiers: seq<PortIdentifier>, ports: map<string, PortBehaviour>)

  /**
   * A call on a port or on one of its streams, named after the port it
   * belongs to: the attempt to open it, closing the port and each stream,
   * draining pending input, writing a command, reading the reply.
   */
  datatype Event =
    | Open(port: string)
    | ClosePort(port: string)
    | CloseInput(port: string)
    | CloseOutput(port: string)
    | Drain(port: string)
    | Write(port: string, data: seq<byte>)
    | Read(port: string)

  /** What `InputStream.read(byte[])` hands back: a count (-1 at end of stream) or an `IOException`. */
  datatype ReadResult = Count(n: int) | IOException

  /** The bytes a `read` into a buffer of `capacity` bytes stores. */
  function Delivered(r: Reply, capacity: nat): (d: seq<byte>)
    ensures |d| <= capacity
    ensures r.Bytes? ==> |d| == (if |r.data| <= capacity then |r.data| else capacity) && d == r.data[..|d|]
    ensures !r.Bytes? ==> d == []
  {
    if r.Bytes? then (if |r.data| <= capacity then r.data else r.data[..capacity]) else []
  }

  /** `InputStream.read(buffer)`: stores what arrived at the front of `buffer` and says how much. */
  method ReadInto(r: Reply, buffer: array<byte>) returns (result: ReadResult)
    modifies buffer
    ensures result.IOException? <==> r.ReadThrows?
    ensures r.EndOfStream? ==> result == Count(-1)
    ensures r.Bytes? ==> result == Count(|Delivered(r, buffer.Length)|)
    ensures buffer[..|Delivered(r, buffer.Length)|] == Delivered(r, buffer.Length)
    ensures buffer[|Delivered(r, buffer.Length)|..] == old(buffer[|Delivered(r, buffer.Length)|..])
  {
    var d := Delivered(r, buffer.Length);
    forall j | 0 <= j < |d| {
      buffer[j] := d[j];
    }
    match r
    case Bytes(_) => result := Count(|d|);
    case EndOfStream => result := Count(-1);
    case ReadThrows => result := IOException;
  }
}
