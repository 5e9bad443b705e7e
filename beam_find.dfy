/**
 * The beam port finder: it lists the serial ports once, then walks them from
 * the last one down, opening each, asking the firmware for its product id
 * and closing it again, until an id matches the target.
 *
 * The pure functions below give the effect of each step on the finder's
 * three handle fields and on the trace of port calls; the class `Find`
 * performs the steps in place and is proved against them.  A handle or
 * stream is represented by the name of the port it belongs to.
 */
module Beam {
  import opened Nullable
  import opened JavaText
  import opened SerialIo

  /** Size of the reply buffer `getProduct` reads into. */
  const BufferSize: nat := 32

  /** The id request: `'x'` followed by a carriage return. */
  const IdRequest: seq<byte> := [120, 13]

  // ------------------------------------------------------------ port list

  /** Names of the serial-type ports, in enumeration order. */
  function SerialNames(ids: seq<PortIdentifier>): (names: seq<string>)
    ensures |names| <= |ids|
  {
    if ids == [] then []
    else (if ids[0].portType == Serial then [ids[0].name] else []) + SerialNames(ids[1..])
  }

  /** Listing two runs of the enumeration one after the other lists each in order. */
  lemma {:induction false} SerialNamesConcat(a: seq<PortIdentifier>, b: seq<PortIdentifier>)
    ensures SerialNames(a + b) == SerialNames(a) + SerialNames(b)
  {
    if a != [] {
      assert (a + b)[1..] == a[1..] + b;
      SerialNamesConcat(a[1..], b);
    } else {
      assert a + b == b;
    }
  }

  /** A name is listed exactly when some serial-type port of the enumeration carries it. */
  lemma {:induction false} SerialNamesMembers(ids: seq<PortIdentifier>, name: string)
    ensures name in SerialNames(ids) <==>
            exists k :: 0 <= k < |ids| && ids[k].portType == Serial && ids[k].name == name
  {
    if ids != [] {
      SerialNamesMembers(ids[1..], name);
      if name in SerialNames(ids[1..]) {
        var k :| 0 <= k < |ids[1..]| && ids[1..][k].portType == Serial && ids[1..][k].name == name;
        assert ids[k + 1] == ids[1..][k];
      }
      if exists k :: 0 <= k < |ids| && ids[k].portType == Serial && ids[k].name == name {
        var k :| 0 <= k < |ids| && ids[k].portType == Serial && ids[k].name == name;
        if k > 0 {
          assert ids[1..][k - 1] == ids[k];
        }
      }
    }
  }

  // ---------------------------------------------------- handles and trace

  /** The finder's `serialPort`, `inputStream` and `outputStream` fields. */
  datatype Fields = Fields(serialPort: Option<string>, inputStream: Option<string>, outputStream: Option<string>)

  /** The fields after a step, and the port calls it made. */
  datatype After = After(fields: Fields, events: seq<Event>)

  /** `close()`: closes the port and each stream that is set; clears only `serialPort`. */
  function CloseEffect(f: Fields): After
  {
    var port := if f.serialPort.Some? then [ClosePort(f.serialPort.value)] else [];
    var input := if f.inputStream.Some? then [CloseInput(f.inputStream.value)] else [];
    var output := if f.outputStream.Some? then [CloseOutput(f.outputStream.value)] else [];
    After(f.(serialPort := None), port + input + output)
  }

  /**
   * `close()` forgets the port handle but keeps both stream references, and
   * closes every handle that is set: the output stream is closed whatever
   * happened to the input stream.
   */
  lemma CloseReleasesEverything(f: Fields)
    ensures CloseEffect(f).fields == f.(serialPort := None)
    ensures forall p :: ClosePort(p) in CloseEffect(f).events <==> f.serialPort == Some(p)
    ensures forall p :: CloseInput(p) in CloseEffect(f).events <==> f.inputStream == Some(p)
    ensures forall p :: CloseOutput(p) in CloseEffect(f).events <==> f.outputStream == Some(p)
    ensures CloseOnly(CloseEffect(f).events)
  {
  }

  /** Every call in `events` closes a port or a stream. */
  predicate CloseOnly(events: seq<Event>)
  {
    forall k :: 0 <= k < |events| ==> events[k].ClosePort? || events[k].CloseInput? || events[k].CloseOutput?
  }

  /** Open and configure succeed and the library hands out both streams. */
  predicate ConnectSucceeds(lib: Library, address: string)
  {
    && address in lib.ports
    && lib.ports[address].opens
    && lib.ports[address].configures
    && lib.ports[address].input.Provided?
    && lib.ports[address].output.Provided?
  }

  /** Some call inside `connect`'s `try` block throws. */
  predicate ConnectThrows(lib: Library, address: string)
  {
    || address !in lib.ports
    || !lib.ports[address].opens
    || !lib.ports[address].configures
    || lib.ports[address].input.Throws?
    || lib.ports[address].output.Throws?
  }

  datatype Connection = Connection(connected: bool, after: After)

  /** The `catch` branch of `connect`: `close()` on the fields as the exception left them, then false. */
  function Thrown(f: Fields, prefix: seq<Event>): Connection
  {
    var c := CloseEffect(f);
    Connection(false, After(c.fields, prefix + c.events))
  }

  /** `connect(address)`. */
  function ConnectEffect(lib: Library, f: Fields, address: string): Connection
  {
    var request := [Open(address)];
    if address !in lib.ports || !lib.ports[address].opens then
      Thrown(f, request)
    else
      var b := lib.ports[address];
      var f1 := f.(serialPort := Some(address));
      if !b.configures || b.input.Throws? then
        Thrown(f1, request)
      else
        var f2 := f1.(inputStream := if b.input.Provided? then Some(address) else None);
        if b.output.Throws? then
          Thrown(f2, request)
        else
          var f3 := f2.(outputStream := if b.output.Provided? then Some(address) else None);
          Connection(f3.inputStream.Some? && f3.outputStream.Some?, After(f3, request))
  }

  /**
   * `connect` reports success exactly when open, configure and both streams
   * succeed, and then holds a full session on `address`.  When a call in its
   * `try` block throws it closes and clears the port handle.  When a stream
   * comes back null it gives up without closing: the port handle stays set.
   */
  lemma ConnectOutcome(lib: Library, f: Fields, address: string)
    ensures var c := ConnectEffect(lib, f, address);
      && (c.connected <==> ConnectSucceeds(lib, address))
      && (c.connected ==>
            c.after.fields == Fields(Some(address), Some(address), Some(address)) &&
            c.after.events == [Open(address)])
      && (ConnectThrows(lib, address) ==> c.after.fields.serialPort.None?)
      && (!ConnectThrows(lib, address) && !ConnectSucceeds(lib, address) ==>
            c.after.fields.serialPort == Some(address) && c.after.events == [Open(address)])
  {
  }

  /**
   * When a call in `connect`'s `try` block throws, `close()` runs on the
   * fields as the exception left them and is the only thing that follows the
   * open attempt; once the port was opened, that close releases it.
   */
  lemma ConnectThrowCloses(lib: Library, f: Fields, address: string)
    requires ConnectThrows(lib, address)
    ensures var c := ConnectEffect(lib, f, address);
      && (exists g :: c.after.events == [Open(address)] + CloseEffect(g).events && c.after.fields == CloseEffect(g).fields)
      && (address in lib.ports && lib.ports[address].opens ==> ClosePort(address) in c.after.events)
      && (!(address in lib.ports && lib.ports[address].opens) ==>
            c.after == After(CloseEffect(f).fields, [Open(address)] + CloseEffect(f).events))
      && c.after.fields.outputStream == f.outputStream
      && !c.connected
  {
    var c := ConnectEffect(lib, f, address);
    var g := if address !in lib.ports || !lib.ports[address].opens then f
             else if !lib.ports[address].configures || lib.ports[address].input.Throws? then f.(serialPort := Some(address))
             else f.(serialPort := Some(address),
                     inputStream := if lib.ports[address].input.Provided? then Some(address) else None);
    assert c.after.events == [Open(address)] + CloseEffect(g).events && c.after.fields == CloseEffect(g).fields;
  }

  /** `connect` opens `address` first; every later call it makes is a close. */
  lemma ConnectTrace(lib: Library, f: Fields, address: string)
    ensures var events := ConnectEffect(lib, f, address).after.events;
      && events != [] && events[0] == Open(address)
      && forall k :: 1 <= k < |events| ==> events[k].ClosePort? || events[k].CloseInput? || events[k].CloseOutput?
  {
    var c := ConnectEffect(lib, f, address);
    if c.after.events != [Open(address)] {
      var g :| c.after.events == [Open(address)] + CloseEffect(g).events;
      CloseReleasesEverything(g);
    }
  }

  /** The port calls of `getProduct`: drain the input, send the id request, read the reply. */
  function ProbeEvents(f: Fields): seq<Event>
    requires f.inputStream.Some? && f.outputStream.Some?
  {
    [Drain(f.inputStream.value), Write(f.outputStream.value, IdRequest), Read(f.inputStream.value)]
  }

  /** The id `getProduct` returns for the reply of port `port`. */
  function ProductId(lib: Library, port: string): (id: string)
    requires port in lib.ports
    ensures |id| <= BufferSize
  {
    Trim(WidenAll(Delivered(lib.ports[port].reply, BufferSize)))
  }

  /**
   * The id is the reply's bytes, widened to chars, with the blanks at both
   * ends cut away; a reply with no bytes (end of stream, a failed read, or
   * nothing sent) gives the empty id.
   */
  lemma ProductIdShape(lib: Library, port: string)
    requires port in lib.ports
    ensures var id := ProductId(lib, port);
      && IsTrimOf(WidenAll(Delivered(lib.ports[port].reply, BufferSize)), id)
      && (id == [] || (!Blank(id[0]) && !Blank(id[|id| - 1])))
      && (!lib.ports[port].reply.Bytes? || lib.ports[port].reply.data == [] ==> id == "")
  {
    TrimIsTrim(WidenAll(Delivered(lib.ports[port].reply, BufferSize)));
  }

  /** One pass of the loop body in `search`: connect, and if that worked, probe and close. */
  datatype Attempt = Attempt(connected: bool, matched: bool, after: After)

  function AttemptEffect(lib: Library, f: Fields, address: string, target: string): Attempt
  {
    var c := ConnectEffect(lib, f, address);
    if !c.connected then
      Attempt(false, false, c.after)
    else
      var closed := CloseEffect(c.after.fields);
      Attempt(true, EqualsIgnoreCase(ProductId(lib, address), target),
              After(closed.fields, c.after.events + ProbeEvents(c.after.fields) + closed.events))
  }

  /**
   * Every successful connect is followed by the probe and then by exactly
   * one close of that same port before the attempt ends; a port whose
   * connect fails is never probed.  An attempt opens only its own port.
   */
  lemma AttemptSession(lib: Library, f: Fields, address: string, target: string)
    ensures var a := AttemptEffect(lib, f, address, target);
      && (a.connected <==> ConnectSucceeds(lib, address))
      && (a.matched <==> Accepts(lib, address, target))
      && (a.connected ==>
            a.after.events == [Open(address), Drain(address), Write(address, IdRequest), Read(address),
                               ClosePort(address), CloseInput(address), CloseOutput(address)] &&
            a.after.fields == Fields(None, Some(address), Some(address)))
      && (!a.connected ==> forall k :: 0 <= k < |a.after.events| ==>
                              !a.after.events[k].Drain? && !a.after.events[k].Write? && !a.after.events[k].Read?)
      && a.after.events != [] && a.after.events[0] == Open(address)
      && (forall k :: 1 <= k < |a.after.events| ==> !a.after.events[k].Open?)
  {
    ConnectOutcome(lib, f, address);
    ConnectTrace(lib, f, address);
    var c := ConnectEffect(lib, f, address);
    if c.connected {
      var probe := ProbeEvents(c.after.fields);
      var closed := CloseEffect(c.after.fields);
      assert closed.events == [ClosePort(address), CloseInput(address), CloseOutput(address)];
      assert probe == [Drain(address), Write(address, IdRequest), Read(address)];
      var events := c.after.events + probe + closed.events;
      assert events == [Open(address), Drain(address), Write(address, IdRequest), Read(address),
                        ClosePort(address), CloseInput(address), CloseOutput(address)];
    }
  }

  lemma AppendThree<T>(t: seq<T>, a: seq<T>, b: seq<T>, c: seq<T>)
    ensures t + a + b + c == t + (a + b + c)
  {
  }

  // ----------------------------------------------------------------- scan

  datatype Scan = Scan(found: Option<string>, after: After)

  /** `search(target)` from index `i` down to 0, starting from fields `f`. */
  function ScanEffect(lib: Library, ports: seq<string>, target: string, f: Fields, i: int): Scan
    requires -1 <= i < |ports|
    decreases i + 1
  {
    if i < 0 then
      Scan(None, After(f, []))
    else
      var a := AttemptEffect(lib, f, ports[i], target);
      if a.matched then
        Scan(Some(ports[i]), a.after)
      else
        var rest := ScanEffect(lib, ports, target, a.after.fields, i - 1);
        Scan(rest.found, After(rest.after.fields, a.after.events + rest.after.events))
  }

  /** One step of the scan: try port `i`; stop on a match, otherwise go on below it from the fields the attempt left. */
  lemma ScanStep(lib: Library, ports: seq<string>, target: string, f: Fields, i: int)
    requires 0 <= i < |ports|
    ensures var a := AttemptEffect(lib, f, ports[i], target);
            var s := ScanEffect(lib, ports, target, f, i);
            var rest := ScanEffect(lib, ports, target, a.after.fields, i - 1);
      && (a.matched ==> s.found == Some(ports[i]) && s.after == a.after)
      && (!a.matched ==> s.found == rest.found && s.after.fields == rest.after.fields &&
                         s.after.events == a.after.events + rest.after.events)
  {
  }

  /** The port connects and reports the target id. */
  predicate Accepts(lib: Library, address: string, target: string)
  {
    ConnectSucceeds(lib, address) && EqualsIgnoreCase(ProductId(lib, address), target)
  }

  /** The highest index at or below `i` whose port accepts, if any. */
  function Winner(lib: Library, ports: seq<string>, target: string, i: int): (w: Option<nat>)
    requires -1 <= i < |ports|
    ensures w.Some? ==> w.value <= i && Accepts(lib, ports[w.value], target)
    ensures w.Some? ==> forall k :: w.value < k <= i ==> !Accepts(lib, ports[k], target)
    ensures w.None? ==> forall k :: 0 <= k <= i ==> !Accepts(lib, ports[k], target)
    decreases i + 1
  {
    if i < 0 then None
    else if Accepts(lib, ports[i], target) then Some(i)
    else Winner(lib, ports, target, i - 1)
  }

  /** The scan returns the winner's name, or null when no port accepts, whatever the fields held. */
  lemma {:induction false} ScanFindsWinner(lib: Library, ports: seq<string>, target: string, f: Fields, i: int)
    requires -1 <= i < |ports|
    ensures ScanEffect(lib, ports, target, f, i).found ==
            match Winner(lib, ports, target, i)
            case None => None
            case Some(j) => Some(ports[j])
    decreases i + 1
  {
    if i >= 0 {
      var a := AttemptEffect(lib, f, ports[i], target);
      AttemptSession(lib, f, ports[i], target);
      if !a.matched {
        ScanFindsWinner(lib, ports, target, a.after.fields, i - 1);
      }
    }
  }

  /** The ports named by the `Open` calls of a trace, in order. */
  function Opened(events: seq<Event>): seq<string>
  {
    if events == [] then []
    else (if events[0].Open? then [events[0].port] else []) + Opened(events[1..])
  }

  lemma {:induction false} OpenedConcat(a: seq<Event>, b: seq<Event>)
    ensures Opened(a + b) == Opened(a) + Opened(b)
  {
    if a != [] {
      assert (a + b)[1..] == a[1..] + b;
      OpenedConcat(a[1..], b);
    } else {
      assert a + b == b;
    }
  }

  /** Only the first call of an attempt is an `Open`, and it names the attempted port. */
  lemma {:induction false} AttemptOpensOnce(lib: Library, f: Fields, address: string, target: string)
    ensures Opened(AttemptEffect(lib, f, address, target).after.events) == [address]
  {
    AttemptSession(lib, f, address, target);
    var ev := AttemptEffect(lib, f, address, target).after.events;
    assert ev == [ev[0]] + ev[1..];
    OpenedConcat([ev[0]], ev[1..]);
    assert forall k :: 0 <= k < |ev[1..]| ==> ev[1..][k] == ev[k + 1];
    NoOpens(ev[1..]);
  }

  lemma {:induction false} NoOpens(events: seq<Event>)
    requires forall k :: 0 <= k < |events| ==> !events[k].Open?
    ensures Opened(events) == []
  {
    if events != [] {
      NoOpens(events[1..]);
    }
  }

  /** `ports[hi]`, `ports[hi - 1]`, ..., `ports[lo]`. */
  function Downward(ports: seq<string>, lo: nat, hi: int): seq<string>
    requires hi < |ports|
    decreases hi - lo + 1
  {
    if hi < lo then [] else [ports[hi]] + Downward(ports, lo, hi - 1)
  }

  /**
   * The scan opens the ports one at a time from index `i` down, and stops at
   * the winner: lower indices are never tried.  Without a winner it has
   * tried every port down to index 0.
   */
  lemma {:induction false} ScanVisitsDownward(lib: Library, ports: seq<string>, target: string, f: Fields, i: int)
    requires -1 <= i < |ports|
    ensures Opened(ScanEffect(lib, ports, target, f, i).after.events) ==
            Downward(ports, match Winner(lib, ports, target, i) case None => 0 case Some(j) => j, i)
    decreases i + 1
  {
    if i >= 0 {
      var a := AttemptEffect(lib, f, ports[i], target);
      AttemptSession(lib, f, ports[i], target);
      AttemptOpensOnce(lib, f, ports[i], target);
      if a.matched {
        assert Winner(lib, ports, target, i) == Some(i);
        assert Downward(ports, i, i) == [ports[i]] + Downward(ports, i, i - 1);
      } else {
        var w := Winner(lib, ports, target, i - 1);
        assert Winner(lib, ports, target, i) == w;
        var lo := match w case None => 0 case Some(j) => j;
        var rest := ScanEffect(lib, ports, target, a.after.fields, i - 1);
        assert ScanEffect(lib, ports, target, f, i).after.events == a.after.events + rest.after.events;
        OpenedConcat(a.after.events, rest.after.events);
        ScanVisitsDownward(lib, ports, target, a.after.fields, i - 1);
        assert Downward(ports, lo, i) == [ports[i]] + Downward(ports, lo, i - 1);
      }
    }
  }

  /** `search` answers null exactly when no port accepts, and only after opening every port. */
  lemma SearchNotFound(lib: Library, ports: seq<string>, target: string, f: Fields)
    ensures var s := ScanEffect(lib, ports, target, f, |ports| - 1);
            (s.found.None? <==> forall k :: 0 <= k < |ports| ==> !Accepts(lib, ports[k], target)) &&
            (s.found.None? ==> Opened(s.after.events) == Downward(ports, 0, |ports| - 1))
  {
    ScanFindsWinner(lib, ports, target, f, |ports| - 1);
    ScanVisitsDownward(lib, ports, target, f, |ports| - 1);
  }

  // ---------------------------------------------------------------- class

  /** The finder object: the port list it built on construction and the handle of the port being probed. */
  class Find {
    const lib: Library
    var serialPort: Option<string>
    var inputStream: Option<string>
    var outputStream: Option<string>
    var ports: seq<string>
    ghost var trace: seq<Event>

    function State(): Fields
      reads this
    {
      Fields(serialPort, inputStream, outputStream)
    }

    /** `Find()`: no handle open, and the serial ports listed. */
    constructor (lib: Library)
      ensures this.lib == lib
      ensures ports == SerialNames(lib.identifiers)
      ensures State() == Fields(None, None, None) && trace == []
    {
      this.lib := lib;
      serialPort, inputStream, outputStream := None, None, None;
      ports := [];
      trace := [];
      new;
      GetAvailableSerialPorts();
    }

    /** `getAvailableSerialPorts()`: appends the name of every serial-type port, in enumeration order. */
    method GetAvailableSerialPorts()
      modifies this`ports
      ensures ports == old(ports) + SerialNames(lib.identifiers)
    {
      var ids := lib.identifiers;
      var k := 0;
      while k < |ids|
        invariant 0 <= k <= |ids|
        invariant ports == old(ports) + SerialNames(ids[..k])
      {
        var com := ids[k];
        if com.portType == Serial {
          ports := ports + [com.name];
        }
        SerialNamesConcat(ids[..k], [com]);
        assert ids[..k + 1] == ids[..k] + [com];
        k := k + 1;
      }
      assert ids[..k] == ids;
    }

    /** `connect(address)`. */
    method Connect(address: string) returns (connected: bool)
      modifies this`serialPort, this`inputStream, this`outputStream, this`trace
      ensures var c := ConnectEffect(lib, old(State()), address);
              connected == c.connected && State() == c.after.fields && trace == old(trace) + c.after.events
    {
      trace := trace + [Open(address)];
      var thrown := address !in lib.ports || !lib.ports[address].opens;
      if !thrown {
        var b := lib.ports[address];
        serialPort := Some(address);
        thrown := !b.configures || b.input.Throws?;
        if !thrown {
          inputStream := if b.input.Provided? then Some(address) else None;
          thrown := b.output.Throws?;
        }
        if !thrown {
          outputStream := if b.output.Provided? then Some(address) else None;
        }
      }
      if thrown {
        Close();
        return false;
      }
      if inputStream.None? {
        return false;
      }
      if outputStream.None? {
        return false;
      }
      return true;
    }

    /** `close()`. */
    method Close()
      modifies this`serialPort, this`trace
      ensures var c := CloseEffect(old(State()));
              State() == c.fields && trace == old(trace) + c.events
    {
      ghost var port, input, output: seq<Event> := [], [], [];
      if serialPort.Some? {
        port := [ClosePort(serialPort.value)];
        trace := trace + port;
        serialPort := None;
      }
      // a failure closing the input stream is caught and only logged
      if inputStream.Some? {
        input := [CloseInput(inputStream.value)];
        trace := trace + input;
      }
      if outputStream.Some? {
        output := [CloseOutput(outputStream.value)];
        trace := trace + output;
      }
      assert trace == old(trace) + (port + input + output);
    }

    /** `getProduct()`: drain, send the id request, read at most 32 bytes, widen them to chars and trim. */
    method GetProduct() returns (id: string)
      requires inputStream.Some? && outputStream.Some? && inputStream.value in lib.ports
      modifies this`trace
      ensures id == ProductId(lib, inputStream.value)
      ensures trace == old(trace) + ProbeEvents(State())
    {
      var buffer := new byte[BufferSize];
      var device := "";
      var input, output := inputStream.value, outputStream.value;
      trace := trace + [Drain(input)];
      trace := trace + [Write(output, IdRequest)];
      var read := 0;
      var result := ReadInto(lib.ports[input].reply, buffer);
      trace := trace + [Read(input)];
      if result.Count? {
        read := result.n;
      }
      ghost var received := Delivered(lib.ports[input].reply, BufferSize);
      assert read <= 0 ==> received == [];
      var j := 0;
      while j < read
        invariant 0 <= j <= |received| <= buffer.Length
        invariant read > 0 ==> read == |received|
        invariant buffer[..|received|] == received
        invariant device == WidenAll(buffer[..j])
      {
        assert buffer[..j + 1] == buffer[..j] + [buffer[j]];
        device := device + [Widen(buffer[j])];
        j := j + 1;
      }
      assert buffer[..j] == received;
      id := Trim(device);
    }

    /** One pass of the loop body of `search`: connect, and if that worked, ask for the id and close. */
    method TryPort(address: string, target: string) returns (matched: bool)
      modifies this`serialPort, this`inputStream, this`outputStream, this`trace
      ensures var a := AttemptEffect(lib, old(State()), address, target);
              matched == a.matched && State() == a.after.fields && trace == old(trace) + a.after.events
    {
      ghost var c := ConnectEffect(lib, State(), address);
      ConnectOutcome(lib, State(), address);
      var connected := Connect(address);
      matched := false;
      if connected {
        ghost var connectedAt := State();
        assert connectedAt == Fields(Some(address), Some(address), Some(address));
        var id := GetProduct();
        matched := EqualsIgnoreCase(id, target);
        Close();
        AppendThree(old(trace), c.after.events, ProbeEvents(connectedAt), CloseEffect(connectedAt).events);
      }
    }

    /** `search(target)`. */
    method Search(target: string) returns (port: Option<string>)
      modifies this`serialPort, this`inputStream, this`outputStream, this`trace
      ensures ports == old(ports)
      ensures var s := ScanEffect(lib, ports, target, old(State()), |ports| - 1);
              port == s.found && State() == s.after.fields && trace == old(trace) + s.after.events
    {
      ghost var whole := ScanEffect(lib, ports, target, State(), |ports| - 1);
      var i := |ports| - 1;
      while i >= 0
        invariant -1 <= i < |ports|
        invariant var s := ScanEffect(lib, ports, target, State(), i);
                  whole.found == s.found && whole.after.fields == s.after.fields &&
                  old(trace) + whole.after.events == trace + s.after.events
      {
        ghost var before, traceBefore := State(), trace;
        ScanStep(lib, ports, target, before, i);
        var matched := TryPort(ports[i], target);
        if matched {
          return Some(ports[i]);
        }
        ghost var rest := ScanEffect(lib, ports, target, State(), i - 1);
        assert trace + rest.after.events == traceBefore + (AttemptEffect(lib, before, ports[i], target).after.events + rest.after.events);
        i := i - 1;
      }
      return None;
    }
  }
}
