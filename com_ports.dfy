/** Serial-port enumeration items and device-name parsing
    (app/com_ports.py). A combo-box item is either `"<device> (<description>)"`,
    a bare device name, or one of two placeholders that start with `<`. */
module ComPorts {
  import opened Wrappers
  import opened Text

  const NO_PORTS := "<no ports detected>"
  const NO_PYSERIAL := "<pyserial not installed>"

  /** The separator between a device and its description. */
  const DESCRIPTION_OPEN := " ("

  /** One entry of `list_ports.comports()`: the device name and, when the
      driver reports one, a description. */
  datatype PortInfo = PortInfo(device: string, description: Option<string>)

  /** What enumerating the ports produced: pyserial missing, an exception,
      or the list of ports. */
  datatype Enumeration = PyserialMissing | EnumerationRaised | Listed(ports: seq<PortInfo>)

  /** Python truthiness of an optional string. */
  predicate Truthy(s: Option<string>) {
    s.Some? && s.value != ""
  }

  /** The combo item for one port: the device, followed by the description in
      parentheses when there is a non-empty one. */
  function FormatItem(p: PortInfo): string {
    if Truthy(p.description) then p.device + DESCRIPTION_OPEN + p.description.value + ")"
    else p.device
  }

  /** The list comprehension of `get_ports_list`: one item per port, in order. */
  function FormatItems(ports: seq<PortInfo>): (items: seq<string>)
    ensures |items| == |ports|
    ensures forall i :: 0 <= i < |items| ==> items[i] == FormatItem(ports[i])
  {
    if ports == [] then [] else [FormatItem(ports[0])] + FormatItems(ports[1..])
  }

  /** `get_ports_list()`: never empty; a placeholder when nothing can be shown. */
  function GetPortsList(e: Enumeration): (items: seq<string>)
    ensures |items| >= 1
    ensures e.PyserialMissing? ==> items == [NO_PYSERIAL]
    ensures e.EnumerationRaised? || (e.Listed? && e.ports == []) ==> items == [NO_PORTS]
    ensures e.Listed? && e.ports != [] ==>
      |items| == |e.ports| && forall i :: 0 <= i < |items| ==> items[i] == FormatItem(e.ports[i])
  {
    match e
    case PyserialMissing => [NO_PYSERIAL]
    case EnumerationRaised => [NO_PORTS]
    case Listed(ports) =>
      if ports == [] then [NO_PORTS] else FormatItems(ports)
  }

  /** `_extract_device`: nothing for an empty or missing text; otherwise the
      text before the first `" ("`, or the whole text, stripped. */
  function ExtractDevice(text: Option<string>): (r: Option<string>)
    ensures r.None? <==> !Truthy(text)
  {
    if !Truthy(text) then None
    else if Contains(text.value, DESCRIPTION_OPEN) then Some(PyStrip(BeforeFirst(text.value, DESCRIPTION_OPEN)))
    else Some(PyStrip(text.value))
  }

  /** `parse_device_from_item`, the public name of `_extract_device`. */
  function ParseDeviceFromItem(text: Option<string>): Option<string> {
    ExtractDevice(text)
  }

  /** The guard shared by `send_command_to_port_item` and
      `MainWindow.start_reader`: a non-empty device that is not a placeholder. */
  predicate Selectable(dev: Option<string>) {
    dev.Some? && dev.value != "" && !StartsWith(dev.value, "<")
  }

  /** A device name that survives formatting and parsing: non-empty, no
      `" ("` inside, no whitespace at either end. */
  predicate WellFormedDevice(d: string) {
    d != [] && !Contains(d, DESCRIPTION_OPEN) && d[0] !in PY_WHITESPACE && d[|d| - 1] !in PY_WHITESPACE
  }

  lemma StripWellFormed(d: string)
    requires WellFormedDevice(d)
    ensures PyStrip(d) == d
  {
  }

  /** Parsing a formatted item gives back the device. */
  lemma {:induction false} ExtractFormatRoundTrip(p: PortInfo)
    requires WellFormedDevice(p.device)
    ensures ExtractDevice(Some(FormatItem(p))) == Some(p.device)
  {
    var d := p.device;
    StripWellFormed(d);
    if Truthy(p.description) {
      var item := FormatItem(p);
      var rest := p.description.value + ")";
      assert item == d + DESCRIPTION_OPEN + rest;
      forall i | 0 <= i < |d| ensures !OccursAt(item, DESCRIPTION_OPEN, i) {
        if i + 1 < |d| {
          assert item[i..i + 2] == d[i..i + 2];
          assert !OccursAt(d, DESCRIPTION_OPEN, i);
        } else {
          assert item[i] == d[|d| - 1];
        }
      }
      assert OccursAt(item, DESCRIPTION_OPEN, |d|) by {
        assert item[|d|..|d| + 2] == DESCRIPTION_OPEN;
      }
      BeforeFirstOfJoin(d, DESCRIPTION_OPEN, rest);
    }
  }

  /** Every item of a successful enumeration parses back to its port's device. */
  lemma ListedItemsParse(ports: seq<PortInfo>, i: nat)
    requires i < |ports| && forall k :: 0 <= k < |ports| ==> WellFormedDevice(ports[k].device)
    ensures ExtractDevice(Some(GetPortsList(Listed(ports))[i])) == Some(ports[i].device)
  {
    ExtractFormatRoundTrip(ports[i]);
  }

  /** Both placeholders parse to a name starting with `<`, which no guard lets
      through. */
  lemma {:induction false} PlaceholdersNotSelectable(e: Enumeration)
    requires e.PyserialMissing? || e.EnumerationRaised? || (e.Listed? && e.ports == [])
    ensures ExtractDevice(Some(GetPortsList(e)[0])).Some?
    ensures StartsWith(ExtractDevice(Some(GetPortsList(e)[0])).value, "<")
    ensures !Selectable(ExtractDevice(Some(GetPortsList(e)[0])))
  {
    var item := GetPortsList(e)[0];
    if e.PyserialMissing? {
      assert item == NO_PYSERIAL;
      assert forall k :: 0 <= k < |NO_PYSERIAL| ==> NO_PYSERIAL[k] != '(';
    } else {
      assert item == NO_PORTS;
      assert forall k :: 0 <= k < |NO_PORTS| ==> NO_PORTS[k] != '(';
    }
    PlaceholderNotSelectable(item);
  }

  lemma PlaceholderNotSelectable(item: string)
    requires |item| >= 2 && item[0] == '<' && item[|item| - 1] == '>'
    requires forall k :: 0 <= k < |item| ==> item[k] != '('
    ensures ExtractDevice(Some(item)) == Some(item)
    ensures StartsWith(item, "<")
  {
    PlaceholderParsesToItself(item);
    assert item[..1] == "<";
  }

  lemma NoParenNoDescription(s: string)
    requires forall k :: 0 <= k < |s| ==> s[k] != '('
    ensures !Contains(s, DESCRIPTION_OPEN)
  {
    forall i | 0 <= i && i + 2 <= |s| ensures !OccursAt(s, DESCRIPTION_OPEN, i) {
      assert s[i..i + 2][1] == s[i + 1];
    }
  }

  lemma PlaceholderParsesToItself(item: string)
    requires |item| >= 2 && item[0] == '<' && item[|item| - 1] == '>'
    requires forall k :: 0 <= k < |item| ==> item[k] != '('
    ensures ExtractDevice(Some(item)) == Some(item)
  {
    NoParenNoDescription(item);
    assert item[0] !in PY_WHITESPACE && item[|item| - 1] !in PY_WHITESPACE;
    assert TrimLeft(item, PY_WHITESPACE) == item;
    assert TrimRight(item, PY_WHITESPACE) == item;
  }

  /** The serial library as seen by a one-shot write: whether pyserial can be
      imported, and whether opening the device, writing and flushing succeed. */
  datatype DirectPort = DirectPort(pyserialInstalled: bool, writeSucceeds: bool)

  /** What a one-shot write did: nothing opened, the bytes written to a device,
      or the open/write on a device failed. */
  datatype DirectSend = NotOpened | Written(device: string, data: string) | WriteFailed(device: string)

  /** `send_command_to_port_item`; `Written?` is its True return. */
  function SendCommandToPortItem(item: string, command: string, port: DirectPort): (r: DirectSend)
    ensures !Selectable(ParseDeviceFromItem(Some(item))) || !port.pyserialInstalled ==> r == NotOpened
    ensures r.Written? <==> port.pyserialInstalled && Selectable(ParseDeviceFromItem(Some(item))) && port.writeSucceeds
    ensures !r.NotOpened? ==> r.device == ParseDeviceFromItem(Some(item)).value
    ensures r.Written? ==> r.data == command
  {
    if !port.pyserialInstalled then NotOpened
    else
      var dev := ExtractDevice(Some(item));
      if !Selectable(dev) then NotOpened
      else if port.writeSucceeds then Written(dev.value, command)
      else WriteFailed(dev.value)
  }
}
