/** One serial link (app/ui.py, `SerialReader`): a worker that keeps a port
    open, delivers every non-empty received line, and drains an outbound
    command queue whenever a read returns. The port itself is an oracle: each
    pass of the loop is told whether opening succeeds, what the read returned
    and which writes succeed. */
module SerialLink {
  import opened Text

  /** The command as put on the wire: with a trailing newline. */
  function Terminated(cmd: string): string {
    if EndsWith(cmd, "\n") then cmd else cmd + "\n"
  }

  /** Terminating is idempotent and always leaves a newline at the end, so a
    command put back after a failed write is sent unchanged the next time. */
  lemma TerminatedIdempotent(cmd: string)
    ensures EndsWith(Terminated(cmd), "\n")
    ensures Terminated(Terminated(cmd)) == Terminated(cmd)
  {
    if !EndsWith(cmd, "\n") {
      var t := cmd + "\n";
      assert t[|t| - 1..] == "\n";
    }
  }

  /** What a queue of commands will put on the wire, in order. */
  function WireForm(q: seq<string>): seq<string> {
    if q == [] then [] else [Terminated(q[0])] + WireForm(q[1..])
  }

  lemma {:induction false} WireFormAppend(a: seq<string>, b: seq<string>)
    ensures WireForm(a + b) == WireForm(a) + WireForm(b)
  {
    if a == [] {
      assert a + b == b;
    } else {
      assert (a + b)[1..] == a[1..] + b;
      WireFormAppend(a[1..], b);
    }
  }

  lemma WirePrefixStep(q: seq<string>, k: nat)
    requires k < |q|
    ensures WireForm(q[..k + 1]) == WireForm(q[..k]) + [Terminated(q[k])]
  {
    assert q[..k + 1] == q[..k] + [q[k]];
    WireFormAppend(q[..k], [q[k]]);
  }

  /** Putting the terminated `k`-th command back at the head of the rest of
    the queue leaves what will reach the wire unchanged. */
  lemma PutBackKeepsWire(q: seq<string>, k: nat)
    requires k < |q|
    ensures WireForm(q[..k]) + WireForm([Terminated(q[k])] + q[k + 1..]) == WireForm(q)
    ensures |[Terminated(q[k])] + q[k + 1..]| == |q| - k
  {
    TerminatedIdempotent(q[k]);
    WireFormAppend([Terminated(q[k])], q[k + 1..]);
    WireFormAppend([q[k]], q[k + 1..]);
    assert [q[k]] + q[k + 1..] == q[k..];
    WireFormAppend(q[..k], q[k..]);
    assert q[..k] + q[k..] == q;
  }

  /** What a drain that stopped after `k` writes leaves owed or written is
    what was owed or written before it. */
  lemma DrainedOutbound(w0: seq<string>, q0: seq<string>, k: nat)
    requires k <= |q0|
    ensures k == |q0| ==> q0[..k] == q0 && (w0 + WireForm(q0[..k])) + WireForm([]) == w0 + WireForm(q0)
    ensures k < |q0| ==>
      (w0 + WireForm(q0[..k])) + WireForm([Terminated(q0[k])] + q0[k + 1..]) == w0 + WireForm(q0)
  {
    if k < |q0| {
      var b, c := WireForm(q0[..k]), WireForm([Terminated(q0[k])] + q0[k + 1..]);
      PutBackKeepsWire(q0, k);
      assert (w0 + b) + c == w0 + (b + c);
    } else {
      assert q0[..k] == q0;
    }
  }

  /** The number of leading write attempts, out of `n`, that succeed,
    counting from attempt `k`. */
  function Accepted(n: nat, writeOk: nat -> bool, k: nat): (r: nat)
    requires k <= n
    ensures k <= r <= n
    decreases n - k
  {
    if k == n || !writeOk(k) then k else Accepted(n, writeOk, k + 1)
  }

  /** The accepted attempts are exactly those before the first failure. */
  lemma {:induction false} AcceptedIsFirstFailure(n: nat, writeOk: nat -> bool, k: nat)
    requires k <= n
    ensures forall j :: k <= j < Accepted(n, writeOk, k) ==> writeOk(j)
    ensures Accepted(n, writeOk, k) < n ==> !writeOk(Accepted(n, writeOk, k))
    decreases n - k
  {
    if k < n && writeOk(k) {
      AcceptedIsFirstFailure(n, writeOk, k + 1);
    }
  }

  /** What one `readline()` gave: an exception, a timeout with no data, or a
      decoded line (undecodable bytes already dropped). */
  datatype ReadResult = ReadRaised | NoData | Data(text: string)

  /** The port's behaviour during one pass of the worker loop: whether
      opening succeeds (asked only when no port is open), what the read
      returns, and whether the `k`-th write of the pass succeeds. */
  datatype PassIo = PassIo(opens: bool, read: ReadResult, writeOk: nat -> bool)

  /** Whether a port is open once the pass has tried to open one. */
  predicate OpenAfterOpen(connected: bool, io: PassIo) {
    connected || io.opens
  }

  /** The pass drains the queue: the open attempt succeeded and the read
      returned without raising. */
  predicate Drains(connected: bool, io: PassIo) {
    OpenAfterOpen(connected, io) && !io.read.ReadRaised?
  }

  /** The line a pass delivers, if any. */
  function PassLines(connected: bool, io: PassIo): (r: seq<string>)
    ensures |r| <= 1
    ensures r != [] ==> io.read.Data? && r == [PyStrip(io.read.text)] && r[0] != ""
    ensures OpenAfterOpen(connected, io) && io.read.Data? && PyStrip(io.read.text) != "" ==> r == [PyStrip(io.read.text)]
  {
    if OpenAfterOpen(connected, io) && io.read.Data? && PyStrip(io.read.text) != "" then [PyStrip(io.read.text)] else []
  }

  /** Connection state and queue length after draining `n` queued commands
    over an open port. */
  function DrainState(n: nat, writeOk: nat -> bool): (bool, nat) {
    var k := Accepted(n, writeOk, 0);
    if k == n then (true, 0) else (false, n - k)
  }

  /** Connection state and queue length after a pass. */
  function PassState(connected: bool, n: nat, io: PassIo): (bool, nat) {
    if !Drains(connected, io) then (false, n)
    else DrainState(n, io.writeOk)
  }

  /** The lines delivered by a sequence of passes, in order. */
  function Delivered(connected: bool, n: nat, script: seq<PassIo>): seq<string>
    decreases |script|
  {
    if script == [] then []
    else
      var s := PassState(connected, n, script[0]);
      PassLines(connected, script[0]) + Delivered(s.0, s.1, script[1..])
  }

  lemma DeliveredUnfold(connected: bool, n: nat, script: seq<PassIo>, i: nat)
    requires i < |script|
    ensures var s := PassState(connected, n, script[i]);
      Delivered(connected, n, script[i..]) == PassLines(connected, script[i]) + Delivered(s.0, s.1, script[i + 1..])
  {
    assert script[i..][0] == script[i];
    assert script[i..][1..] == script[i + 1..];
  }

  /** One pass moves its delivered line, if any, from the pending part of
    the trace to the emitted part. */
  lemma DeliveredStep(e: seq<string>, connected: bool, n: nat, script: seq<PassIo>, i: nat, goal: seq<string>)
    requires i < |script|
    requires e + Delivered(connected, n, script[i..]) == goal
    ensures var s := PassState(connected, n, script[i]);
      (e + PassLines(connected, script[i])) + Delivered(s.0, s.1, script[i + 1..]) == goal
  {
    DeliveredUnfold(connected, n, script, i);
  }

  class SerialReader {
    const device: string
    const role: string
    const baud: int
    /** `_stop` */
    var stopRequested: bool
    /** `_ser is not None` */
    var connected: bool
    /** `_out_queue` */
    var queue: seq<string>
    /** Everything `write` + `flush` has put on the port, command by command. */
    var written: seq<string>
    /** Every line emitted through `line_received`, in order. */
    var emitted: seq<string>

    constructor (device: string, role: string, baud: int)
      ensures this.device == device && this.role == role && this.baud == baud
      ensures !stopRequested && !connected && queue == [] && written == [] && emitted == []
    {
      this.device := device;
      this.role := role;
      this.baud := baud;
      stopRequested := false;
      connected := false;
      queue := [];
      written := [];
      emitted := [];
    }

    /** Everything still owed to the wire or already on it, in order. */
    function Outbound(): seq<string>
      reads this`written, this`queue
    {
      written + WireForm(queue)
    }

    method Stop()
      modifies this`stopRequested
      ensures stopRequested
    {
      stopRequested := true;
    }

    /** `send_line`: refused once stopped, otherwise queued at the tail. */
    method SendLine(line: string) returns (ok: bool)
      modifies this`queue
      ensures ok == !stopRequested
      ensures queue == if ok then old(queue) + [line] else old(queue)
      ensures ok ==> Outbound() == old(Outbound()) + [Terminated(line)]
    {
      if stopRequested {
        return false;
      }
      queue := queue + [line];
      WireFormAppend(old(queue), [line]);
      return true;
    }

    /** The drain loop run after every read that did not raise: pop commands
      from the head, terminate each with a newline, write it; on the first
      failed write put it back at the head and drop the port. */
    method Drain(writeOk: nat -> bool)
      modifies this`queue, this`written, this`connected
      ensures Outbound() == old(Outbound())
      ensures !old(connected) ==> queue == old(queue) && written == old(written) && !connected
      ensures old(connected) ==>
        var k := Accepted(|old(queue)|, writeOk, 0);
        && written == old(written) + WireForm(old(queue)[..k])
        && (k == |old(queue)| ==> connected && queue == [])
        && (k < |old(queue)| ==> !connected && queue == [Terminated(old(queue)[k])] + old(queue)[k + 1..])
      ensures old(connected) ==> (connected, |queue|) == DrainState(|old(queue)|, writeOk)
    {
      ghost var q0 := queue;
      ghost var n := Accepted(|q0|, writeOk, 0);
      var k := 0;
      while queue != []
        invariant 0 <= k <= |q0| && queue == q0[k..]
        invariant written == old(written) + WireForm(q0[..k])
        invariant connected == old(connected)
        invariant k > 0 ==> connected
        invariant connected ==> n == Accepted(|q0|, writeOk, k)
        decreases |queue|
      {
        var cmd := queue[0];
        queue := queue[1..];
        if !connected {
          queue := [cmd] + queue;
          assert queue == q0;
          break;
        }
        if !EndsWith(cmd, "\n") {
          cmd := cmd + "\n";
        }
        if writeOk(k) {
          written := written + [cmd];
          WirePrefixStep(q0, k);
          k := k + 1;
        } else {
          queue := [cmd] + queue;
          connected := false;
          break;
        }
      }
      if old(connected) {
        DrainedOutbound(old(written), q0, k);
      }
    }

    /** One pass of the worker loop `while not self._stop`. */
    method Pass(io: PassIo)
      modifies this`queue, this`written, this`connected, this`emitted
      ensures Outbound() == old(Outbound())
      ensures emitted == old(emitted) + PassLines(old(connected), io)
      ensures (connected, |queue|) == PassState(old(connected), |old(queue)|, io)
    {
      if !connected {
        if io.opens {
          connected := true;
        } else {
          return;
        }
      }
      match io.read
      case ReadRaised =>
        connected := false;
      case NoData =>
        Drain(io.writeOk);
      case Data(text) =>
        var line := PyStrip(text);
        if line != "" {
          emitted := emitted + [line];
        }
        Drain(io.writeOk);
    }

    /** The passes of `run()` made before `stop()` is observed. */
    method Passes(script: seq<PassIo>)
      modifies this`queue, this`written, this`connected, this`emitted
      ensures Outbound() == old(Outbound())
      ensures emitted == old(emitted) + Delivered(old(connected), |old(queue)|, script)
    {
      var i := 0;
      ghost var goal := emitted + Delivered(connected, |queue|, script);
      ghost var c, n := connected, |queue|;
      ghost var out := Outbound();
      assert script[0..] == script;
      while i < |script|
        invariant 0 <= i <= |script|
        invariant Outbound() == out
        invariant c == connected && n == |queue|
        invariant emitted + Delivered(c, n, script[i..]) == goal
      {
        DeliveredStep(emitted, c, n, script, i, goal);
        var s := PassState(c, n, script[i]);
        Pass(script[i]);
        c, n := s.0, s.1;
        i := i + 1;
      }
      assert script[i..] == [];
    }

    /** `run()`: the passes made before `stop()` is observed, then the port is
      closed. Without pyserial the worker returns at once; a reader stopped
      before its thread starts makes no pass. */
    method Run(pyserialInstalled: bool, script: seq<PassIo>)
      modifies this`queue, this`written, this`connected, this`emitted
      ensures Outbound() == old(Outbound())
      ensures pyserialInstalled ==> !connected
      ensures !pyserialInstalled || old(stopRequested) ==> emitted == old(emitted) && queue == old(queue)
      ensures pyserialInstalled && !old(stopRequested) ==>
        emitted == old(emitted) + Delivered(old(connected), |old(queue)|, script)
    {
      if pyserialInstalled {
        if !stopRequested {
          Passes(script);
        }
        connected := false;
      }
    }
  }
}
