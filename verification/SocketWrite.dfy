/** `writeFull` (tcp_connection.go): the loop that puts one frame on a socket whose writes may be short or fail. */
module SocketWrite {
  import opened Bytes
  import opened FrameDecoding
  import Connection

  /** How one `Write` turns out: the count it reports, whether it fails, and, when the count is out of range, how
      much of the data it put on the wire all the same. */
  datatype Outcome = Outcome(reported: int, failed: bool, stray: nat)

  datatype WriteError = ShortWrite | Failure | NoProgress

  /** How the `i`-th write turns out; with the script exhausted every write fails. */
  function OutcomeOf(script: seq<Outcome>, i: nat): Outcome
  {
    if i < |script| then script[i] else Outcome(0, true, 0)
  }

  /** The sum of the counts that the first `n` writes report. */
  function Reported(script: seq<Outcome>, n: nat): int
  {
    if n == 0 then 0 else Reported(script, n - 1) + OutcomeOf(script, n - 1).reported
  }

  /** A write of `left` bytes that got some of them through. */
  predicate Progress(o: Outcome, left: int)
  {
    !o.failed && 0 < o.reported <= left
  }

  /** The first `n` writes of `data` each made progress on what the ones before had left. */
  ghost predicate AllProgress(script: seq<Outcome>, length: nat, n: nat)
  {
    forall i :: 0 <= i < n ==> Progress(OutcomeOf(script, i), length - Reported(script, i))
  }

  /** The write that ends the call with an error: it made no progress on the `left` bytes, and the error says why. */
  predicate Explains(err: WriteError, o: Outcome, left: int)
  {
    && left > 0 && !Progress(o, left)
    && (err.ShortWrite? <==> o.reported < 0 || o.reported > left)
    && (err.Failure? <==> 0 <= o.reported <= left && o.failed)
    && (err.NoProgress? <==> o.reported == 0 && !o.failed)
  }

  lemma OneMore(script: seq<Outcome>, length: nat, n: nat)
    requires AllProgress(script, length, n) && Progress(OutcomeOf(script, n), length - Reported(script, n))
    ensures AllProgress(script, length, n + 1)
  {
  }

  lemma NextOutcome(script: seq<Outcome>, n: nat)
    ensures OutcomeOf(Rest(script, n), 0) == OutcomeOf(script, n)
    ensures Rest(script, n + 1) == if Rest(script, n) == [] then [] else Rest(script, n)[1..]
    ensures Reported(script, n + 1) == Reported(script, n) + OutcomeOf(script, n).reported
  {
  }

  class Socket {
    var wire: ByteString
    var script: seq<Outcome>

    constructor (script: seq<Outcome>)
      ensures wire == [] && this.script == script
    {
      wire, this.script := [], script;
    }

    /** A truthful transport: it appends a prefix of the data, as long as it reports when the report is in range. */
    method Write(data: ByteString) returns (reported: int, failed: bool, ghost put: nat)
      modifies this
      ensures Connection.Truthful(data, put, reported) && wire == old(wire) + data[..put]
      ensures reported == OutcomeOf(old(script), 0).reported && failed == OutcomeOf(old(script), 0).failed
      ensures script == if old(script) == [] then [] else old(script)[1..]
    {
      if script == [] {
        assert data[..0] == [];
        return 0, true, 0;
      }
      var o := script[0];
      script := script[1..];
      var n := if 0 <= o.reported <= |data| then o.reported else if o.stray <= |data| then o.stray else |data|;
      wire := wire + data[..n];
      return o.reported, o.failed, n;
    }
  }

  /** After `n` writes. Nil means that each of them made progress and together they put the whole frame on the wire. An
      error means that all but the last made progress and the last did not: its count was out of range, or it failed, or
      it wrote nothing, and that is the error; exactly a prefix of the frame is on the wire. So nil is returned whenever
      no write before the end fails to make progress. */
  method WriteFull(socket: Socket, data: ByteString) returns (err: Option<WriteError>, ghost n: nat)
    modifies socket
    ensures err.None? ==> AllProgress(old(socket.script), |data|, n) && Reported(old(socket.script), n) == |data|
    ensures err.None? ==> socket.wire == old(socket.wire) + data
    ensures err.Some? ==> n > 0 && AllProgress(old(socket.script), |data|, n - 1)
    ensures err.Some? ==>
              Explains(err.value, OutcomeOf(old(socket.script), n - 1), |data| - Reported(old(socket.script), n - 1))
    ensures exists k :: 0 <= k <= |data| && socket.wire == old(socket.wire) + data[..k]
    ensures socket.script == Rest(old(socket.script), n)
  {
    hide AllProgress, Reported, OutcomeOf, Rest;
    var rest := data;
    ghost var k := 0;
    n := 0;
    assert socket.wire == old(socket.wire) + data[..0];
    Begin(old(socket.script), |data|);
    while |rest| > 0
      invariant 0 <= k <= |data| && rest == data[k..] && k == Reported(old(socket.script), n)
      invariant socket.wire == old(socket.wire) + data[..k] && socket.script == Rest(old(socket.script), n)
      invariant AllProgress(old(socket.script), |data|, n)
      decreases |rest|
    {
      NextOutcome(old(socket.script), n);
      var reported, failed, put := socket.Write(rest);
      n := n + 1;
      assert data[..k] + rest[..put] == data[..k + put];
      assert socket.wire == old(socket.wire) + data[..k + put];
      if reported < 0 || reported > |rest| {
        return Some(ShortWrite), n;
      }
      if failed {
        return Some(Failure), n;
      }
      if reported == 0 {
        return Some(NoProgress), n;
      }
      assert Connection.AfterWrite(rest, reported, failed) == Some(rest[reported..]);
      OneMore(old(socket.script), |data|, n - 1);
      rest := rest[reported..];
      k := k + put;
    }
    assert data[..k] == data;
    return None, n;
  }

  lemma Begin(script: seq<Outcome>, length: nat)
    ensures AllProgress(script, length, 0) && Reported(script, 0) == 0 && Rest(script, 0) == script
  {
  }

  function Rest(script: seq<Outcome>, n: nat): seq<Outcome>
  {
    if n <= |script| then script[n..] else []
  }

  /** Short writes alone never make it fail: a frame goes out whole if and only if the script gets it through piece by
      piece before any write that makes no progress. */
  method WriteOut(script: seq<Outcome>, data: ByteString) returns (ok: bool, wire: ByteString)
    ensures ok <==> exists n: nat :: AllProgress(script, |data|, n) && Reported(script, n) == |data|
    ensures ok ==> wire == data
    ensures wire <= data
  {
    hide AllProgress, Reported, OutcomeOf, Rest;
    var socket := new Socket(script);
    var err, n := WriteFull(socket, data);
    ghost var k :| 0 <= k <= |data| && socket.wire == [] + data[..k];
    if err.Some? {
      forall m: nat | AllProgress(script, |data|, m)
        ensures Reported(script, m) != |data|
      {
        NotYetAll(script, |data|, m, n - 1);
      }
    }
    return err.None?, socket.wire;
  }

  /** Up to the first write without progress something is left. */
  lemma NotYetAll(script: seq<Outcome>, length: nat, m: nat, n: nat)
    requires AllProgress(script, length, m) && AllProgress(script, length, n)
    requires length - Reported(script, n) > 0 && !Progress(OutcomeOf(script, n), length - Reported(script, n))
    ensures Reported(script, m) < length
  {
    assert m <= n;
    Increases(script, length, m, n);
  }

  lemma {:induction false} Increases(script: seq<Outcome>, length: nat, m: nat, n: nat)
    requires m <= n && AllProgress(script, length, n)
    ensures Reported(script, m) <= Reported(script, n)
    decreases n - m
  {
    hide OutcomeOf;
    if m == n {
    } else {
      assert Progress(OutcomeOf(script, n - 1), length - Reported(script, n - 1));
      Increases(script, length, m, n - 1);
    }
  }
}

