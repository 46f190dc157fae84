/** `Notifier` and `Receiver` (src/notify.rs): a flag, and bytes in a non-blocking socket. */
module Notify {

  /** The size of the buffer of `Receiver::drain`. */
  const BUFFER: nat := 64

  /** What a write of one byte leaves: it fails on a full socket, and the failure is ignored. */
  function AfterWrite(bytes: nat, capacity: nat): nat {
    if bytes < capacity then bytes + 1 else bytes
  }

  /** What one read leaves. */
  function AfterRead(bytes: nat): nat {
    if bytes > BUFFER then bytes - BUFFER else 0
  }

  /** The kernel's side of the socket pair. */
  class Socket {
    var bytes: nat
    const capacity: nat

    constructor (capacity: nat)
      ensures bytes == 0 && this.capacity == capacity
    {
      this.bytes, this.capacity := 0, capacity;
    }

    method Write()
      modifies this
      ensures bytes == AfterWrite(old(bytes), capacity)
    {
      if bytes < capacity {
        bytes := bytes + 1;
      }
    }

    method Read() returns (n: nat)
      modifies this
      ensures bytes == AfterRead(old(bytes)) && n == old(bytes) - bytes
      ensures n == 0 <==> old(bytes) == 0
    {
      n := if bytes > BUFFER then BUFFER else bytes;
      bytes := bytes - n;
    }
  }

  class Notifier {
    var pending: bool
    const writer: Socket

    constructor (writer: Socket)
      ensures !pending && this.writer == writer
    {
      this.pending, this.writer := false, writer;
    }

    method Swap() returns (was: bool)
      modifies this
      ensures was == old(pending) && pending
    {
      was := pending;
      pending := true;
    }

    /** Two atomic sections; at most one byte is written between two calls of `Rearm`. */
    method Notify()
      modifies this, writer
      ensures pending
      ensures writer.bytes == if old(pending) then old(writer.bytes) else AfterWrite(old(writer.bytes), writer.capacity)
    {
      var was := Swap();
      if was {
        return;
      }
      writer.Write();
    }

    method Rearm()
      modifies this
      ensures !pending
    {
      pending := false;
    }
  }

  class Receiver {
    const reader: Socket

    constructor (reader: Socket)
      ensures this.reader == reader
    {
      this.reader := reader;
    }

    /** Reads until the socket is empty (alone: `Process.DrainSocket` is the same loop among writers). */
    method Drain()
      modifies reader
      ensures reader.bytes == 0
    {
      var n := reader.Read();
      while n > 0
        invariant n == 0 ==> reader.bytes == 0
        decreases reader.bytes + n
      {
        n := reader.Read();
      }
    }
  }
}
