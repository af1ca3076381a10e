/**
  * The raw console as it is programmed: two arrays of fixed size that reads
  * fill from an offset on and writes empty from the front, moving the rest.
  */
module RawConsoles {
  import opened Options
  import opened Xdr
  import M = RawMachine

  /** memmove of the bytes after the first n to the front. */
  method MoveDown(a: array<byte>, n: nat, length: nat)
    requires n <= length <= a.Length
    modifies a
    ensures a[..length - n] == old(a[n..length])
  {
    var i := 0;
    while i < length - n
      invariant 0 <= i <= length - n
      invariant a[..i] == old(a[n..n + i])
      invariant forall k | i <= k < a.Length :: a[k] == old(a[k])
    {
      a[i] := a[n + i];
      i := i + 1;
    }
    assert a[..length - n] == a[..i];
  }

  /** A read into the array from an offset on. */
  method Fill(a: array<byte>, offset: nat, data: seq<byte>)
    requires offset + |data| <= a.Length
    modifies a
    ensures a[..offset + |data|] == old(a[..offset]) + data
  {
    forall k | 0 <= k < |data| {
      a[offset + k] := data[k];
    }
  }

  class RawConsole {
    const escape: byte
    var hasStdin: bool
    var hasStdout: bool
    var attached: bool
    var consoleToLocal: array<byte>
    var consoleToLocalOffset: nat
    var localToConsole: array<byte>
    var localToConsoleOffset: nat
    var localEOF: bool
    var localStdinSource: M.Source
    var localStdoutSource: M.Source
    var localStderrSource: M.Source
    var readable: bool
    var writable: bool
    ghost var log: M.RawLog

    /** The arrays are distinct, and stand for NULL when they are empty. */
    ghost predicate Valid()
      reads this
    {
      && consoleToLocal != localToConsole
      && consoleToLocalOffset <= consoleToLocal.Length && localToConsoleOffset <= localToConsole.Length
      && consoleToLocal.Length == (if attached then M.BUFFER else 0)
      && localToConsole.Length == (if attached && hasStdin then M.BUFFER else 0)
    }

    ghost function View(): M.Raw
      requires Valid()
      reads this, consoleToLocal, localToConsole
    {
      M.Raw(hasStdin, hasStdout, escape, attached,
            consoleToLocal[..consoleToLocalOffset], localToConsole[..localToConsoleOffset], localEOF,
            localStdinSource, localStdoutSource, localStderrSource, readable, writable, log)
    }

    constructor (escape: byte)
      ensures Valid() && View() == M.Fresh(false, false, escape)
      ensures fresh(consoleToLocal) && fresh(localToConsole)
    {
      this.escape, hasStdin, hasStdout, attached, localEOF := escape, false, false, false, false;
      consoleToLocal, consoleToLocalOffset := new byte[0], 0;
      localToConsole, localToConsoleOffset := new byte[0], 0;
      localStdinSource, localStdoutSource, localStderrSource := M.Absent, M.Absent, M.Absent;
      readable, writable := false, false;
      log := M.Fresh(false, false, escape).log;
    }

    /** A source that is wanted is created if the pointer is NULL; one that is not is destroyed. */
    static method Wanted(source: M.Source, wanted: bool) returns (result: M.Source)
      ensures result == M.Want(source, wanted)
    {
      result := source;
      if wanted {
        if source == M.Absent {
          result := M.Attached;
        }
      } else if source != M.Absent {
        result := M.Absent;
      }
    }

    /** do_console_raw_update_events */
    method UpdateEvents()
      requires Valid()
      modifies this`localStdinSource, this`localStdoutSource, this`localStderrSource, this`readable, this`writable
      ensures Valid() && View() == M.Update(old(View()))
    {
      hide M.Want;
      if !attached {
        return;
      }
      if hasStdin {
        localStdinSource := Wanted(localStdinSource, localToConsoleOffset < localToConsole.Length && !localEOF);
      }
      if hasStdout {
        localStdoutSource := Wanted(localStdoutSource, consoleToLocalOffset > 0);
      } else {
        localStderrSource := Wanted(localStderrSource, consoleToLocalOffset > 0);
      }
      writable := localToConsoleOffset > 0;
      readable := consoleToLocalOffset < consoleToLocal.Length;
    }

    /** gvir_sandbox_console_raw_attach, for a console that opens; it says whether the console was free. */
    method Attach(stdin: bool, stdout: bool) returns (ok: bool)
      requires Valid()
      modifies this
      ensures Valid() && ok == !old(attached)
      ensures !ok ==> View() == old(View())
      ensures ok ==> fresh(consoleToLocal)
                     && View() == M.Attach(old(View()).(hasStdin := stdin, hasStdout := stdout,
                                                        toLocal := [], toConsole := []))
    {
      hide M.Update;
      if attached {
        return false;
      }
      hasStdin, hasStdout := stdin, stdout;
      attached := true;
      Allocate(M.BUFFER, if stdin then M.BUFFER else 0);
      UpdateEvents();
      return true;
    }

    /** Empty buffers of these sizes. */
    method Allocate(toLocal: nat, toConsole: nat)
      modifies this`consoleToLocal, this`consoleToLocalOffset, this`localToConsole, this`localToConsoleOffset
      ensures fresh(consoleToLocal) && fresh(localToConsole) && consoleToLocal != localToConsole
      ensures consoleToLocal.Length == toLocal && localToConsole.Length == toConsole
      ensures consoleToLocalOffset == localToConsoleOffset == 0
    {
      consoleToLocal, consoleToLocalOffset := new byte[toLocal](_ => 0), 0;
      localToConsole, localToConsoleOffset := new byte[toConsole](_ => 0), 0;
    }

    /** gvir_sandbox_console_raw_detach */
    method Detach()
      requires Valid()
      modifies this
      ensures Valid() && View() == M.Detach(old(View()))
    {
      if !attached {
        return;
      }
      DropSources();
      Allocate(0, 0);
      attached := false;
    }

    method DropSources()
      requires Valid()
      modifies this`localStdinSource, this`localStdoutSource, this`localStderrSource, this`readable, this`writable
      ensures Valid()
      ensures View() == old(View()).(stdinSource := M.Absent, stdoutSource := M.Absent, stderrSource := M.Absent,
                                     readable := false, writable := false)
    {
      localStdinSource, localStdoutSource, localStderrSource := M.Absent, M.Absent, M.Absent;
      readable, writable := false, false;
    }

    /** do_console_raw_close */
    method Close(error: bool)
      requires Valid()
      modifies this
      ensures Valid() && View() == M.Close(old(View()), error)
    {
      Detach();
      log := log.(closed := log.closed + [error]);
    }

    /** The receive of do_console_raw_stream_readwrite returned these bytes. */
    method Received(chunk: seq<byte>)
      requires Valid() && consoleToLocalOffset + |chunk| <= consoleToLocal.Length
      modifies this`consoleToLocalOffset, this`log, consoleToLocal
      ensures Valid()
      ensures View() == old(View()).(toLocal := old(View()).toLocal + chunk,
                                     log := old(log).(received := old(log).received + chunk))
    {
      Fill(consoleToLocal, consoleToLocalOffset, chunk);
      consoleToLocalOffset := consoleToLocalOffset + |chunk|;
      log := log.(received := log.received + chunk);
    }

    /** Its send took n bytes. */
    method Sent(n: nat)
      requires Valid() && n <= localToConsoleOffset
      modifies this`localToConsoleOffset, this`log, localToConsole
      ensures Valid()
      ensures var r := old(View());
              View() == r.(toConsole := r.toConsole[n..], log := old(log).(sent := old(log).sent + r.toConsole[..n]))
    {
      ghost var queue := localToConsole[..localToConsoleOffset];
      log := log.(sent := log.sent + queue[..n]);
      if localToConsoleOffset != n {
        MoveDown(localToConsole, n, localToConsoleOffset);
      }
      localToConsoleOffset := localToConsoleOffset - n;
    }

    /** do_console_raw_stream_readwrite */
    method StreamReadWrite(receipt: M.Receipt, send: M.Sending)
      requires Valid()
      requires M.Enabled(View(), M.StreamReady(receipt, send))
      modifies this, consoleToLocal, localToConsole
      ensures Valid() && View() == M.Next(old(View()), M.StreamReady(receipt, send))
    {
      hide M.Update, M.Close;
      match receipt {
        case NotReadable =>
        case WouldBlock =>
          UpdateEvents();
          return;
        case ReceiveFails =>
          Close(true);
          return;
        case Gets(chunk) =>
          if chunk == [] {
            Close(false);
            return;
          }
          Received(chunk);
      }
      Send(send);
    }

    /** The part that writes. */
    method Send(send: M.Sending)
      requires Valid() && (send.Takes? ==> send.count <= localToConsoleOffset)
      modifies this, consoleToLocal, localToConsole
      ensures Valid() && View() == M.AfterSend(old(View()), send)
    {
      hide M.Update, M.Close;
      match send {
        case NotWritable => UpdateEvents();
        case SendFails => Close(true);
        case Takes(n) =>
          Sent(n);
          UpdateEvents();
      }
    }

    /** do_console_raw_local_read */
    method LocalRead(data: Option<seq<byte>>)
      requires Valid() && M.Enabled(View(), M.ReadsLocal(data))
      modifies this, localToConsole
      ensures Valid() && View() == M.Next(old(View()), M.ReadsLocal(data))
    {
      hide M.Update, M.Close;
      if data.None? {
        Close(true);
      } else if data.value == [] {
        localEOF := true;
        localStdinSource := M.Absent;
        UpdateEvents();
      } else {
        LocalGot(data.value);
      }
    }

    method LocalGot(data: seq<byte>)
      requires Valid() && data != [] && localToConsoleOffset + |data| <= localToConsole.Length
      modifies this, localToConsole
      ensures Valid() && View() == M.LocalRead(old(View()), Some(data))
    {
      hide M.Update, M.Close;
      Stored(data);
      if localToConsole[localToConsoleOffset] == escape {
        Close(false);
        return;
      }
      Typed(data);
      localStdinSource := M.Absent;
      UpdateEvents();
    }

    /** The read has filled the buffer from the offset on. */
    method Stored(data: seq<byte>)
      requires Valid() && localToConsoleOffset + |data| <= localToConsole.Length
      modifies localToConsole
      ensures Valid() && View() == old(View())
      ensures localToConsole[localToConsoleOffset..localToConsoleOffset + |data|] == data
      ensures data != [] ==> localToConsole[localToConsoleOffset] == data[0]
    {
      Fill(localToConsole, localToConsoleOffset, data);
      ghost var filled := localToConsole[..localToConsoleOffset + |data|];
      assert localToConsole[..localToConsoleOffset] == filled[..localToConsoleOffset];
      assert localToConsole[localToConsoleOffset..localToConsoleOffset + |data|] == filled[localToConsoleOffset..];
      assert data != [] ==> localToConsole[localToConsoleOffset] == filled[localToConsoleOffset];
    }

    /** And the offset moves past what it read. */
    method Typed(data: seq<byte>)
      requires Valid() && localToConsoleOffset + |data| <= localToConsole.Length
      requires localToConsole[localToConsoleOffset..localToConsoleOffset + |data|] == data
      modifies this`localToConsoleOffset, this`log
      ensures Valid()
      ensures View() == old(View()).(toConsole := old(View()).toConsole + data,
                                     log := old(log).(typed := old(log).typed + data))
    {
      localToConsoleOffset := localToConsoleOffset + |data|;
      log := log.(typed := log.typed + data);
    }

    /** do_console_raw_local_write, called by the source of stdout or of stderr, which is thereby removed. */
    method LocalWrite(took: Option<nat>)
      requires Valid() && M.Enabled(View(), M.WritesLocal(took))
      modifies this, consoleToLocal
      ensures Valid() && View() == M.Next(old(View()), M.WritesLocal(took))
    {
      hide M.Update, M.Close;
      if took.None? {
        Close(true);
        return;
      }
      if !hasStdout && localStderrSource != M.Absent {
        localStderrSource := M.Removed;
      }
      Delivered(took.value);
      localStdoutSource := M.Absent;
      UpdateEvents();
    }

    method Delivered(n: nat)
      requires Valid() && n <= consoleToLocalOffset
      modifies this`consoleToLocalOffset, this`log, consoleToLocal
      ensures Valid()
      ensures var r := old(View());
              View() == r.(toLocal := r.toLocal[n..],
                           log := old(log).(delivered := old(log).delivered + r.toLocal[..n]))
    {
      ghost var queue := consoleToLocal[..consoleToLocalOffset];
      log := log.(delivered := log.delivered + queue[..n]);
      if consoleToLocalOffset != n {
        MoveDown(consoleToLocal, n, consoleToLocalOffset);
      }
      consoleToLocalOffset := consoleToLocalOffset - n;
    }
  }
}
