/** The critical sections of src/ftp.cpp as methods on the shared structure, each run from lock to
    unlock without interference. That the transition system, step by step, computes the same fields is
    proved by WorkerCleans, Setup and Connect in ProtocolWitness. */
module FtpDataClass {
  import opened FtpState

  lemma CleanedParts(f: Ftp, kernel: Kernel, d: Dir, g: Ftp, k: Kernel)
    requires g == f.With(d, CleanedLane(f.At(d)))
    requires var l := f.At(d);
             k == if l.file.Some? then kernel.(files := kernel.files - {(d, l.file.value)}) else kernel
    ensures g.listen == f.listen && g.sock == f.sock
    ensures Cleaned(f, d) == if !g.recv.flag && !g.send.flag then g.(port := -1, sock := -1, portOpen := false) else g
    ensures CleanedKernel(f, kernel, d) ==
              if !g.recv.flag && !g.send.flag then
                var k2 := if g.listen > 1 then k.Close(g.listen) else k;
                if g.sock > 1 then k2.Close(g.sock) else k2
              else k
  {
  }

  class FtpData {
    var sending: bool
    var receiving: bool
    var portOpen: bool
    var sendId: nat
    var recvId: nat
    var fileSend: Option<nat>
    var fileRecv: Option<nat>
    var filepathSend: string
    var filepathRecv: string
    var fileSizeSend: nat
    var fileSizeRecv: nat
    var ftpSocket: int
    var ftpPort: int
    var fileTransferSocket: int
    var ftpUser: Side

    function View(): Ftp
      reads this
    {
      Ftp(Lane(sending, sendId, fileSend, filepathSend, fileSizeSend),
          Lane(receiving, recvId, fileRecv, filepathRecv, fileSizeRecv),
          portOpen, ftpSocket, ftpPort, fileTransferSocket, ftpUser)
    }

    /** init_ftp_fields. */
    constructor ()
      ensures View() == InitFtp()
      ensures !sending && !receiving && !portOpen && fileSend.None? && fileRecv.None?
      ensures ftpSocket == -1 && ftpPort == -1 && fileTransferSocket == -1
      ensures filepathSend == "" && filepathRecv == "" && fileSizeSend == 0 && fileSizeRecv == 0
    {
      sending, receiving, portOpen := false, false, false;
      sendId, recvId := 0, 0;
      fileSend, fileRecv := None, None;
      filepathSend, filepathRecv := "", "";
      fileSizeSend, fileSizeRecv := 0, 0;
      ftpSocket, ftpPort, fileTransferSocket := -1, -1, -1;
      ftpUser := Client;
    }

    /** ftp_clean once the worker, if asked for, has been joined. */
    method FtpClean(d: Dir, kernel: Kernel) returns (k: Kernel)
      modifies this
      ensures View() == Cleaned(old(View()), d)
      ensures k == CleanedKernel(old(View()), kernel, d)
    {
      ghost var f := View();
      k := ResetLane(d, kernel);
      CleanedParts(f, kernel, d, View(), k);
      if !receiving && !sending {
        k := TearDown(k);
      }
    }

    /** The first part of ftp_clean: the fields of one direction. */
    method ResetLane(d: Dir, kernel: Kernel) returns (k: Kernel)
      modifies this
      ensures var l := old(View()).At(d);
              && View() == old(View()).With(d, CleanedLane(l))
              && k == if l.file.Some? then kernel.(files := kernel.files - {(d, l.file.value)}) else kernel
    {
      k := kernel;
      if d.Send? {
        if fileSend.Some? {
          k := k.(files := k.files - {(Send, fileSend.value)});
          fileSend := None;
        }
        filepathSend := "";
        sending := false;
        fileSizeSend := 0;
      } else {
        if fileRecv.Some? {
          k := k.(files := k.files - {(Recv, fileRecv.value)});
          fileRecv := None;
        }
        filepathRecv := "";
        receiving := false;
        fileSizeRecv := 0;
      }
    }

    /** The last part of ftp_clean: both directions are idle. */
    method TearDown(kernel: Kernel) returns (k: Kernel)
      modifies this
      ensures View() == old(View()).(port := -1, sock := -1, portOpen := false)
      ensures var k1 := if old(ftpSocket) > 1 then kernel.Close(old(ftpSocket)) else kernel;
              k == if old(fileTransferSocket) > 1 then k1.Close(old(fileTransferSocket)) else k1
    {
      k := kernel;
      if ftpSocket > 1 {
        k := k.Close(ftpSocket);
      }
      ftpPort := -1;
      if fileTransferSocket > 1 {
        k := k.Close(fileTransferSocket);
      }
      fileTransferSocket := -1;
      portOpen := false;
    }

    /** check_ftp: stopped is the thread that was cancelled and joined. */
    method CheckFtp(d: Dir, stopThreads: bool, kernel: Kernel) returns (k: Kernel, stopped: Option<nat>)
      modifies this
      ensures var f := old(View());
              if f.At(d).flag then View() == Cleaned(f, d) && k == CleanedKernel(f, kernel, d)
              else View() == f && k == kernel
      ensures stopped == if old(View()).At(d).flag && stopThreads then Some(old(View()).At(d).id) else None
    {
      k, stopped := kernel, None;
      if d.Send? {
        if sending {
          if stopThreads { stopped := Some(sendId); }
          k := FtpClean(d, k);
        }
      } else {
        if receiving {
          if stopThreads { stopped := Some(recvId); }
          k := FtpClean(d, k);
        }
      }
    }

    /** setup_ftp: created is what setup_server_co delivers, if it succeeds. */
    method SetupFtp(created: Option<(nat, int)>) returns (ok: bool)
      modifies this
      ensures ok == (old(portOpen) || created.Some?)
      ensures View() == Listening(old(View()), created)
    {
      ok := true;
      if !portOpen {
        if created.Some? {
          ftpPort := created.value.0;
          ftpSocket := created.value.1;
        } else {
          ok := false;
        }
      }
    }

    /** connect_ftp_server: sock is what accept returns, if it is called. */
    method ConnectServer(sock: int) returns (ok: bool)
      modifies this
      ensures ok == (old(portOpen) || sock >= 0)
      ensures ok ==> portOpen
      ensures View() == Connecting(old(View()), sock)
    {
      ok := true;
      if !portOpen {
        if sock < 0 {
          ok := false;
        } else {
          fileTransferSocket := sock;
          portOpen := true;
        }
      }
    }
  }

  /** Cleaning both directions, in either order, leaves no flag, no file, no path, no size and no open
      port; the listening descriptor's number stays behind. */
  lemma BothCleaned(f: Ftp)
    ensures Cleaned(Cleaned(f, Send), Recv) == Cleaned(Cleaned(f, Recv), Send)
    ensures Cleaned(Cleaned(f, Send), Recv)
         == InitFtp().(listen := f.listen, user := f.user, send := InitFtp().send.(id := f.send.id),
                       recv := InitFtp().recv.(id := f.recv.id))
  {
    var g := Cleaned(Cleaned(f, Send), Recv);
    assert BothIdle(g);
  }

  /** Cleaning one direction leaves the other and, exactly while the other is flagged, the shared
      socket alone. */
  lemma CleanOneSide(f: Ftp, k: Kernel, d: Dir)
    requires f.sock > 1 && f.portOpen && f.sock in k.transfer && f.listen != f.sock
    ensures Cleaned(f, d).At(Other(d)) == f.At(Other(d))
    ensures Cleaned(f, d).portOpen <==> f.At(Other(d)).flag
    ensures f.sock in CleanedKernel(f, k, d).transfer <==> f.At(Other(d)).flag
    ensures Cleaned(f, d).sock == (if f.At(Other(d)).flag then f.sock else -1)
  {
    var g := f.With(d, CleanedLane(f.At(d)));
    assert BothIdle(g) <==> !f.At(Other(d)).flag;
  }
}
