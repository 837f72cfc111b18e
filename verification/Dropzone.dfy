/** The upload queue as the page's script runs it: file objects and a Dropzone instance updated in place. */
module Dropzones {
  import opened Collections
  import opened FileTypes
  import opened Uploads
  import opened UploadInvariants
  import opened UploadSteps
  import opened UploadTheorems
  import opened UploadProgress

  /** A file object, with what the script attaches to it. */
  class UploadFile {
    const desc: Desc
    var status: Status
    var accepted: Option<bool>
    var xhr: Option<nat>
    var total: nat
    var bytesSent: nat

    constructor (d: Desc)
      ensures desc == d && status == Undefined && Unjudged()
    {
      desc, status, accepted, xhr, total, bytesSent := d, Undefined, None, None, 0, 0;
    }

    /** No instance has accepted, rejected or sent the file yet. */
    ghost predicate Unjudged()
      reads this
    {
      accepted == None && xhr == None
    }

    ghost function Fields(): Info
      reads this
    {
      Info(desc, status, accepted, xhr, total, bytesSent)
    }
  }

  datatype Rejection = FileTooBig | InvalidFileType | MaxFilesExceeded

  class Dropzone {
    const o: Options
    var files: seq<UploadFile>
    var requests: seq<Request<UploadFile>>
    var timers: nat
    var armed: nat
    ghost var known: set<UploadFile>  // every file ever added

    constructor (options: Options)
      ensures o == options && known == {} && Abs() == Init() && Valid()
    {
      o, files, requests, timers, armed, known := options, [], [], 0, 0, {};
      new;
      assert Abs() == Init();
      InitInv<UploadFile>(o);
    }

    ghost function Abs(): State<UploadFile>
      reads this, known
    {
      State(files, map f | f in known :: f.Fields(), requests, timers, armed)
    }

    ghost predicate Valid()
      reads this, known
    {
      Inv(o, Abs())
    }

    /** Enough to look through the list: every listed file has been added. */
    ghost predicate Listed()
      reads this
    {
      forall f | f in files :: f in known
    }

    /** What the methods rely on: every listed file, and every file of a request, has been added. */
    ghost predicate Ready()
      reads this
    {
      && Listed()
      && forall x | 0 <= x < |requests| ::
           requests[x].files != [] && forall f | f in requests[x].files :: f in known
    }

    lemma ValidIsReady()
      requires Valid()
      ensures Ready()
    {
      forall x | 0 <= x < |requests|
        ensures requests[x].files != [] && forall f | f in requests[x].files :: f in known
      {
        assert RequestOk(Abs(), x);
      }
    }

    static lemma StepStays(o: Options, s: State<UploadFile>, e: Event<UploadFile>)
      requires Possible(s, e)
      ensures Inv(o, s) ==> Inv(o, Step(o, s, e))
    {
      if Inv(o, s) {
        StepKeeps(o, s, e);
      }
    }

    // ----- the lists -----

    method GetFilesWithStatus(status: Status) returns (r: seq<UploadFile>)
      requires Listed()
      ensures r == FilesWithStatus(Abs(), status) && forall f | f in r :: f in files
    {
      r := [];
      for i := 0 to |files|
        invariant r == Pick(files[..i], HasStatus(Abs(), status))
      {
        assert files[..i + 1][..i] == files[..i];
        if files[i].status == status {
          r := r + [files[i]];
        }
      }
      assert files[..|files|] == files;
    }

    method GetFilesWithXhr(x: nat) returns (r: seq<UploadFile>)
      requires Listed()
      ensures r == FilesWithXhr(Abs(), x)
    {
      r := [];
      for i := 0 to |files|
        invariant r == Pick(files[..i], HasXhr(Abs(), x))
      {
        assert files[..i + 1][..i] == files[..i];
        if files[i].xhr == Some(x) {
          r := r + [files[i]];
        }
      }
      assert files[..|files|] == files;
    }

    method GetAcceptedFiles() returns (r: seq<UploadFile>)
      requires Listed()
      ensures r == AcceptedFiles(Abs())
    {
      r := [];
      for i := 0 to |files|
        invariant r == Pick(files[..i], IsAccepted(Abs(), true))
      {
        assert files[..i + 1][..i] == files[..i];
        if files[i].accepted == Some(true) {
          r := r + [files[i]];
        }
      }
      assert files[..|files|] == files;
    }

    method GetActiveFiles() returns (r: seq<UploadFile>)
      requires Listed()
      ensures r == ActiveFiles(Abs()) && forall f | f in r :: f in files
    {
      r := [];
      for i := 0 to |files|
        invariant r == Pick(files[..i], IsActive(Abs()))
      {
        assert files[..i + 1][..i] == files[..i];
        if files[i].status == Uploading || files[i].status == Queued {
          r := r + [files[i]];
        }
      }
      assert files[..|files|] == files;
    }

    method UpdateTotalUploadProgress() returns (progress: Option<real>)
      requires Listed()
      ensures progress == Report(Abs())
    {
      hide ActiveFiles;
      var totalBytesSent, totalBytes := 0, 0;
      var activeFiles := GetActiveFiles();
      if activeFiles == [] {
        return Some(100.0);
      }
      for i := 0 to |activeFiles|
        invariant totalBytesSent == SentBytes(Abs(), activeFiles[..i])
        invariant totalBytes == TotalBytes(Abs(), activeFiles[..i])
      {
        assert activeFiles[..i + 1][..i] == activeFiles[..i];
        totalBytesSent := totalBytesSent + activeFiles[i].bytesSent;
        totalBytes := totalBytes + activeFiles[i].total;
      }
      assert activeFiles[..|activeFiles|] == activeFiles;
      progress := Percent(totalBytesSent, totalBytes);
    }

    /** The listener of `complete`. */
    method EmitComplete()
      requires Listed()
      modifies this`armed
      ensures Abs() == Complete(old(Abs()), 1)
    {
      var uploading := GetFilesWithStatus(Uploading);
      var queued := GetFilesWithStatus(Queued);
      NoneActive(Abs(), uploading, queued);
      assert Abs().info == old(Abs().info);
      if |uploading| == 0 && |queued| == 0 {
        armed := armed + 1;
      }
    }

    static lemma NoneActive(s: State<UploadFile>, uploading: seq<UploadFile>, queued: seq<UploadFile>)
      requires uploading == FilesWithStatus(s, Uploading) && queued == FilesWithStatus(s, Queued)
      ensures s.Idle() <==> |uploading| == 0 && |queued| == 0
    {
      if uploading != [] {
        assert uploading[0] in s.files && HasStatus(s, Uploading)(uploading[0]);
      } else if queued != [] {
        assert queued[0] in s.files && HasStatus(s, Queued)(queued[0]);
      } else {
        forall f | f in s.files ensures !Active(s.Of(f).status) {
          assert HasStatus(s, Uploading)(f) ==> f in uploading;
          assert HasStatus(s, Queued)(f) ==> f in queued;
        }
      }
    }

    // ----- the queue -----

    method ProcessFiles(g: seq<UploadFile>)
      requires forall f | f in g :: f in known
      modifies this`requests, known`status, known`xhr
      ensures Abs() == Start(old(Abs()), g)
    {
      hide Mark, Start, WithXhr;
      ghost var pre := Abs();
      MarkOfNone(pre, Uploading);
      assert Elems(g[..0]) == {};
      for i := 0 to |g|
        invariant Abs() == Mark(pre, Elems(g[..i]), Uploading)
      {
        assert Elems(g[..i + 1]) == Elems(g[..i]) + {g[i]};
        MarkOfMore(pre, Elems(g[..i]), g[i], Uploading);
        SetStatus(g[i], Uploading);
      }
      assert g[..|g|] == g;
      UploadFiles(g);
      MarkThenSend(pre, g);
    }

    method SetStatus(file: UploadFile, status: Status)
      requires file in known
      modifies file`status
      ensures var pre := old(Abs()); Abs() == pre.(info := pre.info[file := pre.info[file].(status := status)])
    {
      file.status := status;
      assert Abs().info == old(Abs()).info[file := file.Fields()];
    }

    static lemma MarkOfNone(s: State<UploadFile>, status: Status)
      ensures Mark(s, {}, status) == s
    {
      assert Mark(s, {}, status).info == s.info;
    }

    static lemma MarkOfMore(s: State<UploadFile>, g: set<UploadFile>, f: UploadFile, status: Status)
      requires f in s.info
      ensures var m := Mark(s, g, status);
        && m.info.Keys == s.info.Keys
        && Mark(s, g + {f}, status) == m.(info := m.info[f := m.info[f].(status := status)])
    {
      var m := Mark(s, g, status);
      assert Mark(s, g + {f}, status).info == m.info[f := m.info[f].(status := status)];
    }

    /** Marking a group and then opening its request is starting it. */
    static lemma MarkThenSend(s: State<UploadFile>, g: seq<UploadFile>)
      ensures var m := Mark(s, Elems(g), Uploading);
        Start(s, g) == m.(info := WithXhr(m, Elems(g)), requests := m.requests + [Request(g, Live)])
    {
      var m := Mark(s, Elems(g), Uploading);
      assert Start(s, g).info == WithXhr(m, Elems(g));
    }

    /** Opens the request; its handlers are the methods OnProgress, OnLoad and OnError. */
    method UploadFiles(g: seq<UploadFile>)
      requires forall f | f in g :: f in known
      modifies this`requests, known`xhr
      ensures var pre := old(Abs());
        Abs() == pre.(info := WithXhr(pre, Elems(g)), requests := pre.requests + [Request(g, Live)])
    {
      hide WithXhr;
      ghost var pre := Abs();
      WithXhrOfNone(pre);
      assert Elems(g[..0]) == {};
      var xhr := |requests|;
      requests := requests + [Request(g, Live)];
      for i := 0 to |g|
        invariant Abs() == pre.(info := WithXhr(pre, Elems(g[..i])), requests := old(requests) + [Request(g, Live)])
      {
        assert Elems(g[..i + 1]) == Elems(g[..i]) + {g[i]};
        WithXhrOfMore(pre, Elems(g[..i]), g[i]);
        SetXhr(g[i], xhr);
      }
      assert g[..|g|] == g;
    }

    method SetXhr(file: UploadFile, xhr: nat)
      requires file in known
      modifies file`xhr
      ensures Abs() == old(Abs()).(info := old(Abs()).info[file := old(Abs()).info[file].(xhr := Some(xhr))])
    {
      file.xhr := Some(xhr);
      assert Abs().info == old(Abs()).info[file := file.Fields()];
    }

    static lemma WithXhrOfNone(s: State<UploadFile>)
      ensures WithXhr(s, {}) == s.info
    {
    }

    static lemma WithXhrOfMore(s: State<UploadFile>, g: set<UploadFile>, f: UploadFile)
      requires f in s.info
      ensures WithXhr(s, g).Keys == s.info.Keys
      ensures WithXhr(s, g + {f}) == WithXhr(s, g)[f := WithXhr(s, g)[f].(xhr := Some(|s.requests|))]
    {
    }

    static ghost function WithXhr(s: State<UploadFile>, g: set<UploadFile>): map<UploadFile, Info> {
      map f | f in s.info :: if f in g then s.info[f].(xhr := Some(|s.requests|)) else s.info[f]
    }

    method ProcessFile(f: UploadFile)
      requires f in known
      modifies this`requests, known`status, known`xhr
      ensures Abs() == Start(old(Abs()), [f])
    {
      ProcessFiles([f]);
    }

    method ProcessQueue()
      requires Listed()
      modifies this`requests, known`status, known`xhr
      ensures Abs() == Uploads.ProcessQueue(o, old(Abs()))
      ensures old(Valid()) ==> Valid()
    {
      hide Inv, Start, StartEach, FilesWithStatus;
      StepStays(o, Abs(), Process);
      var uploading := GetFilesWithStatus(Uploading);
      var processingLength := |uploading|;
      if processingLength >= o.parallelUploads {
        return;
      }
      var queuedFiles := GetFilesWithStatus(Queued);
      if !(|queuedFiles| > 0) {
        return;
      }
      var room := o.parallelUploads - processingLength;
      if o.uploadMultiple {
        ProcessFiles(if room < |queuedFiles| then queuedFiles[..room] else queuedFiles);
      } else {
        ProcessSingly(queuedFiles, processingLength);
      }
    }

    /** The loop of processQueue for single-file requests: i counts the slots taken. */
    method ProcessSingly(queue: seq<UploadFile>, processingLength: nat)
      requires processingLength < o.parallelUploads && forall f | f in queue :: f in known
      modifies this`requests, known`status, known`xhr
      ensures var room := o.parallelUploads - processingLength;
        Abs() == StartEach(old(Abs()), if room < |queue| then queue[..room] else queue)
    {
      hide Start, StartEach;
      ghost var pre := Abs();
      StartNone(pre);
      assert queue[..0] == [];
      var queuedFiles, i := queue, processingLength;
      while i < o.parallelUploads
        invariant known == old(known) && processingLength <= i <= o.parallelUploads
        invariant i - processingLength <= |queue| && queuedFiles == queue[i - processingLength..]
        invariant Abs() == StartEach(pre, queue[..i - processingLength])
      {
        if |queuedFiles| == 0 {
          break;
        }
        ghost var k := i - processingLength;
        StartOneMore(pre, queue, k);
        ProcessFile(queuedFiles[0]);
        queuedFiles := queuedFiles[1..];
        i := i + 1;
      }
      assert queue[..|queue|] == queue;
    }

    static lemma StartNone(s: State<UploadFile>)
      ensures StartEach(s, []) == s
    {
    }

    static lemma StartOneMore(s: State<UploadFile>, queue: seq<UploadFile>, k: nat)
      requires k < |queue|
      ensures StartEach(s, queue[..k + 1]) == Start(StartEach(s, queue[..k]), [queue[k]])
    {
      assert queue[..k + 1][..k] == queue[..k] && queue[..k + 1][k] == queue[k];
    }

    /** A processQueue timer fires. */
    method OnTimer()
      requires Listed() && timers > 0
      modifies this`requests, this`timers, known`status, known`xhr
      ensures Abs() == Fire(o, old(Abs()))
      ensures old(Valid()) ==> Valid()
    {
      hide Inv, Uploads.ProcessQueue;
      ghost var pre := Abs();
      StepStays(o, pre, Timer);
      timers := timers - 1;
      assert Abs() == pre.(timers := pre.timers - 1);
      ProcessQueue();
      assert Abs() == Step(o, pre, Timer);
    }

    /** False where the script throws: the file was already processed or rejected. */
    method EnqueueFile(file: UploadFile) returns (ok: bool)
      requires file in known || file.status == Undefined
      modifies this`timers, known`status
      ensures ok <==> old(file.status) == Added && old(file.accepted) == Some(true)
      ensures Abs() == Enqueue(o, old(Abs()), file)
      ensures old(Valid()) ==> Valid()
    {
      ghost var pre := Abs();
      ok := file.status == Added && file.accepted == Some(true);
      if ok {
        file.status := Queued;
        if o.autoProcessQueue {
          timers := timers + 1;
        }
        assert Abs().info == Mark(pre, {file}, Queued).info;
      }
      StepStays(o, pre, Uploads.EnqueueFile(file));
    }

    // ----- settling -----

    method SettleFiles(g: seq<UploadFile>, status: Status)
      requires Listed() && forall f | f in g :: f in known
      modifies this`armed, known`status
      ensures Abs() == CompleteEach(old(Abs()), g, status)
    {
      ghost var pre := Abs();
      for i := 0 to |g|
        invariant known == old(known) && Listed() && Abs() == CompleteEach(pre, g[..i], status)
      {
        assert g[..i + 1][..i] == g[..i];
        SettleFile(g[i], status);
      }
      assert g[..|g|] == g;
    }

    method SettleFile(file: UploadFile, status: Status)
      requires Listed() && file in known
      modifies this`armed, file`status
      ensures Abs() == Complete(Mark(old(Abs()), {file}, status), 1)
    {
      ghost var pre := Abs();
      MarkOfNone(pre, status);
      MarkOfMore(pre, {}, file, status);
      assert {} + {file} == {file};
      SetStatus(file, status);
      EmitComplete();
    }

    method Finished(g: seq<UploadFile>)
      requires Listed() && (forall f | f in g :: f in known)
      modifies this`requests, this`armed, known`status, known`xhr
      ensures Abs() == Uploads.Finished(o, old(Abs()), g)
    {
      SettleFiles(g, Success);
      if o.autoProcessQueue {
        ProcessQueue();
      }
    }

    method ErrorProcessing(g: seq<UploadFile>)
      requires Listed() && (forall f | f in g :: f in known)
      modifies this`requests, this`armed, known`status, known`xhr
      ensures Abs() == Uploads.ErrorProcessing(o, old(Abs()), g)
    {
      SettleFiles(g, Error);
      if o.autoProcessQueue {
        ProcessQueue();
      }
    }

    /** What happens to the group of a request that failed: the same processing once per file. */
    method HandleError(g: seq<UploadFile>)
      requires Listed() && forall f | f in g :: f in known
      modifies this`requests, this`armed, known`status, known`xhr
      ensures Abs() == Uploads.HandleError(o, old(Abs()), g, |g|)
    {
      ghost var pre := Abs();
      for j := 0 to |g|
        invariant Abs() == Uploads.HandleError(o, pre, g, j)
      {
        ErrorProcessing(g);
      }
    }

    /** upload.onprogress, for a request in any phase. */
    method OnProgress(x: nat, loaded: nat, total: nat)
      requires Ready() && x < |requests|
      modifies known`total, known`bytesSent
      ensures Abs() == Progress(old(Abs()), x, loaded, total)
      ensures old(Valid()) ==> Valid()
    {
      hide Inv, WithBytes, Progress;
      ghost var pre := Abs();
      StepStays(o, pre, Uploads.OnProgress(x, loaded, total));
      var g := requests[x].files;
      WithBytesOfNone(pre, loaded, total);
      assert Elems(g[..0]) == {};
      for i := 0 to |g|
        invariant Abs() == pre.(info := WithBytes(pre, Elems(g[..i]), loaded, total))
      {
        assert g[i] in g && Elems(g[..i + 1]) == Elems(g[..i]) + {g[i]};
        WithBytesOfMore(pre, Elems(g[..i]), g[i], loaded, total);
        SetBytes(g[i], loaded, total);
      }
      assert g[..|g|] == g;
      ProgressIsWithBytes(pre, x, loaded, total);
    }

    method SetBytes(file: UploadFile, loaded: nat, total: nat)
      requires file in known
      modifies file`total, file`bytesSent
      ensures var pre := old(Abs());
        Abs() == pre.(info := pre.info[file := pre.info[file].(total := total, bytesSent := loaded)])
    {
      file.total, file.bytesSent := total, loaded;
      assert Abs().info == old(Abs()).info[file := file.Fields()];
    }

    static lemma WithBytesOfNone(s: State<UploadFile>, loaded: nat, total: nat)
      ensures WithBytes(s, {}, loaded, total) == s.info
    {
    }

    static lemma WithBytesOfMore(s: State<UploadFile>, g: set<UploadFile>, f: UploadFile, loaded: nat, total: nat)
      requires f in s.info
      ensures var m := WithBytes(s, g, loaded, total);
        && m.Keys == s.info.Keys
        && WithBytes(s, g + {f}, loaded, total) == m[f := m[f].(total := total, bytesSent := loaded)]
    {
    }

    static lemma ProgressIsWithBytes(s: State<UploadFile>, x: nat, loaded: nat, total: nat)
      requires x < |s.requests|
      ensures Progress(s, x, loaded, total) == s.(info := WithBytes(s, Elems(s.requests[x].files), loaded, total))
    {
      assert Progress(s, x, loaded, total).info == WithBytes(s, Elems(s.requests[x].files), loaded, total);
    }

    static ghost function WithBytes(s: State<UploadFile>, g: set<UploadFile>, loaded: nat, total: nat)
      : map<UploadFile, Info>
    {
      map f | f in s.info :: if f in g then s.info[f].(total := total, bytesSent := loaded) else s.info[f]
    }

    /** The call of updateProgress without an event: everything counts as sent. */
    method FinishProgress(g: seq<UploadFile>)
      requires forall f | f in g :: f in known
      modifies known`bytesSent
      ensures Abs() == SendAll(old(Abs()), Elems(g))
    {
      hide SendAll;
      ghost var pre := Abs();
      SendAllOfNone(pre);
      assert Elems(g[..0]) == {};
      for i := 0 to |g|
        invariant Abs() == SendAll(pre, Elems(g[..i]))
      {
        assert Elems(g[..i + 1]) == Elems(g[..i]) + {g[i]};
        SendAllOfMore(pre, Elems(g[..i]), g[i]);
        SetSent(g[i]);
      }
      assert g[..|g|] == g;
    }

    method SetSent(file: UploadFile)
      requires file in known
      modifies file`bytesSent
      ensures var pre := old(Abs());
        Abs() == pre.(info := pre.info[file := pre.info[file].(bytesSent := pre.info[file].total)])
    {
      file.bytesSent := file.total;
      assert Abs().info == old(Abs()).info[file := file.Fields()];
    }

    static lemma SendAllOfNone(s: State<UploadFile>)
      ensures SendAll(s, {}) == s
    {
      assert SendAll(s, {}).info == s.info;
    }

    static lemma SendAllOfMore(s: State<UploadFile>, g: set<UploadFile>, f: UploadFile)
      requires f in s.info
      ensures var m := SendAll(s, g);
        && m.info.Keys == s.info.Keys
        && SendAll(s, g + {f}) == m.(info := m.info[f := m.info[f].(bytesSent := m.info[f].total)])
    {
      var m := SendAll(s, g);
      assert SendAll(s, g + {f}).info == m.info[f := m.info[f].(bytesSent := m.info[f].total)];
    }

    /** xhr.onload; ready tells whether readyState is 4, ok whether the status code is in 200..299. */
    method OnLoad(x: nat, ready: bool, ok: bool)
      requires Ready() && x < |requests| && requests[x].phase != Settled
      modifies this`requests, this`armed, known`status, known`xhr, known`bytesSent
      ensures Abs() == Load(o, old(Abs()), x, ready, ok)
      ensures old(Valid()) ==> Valid()
    {
      hide Inv, SendAll, Uploads.HandleError, Uploads.Finished;
      ghost var pre := Abs();
      StepStays(o, pre, Uploads.OnLoad(x, ready, ok));
      var g := requests[x].files;
      if g[0].status == Canceled {
        return;
      }
      if !ready {
        return;
      }
      FinishProgress(g);
      requests := requests[x := requests[x].(phase := Settled)];
      assert Abs() == Close(SendAll(pre, Elems(g)), x, Settled);
      if !ok {
        HandleError(g);
      } else {
        Finished(g);
      }
    }

    /** xhr.onerror. */
    method OnError(x: nat)
      requires Ready() && x < |requests| && requests[x].phase != Settled
      modifies this`requests, this`armed, known`status, known`xhr
      ensures Abs() == Fail(o, old(Abs()), x)
      ensures old(Valid()) ==> Valid()
    {
      ghost var pre := Abs();
      StepStays(o, pre, Uploads.OnError(x));
      var g := requests[x].files;
      if g[0].status == Canceled {
        return;
      }
      requests := requests[x := requests[x].(phase := Settled)];
      assert Abs() == Close(pre, x, Settled);
      HandleError(g);
    }

    // ----- cancelling and removing -----

    method CancelUpload(file: UploadFile)
      requires Listed() && (file in known || file.status == Undefined)
      modifies this`requests, this`armed, known`status, known`xhr
      ensures Abs() == Cancel(o, old(Abs()), file)
      ensures old(Valid()) ==> Valid()
    {
      ghost var pre := Abs();
      StepStays(o, pre, Uploads.CancelUpload(file));
      WithdrawFile(file);
      if o.autoProcessQueue {
        ProcessQueue();
      }
    }

    method WithdrawFile(file: UploadFile)
      requires Listed() && (file in known || file.status == Undefined)
      modifies this`requests, this`armed, known`status
      ensures Abs() == Withdraw(old(Abs()), file)
    {
      if file.status == Uploading && file.xhr.Some? {
        AbortGroup(file.xhr.value);
      } else if file.status == Added || file.status == Queued {
        MarkCanceled([file]);
        assert Elems([file]) == {file};
        EmitComplete();
      }
    }

    method AbortGroup(xhr: nat)
      requires Listed()
      modifies this`requests, this`armed, known`status
      ensures var g := FilesWithXhr(old(Abs()), xhr);
        Abs() == Complete(Close(Mark(old(Abs()), Elems(g), Canceled), xhr, Aborted), |g|)
    {
      var groupedFiles := GetFilesWithXhr(xhr);
      MarkCanceled(groupedFiles);
      Abort(xhr);
      EmitCanceled(|groupedFiles|);
    }

    method Abort(xhr: nat)
      modifies this`requests
      ensures Abs() == Close(old(Abs()), xhr, Aborted)
    {
      if xhr < |requests| {
        requests := requests[xhr := requests[xhr].(phase := Aborted)];
      }
    }

    method MarkCanceled(g: seq<UploadFile>)
      requires forall f | f in g :: f in known
      modifies known`status
      ensures Abs() == Mark(old(Abs()), Elems(g), Canceled)
    {
      hide Mark;
      ghost var pre := Abs();
      MarkOfNone(pre, Canceled);
      assert Elems(g[..0]) == {};
      for i := 0 to |g|
        invariant Abs() == Mark(pre, Elems(g[..i]), Canceled)
      {
        assert Elems(g[..i + 1]) == Elems(g[..i]) + {g[i]};
        MarkOfMore(pre, Elems(g[..i]), g[i], Canceled);
        SetStatus(g[i], Canceled);
      }
      assert g[..|g|] == g;
    }

    /** n `canceled` events, each passed on as a `complete`. */
    method EmitCanceled(n: nat)
      requires Listed()
      modifies this`armed
      ensures Abs() == Complete(old(Abs()), n)
    {
      ghost var pre := Abs();
      for i := 0 to n
        invariant Abs() == Complete(pre, i)
      {
        assert Abs().Idle() <==> pre.Idle();
        EmitComplete();
      }
    }

    method Disable()
      requires Listed()
      modifies this`requests, this`armed, known`status, known`xhr
      ensures Abs() == Uploads.Disable(o, old(Abs()))
      ensures old(Valid()) ==> Valid()
    {
      hide Inv, Cancel;
      ghost var pre := Abs();
      StepStays(o, pre, DisableAll);
      assert files[..|files|] == files;
      for i := 0 to |files|
        invariant Abs() == CancelEach(o, pre, files[..i])
      {
        assert files[..i + 1][..i] == files[..i];
        CancelUpload(files[i]);
      }
    }

    method Without(rejected: UploadFile) returns (r: seq<UploadFile>)
      ensures r == Uploads.Without(files, rejected) && forall f | f in r :: f in files
    {
      r := [];
      for i := 0 to |files|
        invariant r == Pick(files[..i], Other(rejected))
      {
        assert files[..i + 1][..i] == files[..i];
        if files[i] != rejected {
          r := r + [files[i]];
        }
      }
      assert files[..|files|] == files;
    }

    method RemoveFile(file: UploadFile)
      requires Listed() && (file in known || file.status == Undefined)
      modifies this`files, this`requests, this`armed, known`status, known`xhr
      ensures Listed() && Abs() == Remove(o, old(Abs()), file)
      ensures old(Valid()) ==> Valid()
    {
      hide Inv, Cancel, Drop;
      StepStays(o, Abs(), Uploads.RemoveFile(file));
      assert Abs().Of(file).status == file.status;
      if file.status == Uploading {
        CancelUpload(file);
      }
      Forget(file);
    }

    method Forget(file: UploadFile)
      requires Listed()
      modifies this`files
      ensures Listed() && Abs() == Drop(old(Abs()), file)
    {
      files := Without(file);
    }

    method RemoveAllFiles(cancelIfNecessary: bool)
      requires Listed()
      modifies this`files, this`requests, this`armed, known`status, known`xhr
      ensures Listed() && Abs() == RemoveAll(o, old(Abs()), cancelIfNecessary)
      ensures old(Valid()) ==> Valid()
    {
      hide Inv, Remove;
      ghost var pre := Abs();
      StepStays(o, pre, Uploads.RemoveAllFiles(cancelIfNecessary));
      var snapshot := files;
      for i := 0 to |snapshot|
        invariant Listed() && Abs() == RemoveEach(o, pre, snapshot[..i], cancelIfNecessary)
      {
        assert snapshot[..i + 1][..i] == snapshot[..i] && snapshot[i] in known;
        if snapshot[i].status != Uploading || cancelIfNecessary {
          RemoveFile(snapshot[i]);
        }
      }
      assert snapshot[..|snapshot|] == snapshot;
    }

    /** destroy(): whatever was going on, nothing of it is left. */
    method Destroy()
      requires Valid()
      modifies this`files, this`requests, this`armed, known`status, known`xhr
      ensures Valid() && files == [] && forall x | 0 <= x < |requests| :: requests[x].phase != Live
      ensures forall f | f in old(files) :: Terminal(f.status)
    {
      ghost var pre := Abs();
      DestroyLeavesNothing(o, pre);
      Disable();
      RemoveAllFiles(true);
      forall x: nat | x < |requests| ensures requests[x].phase != Live {
        assert x !in LiveRequests(Abs());
      }
      forall f | f in pre.files ensures Terminal(f.status) {
        assert f in known && Terminal(Abs().Of(f).status);
      }
    }

    // ----- adding -----

    /** Why a file is turned away, if it is. */
    method Accept(d: Desc) returns (error: Option<Rejection>)
      requires Listed()
      ensures error.Some? <==> !Fits(o, d) || Full(o, Abs())
      ensures error == Some(FileTooBig) <==> d.size as real > o.maxFilesize * 1024.0 * 1024.0
      ensures error == Some(InvalidFileType) <==> error != Some(FileTooBig) && !Accepted(o.acceptedFiles, d)
      ensures error == Some(MaxFilesExceeded) <==> Fits(o, d) && Full(o, Abs())
    {
      if d.size as real > o.maxFilesize * 1024.0 * 1024.0 {
        return Some(FileTooBig);
      }
      var valid := IsValidFile(d, o.acceptedFiles);
      if !valid {
        return Some(InvalidFileType);
      }
      var accepted := GetAcceptedFiles();
      if o.maxFiles.Some? && |accepted| >= o.maxFiles.value {
        return Some(MaxFilesExceeded);
      }
      return None;
    }

    /** For any file object, also one added before; the invariant is promised for a first addition. */
    method AddFile(file: UploadFile) returns (error: Option<Rejection>)
      requires Listed() && (file in known || file.Unjudged())
      modifies this, known, file
      ensures Listed() && known == old(known) + {file} && Abs() == Add(o, old(Abs()), file, file.desc)
      ensures error.Some? <==> file.accepted == Some(false)
      ensures old(Valid()) && file !in old(known) ==> Valid()
    {
      ghost var pre := Abs();
      Enlist(file);
      error := Accept(file.desc);
      Done(file, error.Some?, pre);
      if file !in pre.info {
        StepStays(o, pre, Uploads.AddFile(file, file.desc));
      }
    }

    static ghost function Entered(file: UploadFile, pre: State<UploadFile>): Info {
      pre.Of(file).(desc := file.desc, status := Added, total := file.desc.size, bytesSent := 0)
    }

    method Enlist(file: UploadFile)
      requires Listed() && (file in known || file.Unjudged())
      modifies this`files, this`known, file
      ensures known == old(known) + {file} && Listed()
      ensures Abs() == Push(old(Abs()), file, Entered(file, old(Abs())))
    {
      ghost var pre := Abs();
      file.total, file.bytesSent := file.desc.size, 0;
      files := files + [file];
      file.status := Added;
      known := known + {file};
      assert Abs().info == pre.info[file := Entered(file, pre)];
    }

    /** The callback that accept is given. */
    method Done(file: UploadFile, error: bool, ghost pre: State<UploadFile>)
      requires Listed() && file in known && Abs() == Push(pre, file, Entered(file, pre))
      modifies this`requests, this`armed, this`timers, known`status, known`xhr, known`accepted
      ensures file.accepted == Some(!error)
      ensures Abs() ==
        if error then
          Uploads.ErrorProcessing(o, Push(pre, file, Entered(file, pre).(accepted := Some(false))), [file])
        else
          var t := Push(pre, file, Entered(file, pre).(accepted := Some(true)));
          if o.autoQueue then Enqueue(o, t, file) else t
    {
      file.accepted := Some(!error);
      assert Abs().info == pre.info[file := Entered(file, pre).(accepted := Some(!error))];
      if error {
        ErrorProcessing([file]);
      } else if o.autoQueue {
        var queued := EnqueueFile(file);
      }
    }
  }
}
