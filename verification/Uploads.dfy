/**
 * The upload queue as a value: the state a Dropzone instance and its requests are in,
 * and what each event turns it into. A file is only ever compared, so its type is a parameter.
 *
 * Requests are numbered in the order they are opened, and a request keeps the list of files it was opened for.
 */
module Uploads {
  import opened Collections
  import opened FileTypes

  datatype Status = Undefined | Added | Queued | Uploading | Success | Error | Canceled

  datatype Options = Options(parallelUploads: int, uploadMultiple: bool, autoProcessQueue: bool, autoQueue: bool,
                             maxFiles: Option<nat>, maxFilesize: real, acceptedFiles: string)

  /** What is attached to a file object; accepted and xhr stay undefined (None) until they are set. */
  datatype Info = Info(desc: Desc, status: Status, accepted: Option<bool>, xhr: Option<nat>,
                       total: nat, bytesSent: nat)

  const BLANK := Info(Desc("", "", 0), Undefined, None, None, 0, 0)

  datatype Phase = Live | Settled | Aborted
  datatype Request<F> = Request(files: seq<F>, phase: Phase)

  /** timers counts the pending processQueue timers; armed the queuecomplete timers started so far. */
  datatype State<F(==)> = State(files: seq<F>, info: map<F, Info>, requests: seq<Request<F>>, timers: nat, armed: nat)
  {
    function Of(f: F): Info { if f in info then info[f] else BLANK }

    ghost function Having(status: Status): set<F> { set f | f in files && Of(f).status == status }

    ghost function Approved(): set<F> { set f | f in files && Of(f).accepted == Some(true) }

    ghost predicate Idle() { forall f | f in files :: !Active(Of(f).status) }
  }

  predicate Active(status: Status) { status == Uploading || status == Queued }

  predicate Terminal(status: Status) { status == Success || status == Error || status == Canceled }

  ghost function Init<F>(): State<F> { State([], map[], [], 0, 0) }

  // ----- the lists the page can ask for -----

  ghost function HasStatus<F>(s: State<F>, status: Status): F -> bool { f => s.Of(f).status == status }

  ghost function HasXhr<F>(s: State<F>, x: nat): F -> bool { f => s.Of(f).xhr == Some(x) }

  ghost function IsAccepted<F>(s: State<F>, want: bool): F -> bool { f => (s.Of(f).accepted == Some(true)) == want }

  ghost function FilesWithStatus<F>(s: State<F>, status: Status): seq<F> { Pick(s.files, HasStatus(s, status)) }

  ghost function FilesWithXhr<F>(s: State<F>, x: nat): seq<F> { Pick(s.files, HasXhr(s, x)) }

  ghost function AcceptedFiles<F>(s: State<F>): seq<F> { Pick(s.files, IsAccepted(s, true)) }

  ghost function RejectedFiles<F>(s: State<F>): seq<F> { Pick(s.files, IsAccepted(s, false)) }

  ghost function Other<F>(g: F): F -> bool { f => f != g }

  ghost function Without<F>(fs: seq<F>, g: F): seq<F> { Pick(fs, Other(g)) }

  // ----- elementary changes -----

  ghost function Mark<F>(s: State<F>, g: set<F>, status: Status): State<F> {
    s.(info := map f | f in s.info :: if f in g then s.info[f].(status := status) else s.info[f])
  }

  /** The `complete` listener heard n times: each time it arms a queuecomplete timer if nothing is left to do. */
  ghost function Complete<F>(s: State<F>, n: nat): State<F> {
    s.(armed := s.armed + if s.Idle() then n else 0)
  }

  ghost function Close<F>(s: State<F>, x: nat, phase: Phase): State<F> {
    if x < |s.requests| then s.(requests := s.requests[x := s.requests[x].(phase := phase)]) else s
  }

  ghost function SendAll<F>(s: State<F>, g: set<F>): State<F> {
    s.(info := map f | f in s.info :: if f in g then s.info[f].(bytesSent := s.info[f].total) else s.info[f])
  }

  /** Opens one request for the group g. */
  ghost function Start<F>(s: State<F>, g: seq<F>): State<F> {
    s.(info := map f | f in s.info ::
                 if f in g then s.info[f].(status := Uploading, xhr := Some(|s.requests|)) else s.info[f],
       requests := s.requests + [Request(g, Live)])
  }

  /** Opens one request per file of g, in order. */
  ghost function StartEach<F>(s: State<F>, g: seq<F>): State<F> {
    if g == [] then s else Start(StartEach(s, g[..|g| - 1]), [g[|g| - 1]])
  }

  // ----- the queue -----

  /** The files processQueue takes: the oldest queued ones, as many as there are free slots. */
  ghost function Next<F>(o: Options, s: State<F>): (g: seq<F>)
    ensures g == [] || |FilesWithStatus(s, Uploading)| + |g| <= o.parallelUploads
  {
    var room := o.parallelUploads - |FilesWithStatus(s, Uploading)|;
    var queue := FilesWithStatus(s, Queued);
    if room <= 0 then [] else if room < |queue| then queue[..room] else queue
  }

  ghost function ProcessQueue<F>(o: Options, s: State<F>): State<F> {
    var g := Next(o, s);
    if g == [] then s else if o.uploadMultiple then Start(s, g) else StartEach(s, g)
  }

  ghost function Refill<F>(o: Options, s: State<F>): State<F> {
    if o.autoProcessQueue then ProcessQueue(o, s) else s
  }

  /** A processQueue timer fires. */
  ghost function Fire<F>(o: Options, s: State<F>): State<F>
    requires s.timers > 0
  {
    ProcessQueue(o, s.(timers := s.timers - 1))
  }

  ghost function Enqueue<F>(o: Options, s: State<F>, f: F): State<F> {
    if s.Of(f).status == Added && s.Of(f).accepted == Some(true) then
      Mark(s, {f}, Queued).(timers := s.timers + if o.autoProcessQueue then 1 else 0)
    else s
  }

  // ----- adding -----

  predicate Fits(o: Options, d: Desc) {
    d.size as real <= o.maxFilesize * 1024.0 * 1024.0 && Accepted(o.acceptedFiles, d)
  }

  ghost predicate Full<F>(o: Options, s: State<F>) {
    o.maxFiles.Some? && |AcceptedFiles(s)| >= o.maxFiles.value
  }

  ghost function Push<F>(s: State<F>, f: F, i: Info): State<F> {
    s.(files := s.files + [f], info := s.info[f := i])
  }

  /** Adding overwrites the status and the byte counts; what else a file carries from before stays. */
  ghost function Add<F>(o: Options, s: State<F>, f: F, d: Desc): State<F> {
    var i := s.Of(f).(desc := d, status := Added, total := d.size, bytesSent := 0);
    if !Fits(o, d) || Full(o, Push(s, f, i)) then
      ErrorProcessing(o, Push(s, f, i.(accepted := Some(false))), [f])
    else
      var t := Push(s, f, i.(accepted := Some(true)));
      if o.autoQueue then Enqueue(o, t, f) else t
  }

  // ----- request events -----

  ghost function Progress<F>(s: State<F>, x: nat, loaded: nat, total: nat): State<F>
    requires x < |s.requests|
  {
    var g := s.requests[x].files;
    s.(info := map f | f in s.info ::
                 if f in g then s.info[f].(total := total, bytesSent := loaded) else s.info[f])
  }

  /** The test both handlers make: has the first file of the group been cancelled? */
  ghost predicate Dropped<F>(s: State<F>, x: nat)
    requires x < |s.requests|
  {
    s.requests[x].files != [] && s.Of(s.requests[x].files[0]).status == Canceled
  }

  /** The settling loop: give the files of g a final status one by one, reporting each as complete. */
  ghost function CompleteEach<F>(s: State<F>, g: seq<F>, status: Status): State<F> {
    if g == [] then s
    else Complete(Mark(CompleteEach(s, g[..|g| - 1], status), {g[|g| - 1]}, status), 1)
  }

  ghost function Finished<F>(o: Options, s: State<F>, g: seq<F>): State<F> {
    Refill(o, CompleteEach(s, g, Success))
  }

  ghost function ErrorProcessing<F>(o: Options, s: State<F>, g: seq<F>): State<F> {
    Refill(o, CompleteEach(s, g, Error))
  }

  /** handleError runs _errorProcessing on the whole group once per file of the group. */
  ghost function HandleError<F>(o: Options, s: State<F>, g: seq<F>, rounds: nat): State<F> {
    if rounds == 0 then s else ErrorProcessing(o, HandleError(o, s, g, rounds - 1), g)
  }

  ghost function Break<F>(o: Options, s: State<F>, x: nat): State<F>
    requires x < |s.requests|
  {
    var g := s.requests[x].files;
    HandleError(o, Close(s, x, Settled), g, |g|)
  }

  ghost function Load<F>(o: Options, s: State<F>, x: nat, ready: bool, ok: bool): State<F>
    requires x < |s.requests|
  {
    if Dropped(s, x) || !ready then s
    else
      var t := SendAll(s, Elems(s.requests[x].files));
      if ok then Finished(o, Close(t, x, Settled), t.requests[x].files) else Break(o, t, x)
  }

  ghost function Fail<F>(o: Options, s: State<F>, x: nat): State<F>
    requires x < |s.requests|
  {
    if Dropped(s, x) then s else Break(o, s, x)
  }

  // ----- cancelling and removing -----

  /** The status changes and reports of cancelUpload, before it refills the queue. */
  ghost function Withdraw<F>(s: State<F>, f: F): State<F> {
    var i := s.Of(f);
    if i.status == Uploading && i.xhr.Some? then
      var g := FilesWithXhr(s, i.xhr.value);
      Complete(Close(Mark(s, Elems(g), Canceled), i.xhr.value, Aborted), |g|)
    else if i.status == Added || i.status == Queued then
      Complete(Mark(s, {f}, Canceled), 1)
    else s
  }

  ghost function Cancel<F>(o: Options, s: State<F>, f: F): State<F> { Refill(o, Withdraw(s, f)) }

  ghost function CancelEach<F>(o: Options, s: State<F>, fs: seq<F>): State<F> {
    if fs == [] then s else Cancel(o, CancelEach(o, s, fs[..|fs| - 1]), fs[|fs| - 1])
  }

  ghost function Disable<F>(o: Options, s: State<F>): State<F> { CancelEach(o, s, s.files) }

  ghost function Drop<F>(s: State<F>, f: F): State<F> { s.(files := Without(s.files, f)) }

  ghost function Remove<F>(o: Options, s: State<F>, f: F): State<F> {
    Drop(if s.Of(f).status == Uploading then Cancel(o, s, f) else s, f)
  }

  ghost function RemoveEach<F>(o: Options, s: State<F>, fs: seq<F>, cancelIfNecessary: bool): State<F> {
    if fs == [] then s
    else
      var t := RemoveEach(o, s, fs[..|fs| - 1], cancelIfNecessary);
      var f := fs[|fs| - 1];
      if t.Of(f).status != Uploading || cancelIfNecessary then Remove(o, t, f) else t
  }

  ghost function RemoveAll<F>(o: Options, s: State<F>, cancelIfNecessary: bool): State<F> {
    RemoveEach(o, s, s.files, cancelIfNecessary)
  }

  // ----- runs -----

  datatype Event<F> =
    | AddFile(file: F, desc: Desc)
    | EnqueueFile(file: F)
    | Process
    | Timer
    | OnProgress(x: nat, loaded: nat, total: nat)
    | OnLoad(x: nat, ready: bool, ok: bool)
    | OnError(x: nat)
    | CancelUpload(file: F)
    | RemoveFile(file: F)
    | RemoveAllFiles(cancelIfNecessary: bool)
    | DisableAll

  /**
   * What the page and the browser keep to: a file object is added once, only pending timers fire,
   * and a request that has reported load or error reports neither again. After an abort either may still come.
   */
  ghost predicate Possible<F>(s: State<F>, e: Event<F>) {
    match e
    case AddFile(f, _) => f !in s.info
    case Timer => s.timers > 0
    case OnProgress(x, _, _) => x < |s.requests|
    case OnLoad(x, _, _) => x < |s.requests| && s.requests[x].phase != Settled
    case OnError(x) => x < |s.requests| && s.requests[x].phase != Settled
    case _ => true
  }

  ghost function Step<F>(o: Options, s: State<F>, e: Event<F>): State<F>
    requires Possible(s, e)
  {
    match e
    case AddFile(f, d) => Add(o, s, f, d)
    case EnqueueFile(f) => Enqueue(o, s, f)
    case Process => ProcessQueue(o, s)
    case Timer => Fire(o, s)
    case OnProgress(x, loaded, total) => Progress(s, x, loaded, total)
    case OnLoad(x, ready, ok) => Load(o, s, x, ready, ok)
    case OnError(x) => Fail(o, s, x)
    case CancelUpload(f) => Cancel(o, s, f)
    case RemoveFile(f) => Remove(o, s, f)
    case RemoveAllFiles(c) => RemoveAll(o, s, c)
    case DisableAll => Disable(o, s)
  }

  ghost predicate Feasible<F>(o: Options, s: State<F>, es: seq<Event<F>>)
    decreases |es|
  {
    es == [] || (Possible(s, es[0]) && Feasible(o, Step(o, s, es[0]), es[1..]))
  }

  ghost function Run<F>(o: Options, s: State<F>, es: seq<Event<F>>): State<F>
    requires Feasible(o, s, es)
    decreases |es|
  {
    if es == [] then s else Run(o, Step(o, s, es[0]), es[1..])
  }
}
