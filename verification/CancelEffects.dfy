/** What disable() and removeAllFiles(true) do to every file, although their cancels may start further uploads. */
module CancelEffects {
  import opened Collections
  import opened Uploads
  import opened UploadInvariants
  import opened UploadSteps
  import opened UploadTheorems
  import opened UploadEffects

  /**
   * t is s after some cancels: listed files that had not ended may have been canceled, or sent in between; nothing else
   * changed. Unless direct, a file is only ever canceled with a request, so never a waiting one.
   */
  ghost predicate OnlyCancels<F>(s: State<F>, t: State<F>, direct: bool) {
    && t.timers == s.timers && (forall f | f in t.files :: f in s.files)
    && forall f | f in s.info :: f in t.info && MaybeCancelled(s.info[f], t.info[f], f in s.files, direct)
  }

  predicate MaybeCancelled(i: Info, j: Info, listed: bool, direct: bool) {
    && j == i.(status := j.status, xhr := j.xhr)
    && if !listed || Terminal(i.status) then j == i
       else
         || j == i
         || (j.status == Canceled && (direct || (i.status != Added && j.xhr.Some?)) && (i.xhr.Some? ==> j.xhr == i.xhr))
         || (i.status == Queued && j.status == Uploading && j.xhr.Some? && (i.xhr.Some? ==> j.xhr == i.xhr))
  }

  lemma OnlyCancelsTwice<F>(s: State<F>, m: State<F>, t: State<F>, direct: bool)
    requires OnlyCancels(s, m, direct) && OnlyCancels(m, t, direct)
    ensures OnlyCancels(s, t, direct)
  {
    forall f | f in s.info ensures f in t.info && MaybeCancelled(s.info[f], t.info[f], f in s.files, direct) {
      assert f in m.info && MaybeCancelled(s.info[f], m.info[f], f in s.files, direct);
      assert MaybeCancelled(m.info[f], t.info[f], f in m.files, direct);
    }
  }

  lemma CancelOnlyCancels<F>(o: Options, s: State<F>, f: F)
    requires Inv(o, s) && f in s.files
    ensures OnlyCancels(s, Cancel(o, s, f), s.Of(f).status != Uploading)
  {
    hide Cancel, Followed, Amid;
    var t, direct := Cancel(o, s, f), s.Of(f).status != Uploading;
    CancelKeeps(o, s, f);
    CancelEffect(o, s, f);
    FollowedTimers(o, Amid(s, Cancelled(s, f), Canceled, false, Closing(s, f), Aborted, t.armed), t);
    AmidTimers(s, Cancelled(s, f), Canceled, false, Closing(s, f), Aborted, t.armed);
    CancelOutcome(o, s, f);
    forall g | g in s.info ensures g in t.info && MaybeCancelled(s.info[g], t.info[g], g in s.files, direct) {
      if g in Cancelled(s, f) {
        CancelledListed(o, s, f, g);
      } else {
        assert SameOrSent(o, s, t, g);
        assert FileOk(o, s, g);
      }
    }
  }

  lemma FollowedTimers<F>(o: Options, s: State<F>, t: State<F>)
    requires Followed(o, s, t)
    ensures t.timers == s.timers
  {
  }

  lemma AmidTimers<F>(s: State<F>, g: set<F>, status: Status, full: bool, x: Option<nat>, phase: Phase, armed: nat)
    ensures Amid(s, g, status, full, x, phase, armed).timers == s.timers
  {
  }

  lemma CancelledListed<F>(o: Options, s: State<F>, f: F, g: F)
    requires Inv(o, s) && f in s.files && g in Cancelled(s, f)
    ensures g in s.files && !Terminal(s.Of(g).status) && (s.Of(f).status == Uploading ==> s.Of(g).xhr.Some?)
  {
    if s.Of(f).status == Uploading {
      UploadingFile(o, s, f);
      LiveFile(o, s, s.Of(f).xhr.value, g);
    }
  }

  lemma {:induction false} CancelEachOnlyCancels<F>(o: Options, s: State<F>, fs: seq<F>)
    requires Inv(o, s) && forall f | f in fs :: f in s.files
    ensures OnlyCancels(s, CancelEach(o, s, fs), true)
  {
    hide Inv, Cancel, OnlyCancels;
    if fs == [] {
      NoCancels(s, true);
    } else {
      var n := |fs| - 1;
      var m := CancelEach(o, s, fs[..n]);
      CancelEachOnlyCancels(o, s, fs[..n]);
      CancelEachKeeps(o, s, fs[..n]);
      CancelOnlyCancels(o, m, fs[n]);
      AnyDirect(m, Cancel(o, m, fs[n]), m.Of(fs[n]).status != Uploading);
      OnlyCancelsTwice(s, m, Cancel(o, m, fs[n]), true);
    }
  }

  lemma NoCancels<F>(s: State<F>, direct: bool)
    ensures OnlyCancels(s, s, direct)
  {
  }

  lemma AnyDirect<F>(s: State<F>, t: State<F>, direct: bool)
    requires OnlyCancels(s, t, direct)
    ensures OnlyCancels(s, t, true)
  {
  }

  /** disable() cancels the listed files that have not ended, and changes no other. */
  lemma DisableEffect<F>(o: Options, s: State<F>)
    requires Inv(o, s)
    ensures var t := Disable(o, s);
      && t.files == s.files && t.timers == s.timers
      && forall f | f in s.info :: f in t.info &&
           t.info[f] == if f in s.files && !Terminal(s.info[f].status)
                        then s.info[f].(status := Canceled, xhr := t.info[f].xhr) else s.info[f]
  {
    hide Disable, Inv;
    var t := Disable(o, s);
    DisableEndsEverything(o, s);
    assert OnlyCancels(s, t, true) by {
      DisableOnlyCancels(o, s);
    }
    forall f | f in s.info && f in s.files && !Terminal(s.info[f].status)
      ensures t.info[f] == s.info[f].(status := Canceled, xhr := t.info[f].xhr)
    {
      assert MaybeCancelled(s.info[f], t.info[f], true, true) && Terminal(t.Of(f).status);
    }
  }

  lemma DisableOnlyCancels<F>(o: Options, s: State<F>)
    requires Inv(o, s)
    ensures OnlyCancels(s, Disable(o, s), true)
  {
    CancelEachOnlyCancels(o, s, s.files);
  }

  lemma RemoveOnlyCancels<F>(o: Options, s: State<F>, f: F)
    requires Inv(o, s) && f in s.files
    ensures OnlyCancels(s, Remove(o, s, f), false)
  {
    hide Inv, Cancel;
    if s.Of(f).status == Uploading {
      CancelOnlyCancels(o, s, f);
    } else {
      NoCancels(s, false);
    }
  }

  lemma {:induction false} RemoveEachOnlyCancels<F>(o: Options, s: State<F>, fs: seq<F>)
    requires Inv(o, s) && Distinct(fs) && forall f | f in fs :: f in s.files
    ensures OnlyCancels(s, RemoveEach(o, s, fs, true), false)
    ensures forall f | f in s.files && f !in fs :: f in RemoveEach(o, s, fs, true).files
  {
    hide Inv, Remove, OnlyCancels;
    if fs == [] {
      NoCancels(s, false);
    } else {
      var n := |fs| - 1;
      var m := RemoveEach(o, s, fs[..n], true);
      RemoveEachOnlyCancels(o, s, fs[..n]);
      RemoveEachKeeps(o, s, fs[..n], true);
      assert fs[n] in fs && fs[n] !in fs[..n];
      RemoveOnlyCancels(o, m, fs[n]);
      OnlyCancelsTwice(s, m, Remove(o, m, fs[n]), false);
      RemoveKeeps(o, m, fs[n]);
      assert fs == fs[..n] + [fs[n]];
    }
  }

  /**
   * removeAllFiles(true) changes nothing but the list and the files it aborts: each upload is canceled, a queued file
   * stays queued or is canceled after having been sent in between, and every other file is as it was.
   */
  lemma RemoveAllEffect<F>(o: Options, s: State<F>)
    requires Inv(o, s)
    ensures var t := RemoveAll(o, s, true);
      && t.files == [] && t.timers == s.timers
      && forall f | f in s.info :: f in t.info &&
           if f in s.files && s.info[f].status == Uploading then t.info[f] == s.info[f].(status := Canceled)
           else
             || t.info[f] == s.info[f]
             || (f in s.files && s.info[f].status == Queued && t.info[f].xhr.Some?
                 && t.info[f] == s.info[f].(status := Canceled, xhr := t.info[f].xhr))
  {
    hide RemoveAll, Inv;
    var t := RemoveAll(o, s, true);
    RemoveAllAborts(o, s);
    assert OnlyCancels(s, t, false) by {
      RemoveAllOnlyCancels(o, s);
    }
    forall f | f in s.info
      ensures s.info[f].status != Undefined && (s.info[f].status == Uploading ==> s.info[f].xhr.Some?)
    {
      UploadHasRequest(o, s, f);
    }
    assert forall f | f in s.info :: MaybeCancelled(s.info[f], t.info[f], f in s.files, false);
  }

  lemma UploadHasRequest<F>(o: Options, s: State<F>, f: F)
    requires Inv(o, s) && f in s.info
    ensures s.info[f].status != Undefined && (s.info[f].status == Uploading ==> s.info[f].xhr.Some?)
  {
    assert FileOk(o, s, f);
  }

  lemma RemoveAllOnlyCancels<F>(o: Options, s: State<F>)
    requires Inv(o, s)
    ensures OnlyCancels(s, RemoveAll(o, s, true), false)
  {
    RemoveEachOnlyCancels(o, s, s.files);
  }
}
