/** No false gap: on every transport of every run, a data frame is written only behind its predecessor. */
module Gaps {

  import opened Prelude
  import opened Replay
  import opened Writer
  import opened Acks
  import opened Protocol
  import opened Safety

  /** The last number sent on a transport is its resume point or the last data number written to it. */
  ghost predicate Traced(s: Sys) {
    s.e.wt.Some? && s.e.wt.value < |s.out| ==>
      var written := s.out[s.e.wt.value].written;
      s.e.w.lastSent == s.e.start || (written != [] && written[|written| - 1] == s.e.w.lastSent)
  }

  /** What `Emit` adds to the numbers written: that of a data frame, on the writer's transport. */
  lemma {:induction false} EmitWrites(s: Sys, e': Endpoint, ws: seq<Wire>, ok: bool, t: nat)
    requires e'.wt.Some? && e'.wt.value < |s.out| && |ws| <= 1 && t < |s.out|
    ensures |Emit(s, e', ws, ok).out| == |s.out|
    ensures Emit(s, e', ws, ok).out[t].written ==
            if ok && e'.wt.value == t && ws != [] && ws[0].Data? then s.out[t].written + [ws[0].seqNo] else s.out[t].written
  {
  }

  /** Only replayed and live frames are data. */
  lemma {:induction false} OthersWriteNoData(s: Sys, a: Act, isClient: bool, t: nat)
    requires Enabled(s, a, isClient) && t < |s.out| && !a.Resume? && !a.Live? && !a.LiveHeld?
    ensures t < |Do(s, a, isClient).out| && Do(s, a, isClient).out[t].written == s.out[t].written
  {
    if a.TakeAck? {
      EmitWrites(s, s.e.TakenAck(), [AckUpTo(s.e.acks.lastRecv)], a.ok, t);
    } else if a.Timeout? {
      EmitWrites(s, s.e.(pc := Top), if a.ping then [Ping] else [], a.ok, t);
    } else if a.WriteClose? {
      EmitWrites(s, s.e, [Close], true, t);
    }
  }

  lemma {:induction false} ResumeWrites(s: Sys, ok: bool, p: Endpoint, t: nat)
    requires Good(s, p) && s.e.wt.Some? && s.e.w.resume != [] && t < |s.out|
    ensures var s' := DoResume(s, ok);
            && |s'.out| == |s.out|
            && (s'.out[t].written == s.out[t].written
                || (var n := s.e.w.WriteResume().0.lastSent;
                    && s.e.wt == Some(t) && s'.out[t].written == s.out[t].written + [n] && n > s.e.w.lastSent
                    && (n - 1 <= s.e.w.lastSent || n - 1 <= s.e.w.log.lastAcked)))
            && (s'.e.wt == Some(t) ==>
                  && s'.e.start == s.e.start && s.e.wt == Some(t)
                  && s'.e.w.lastSent ==
                     if s'.out[t].written == s.out[t].written then s.e.w.lastSent else s.e.w.WriteResume().0.lastSent)
  {
    var (w', ws) := s.e.w.WriteResume();
    WriteResumeTracks(s.e.w, s.e.staged);
    var wrote := ok || ws == [];
    EmitWrites(s, s.e.(w := if wrote then w' else w'.(lastSent := s.e.w.lastSent), pc := Top), ws, wrote, t);
  }

  /** A frame that is not staged is not written either. */
  lemma {:induction false} HeldWritesNone(s: Sys, f: Frame, ok: bool)
    requires s.e.wt.Some? && s.e.wt.value < |s.out| && !s.e.w.(held := None).Outcome(f).Staged?
    ensures var s' := DoLive(s, f, ok);
            s'.out == s.out && s'.e.wt == s.e.wt && s'.e.start == s.e.start && s'.e.w.lastSent == s.e.w.lastSent
  {
    assert s.out[s.e.wt.value := s.out[s.e.wt.value]] == s.out;
  }

  lemma {:induction false} StagedWrites(s: Sys, f: Frame, ok: bool, p: Endpoint, t: nat)
    requires Good(s, p) && s.e.wt.Some? && s.e.w.resume == [] && t < |s.out|
    requires s.e.w.(held := None).Outcome(f).Staged?
    ensures var s' := DoLive(s, f, ok);
            var n := |s.e.staged| + 1;
            && |s'.out| == |s.out|
            && s'.out[t].written == (if ok && s.e.wt == Some(t) then s.out[t].written + [n] else s.out[t].written)
            && (n - 1 <= s.e.w.lastSent || n - 1 <= s.e.w.log.lastAcked)
            && (s'.e.wt == Some(t) ==> ok && s'.e.start == s.e.start && s.e.wt == Some(t) && s'.e.w.lastSent == n)
  {
    var e := s.e.(w := s.e.w.(held := None));
    var (w', ws) := e.w.WriteLive(f);
    WriteLiveTracks(e.w, s.e.staged, f);
    var e' := e.Staging(f);
    var pc' := if w'.held.Some? && s.e.pc.AckChecked? then Full else Top;
    EmitWrites(s, e'.(w := if ok then w' else e'.w, pc := pc'), ws, ok, t);
  }

  lemma {:induction false} LiveWrites(s: Sys, f: Frame, ok: bool, p: Endpoint, t: nat)
    requires Good(s, p) && s.e.wt.Some? && s.e.w.resume == [] && t < |s.out|
    ensures var s' := DoLive(s, f, ok);
            var n := |s.e.staged| + 1;
            && |s'.out| == |s.out|
            && (s'.out[t].written == s.out[t].written
                || (s.e.wt == Some(t) && s'.out[t].written == s.out[t].written + [n]
                    && (n - 1 <= s.e.w.lastSent || n - 1 <= s.e.w.log.lastAcked)))
            && (s'.e.wt == Some(t) ==>
                  && s'.e.start == s.e.start && s.e.wt == Some(t)
                  && s'.e.w.lastSent == if s'.out[t].written == s.out[t].written then s.e.w.lastSent else n)
  {
    if s.e.w.(held := None).Outcome(f).Staged? {
      StagedWrites(s, f, ok, p, t);
    } else {
      HeldWritesNone(s, f, ok);
    }
  }

  lemma {:induction false} ResumeTraced(s: Sys, ok: bool, p: Endpoint)
    requires Good(s, p) && Traced(s) && s.e.wt.Some? && s.e.w.resume != []
    ensures Traced(DoResume(s, ok))
  {
    ResumeWrites(s, ok, p, s.e.wt.value);
  }

  lemma {:induction false} LiveTraced(s: Sys, f: Frame, ok: bool, p: Endpoint)
    requires Good(s, p) && Traced(s) && s.e.wt.Some? && s.e.w.resume == []
    ensures Traced(DoLive(s, f, ok))
  {
    LiveWrites(s, f, ok, p, s.e.wt.value);
  }

  lemma {:induction false} SteadySent(s: Sys, a: Act, isClient: bool)
    requires Enabled(s, a, isClient) && !a.Resume? && !a.Live? && !a.LiveHeld?
    ensures var e' := Do(s, a, isClient).e;
            e'.wt.Some? ==> e'.w.lastSent == e'.start || (e'.wt == s.e.wt && e'.start == s.e.start && e'.w.lastSent == s.e.w.lastSent)
  {
  }

  lemma {:induction false} MoveTraced(s: Sys, a: Act, isClient: bool, p: Endpoint)
    requires Good(s, p) && Traced(s) && Enabled(s, a, isClient)
    ensures Traced(Do(s, a, isClient))
  {
    if a.Resume? {
      ResumeTraced(s, a.ok, p);
    } else if a.Live? {
      LiveTraced(s, a.f, a.ok, p);
    } else if a.LiveHeld? {
      LiveTraced(s, s.e.w.held.value, a.ok, p);
    } else {
      SteadySent(s, a, isClient);
      if s.e.wt.Some? {
        OthersWriteNoData(s, a, isClient, s.e.wt.value);
      }
    }
  }

  /** A move leaves alone what the peer has written. */
  lemma {:induction false} PeerTraced(s: Sys, a: Act, isClient: bool, p: Endpoint)
    requires Linked(Sys(p, s.inn, s.out)) && Traced(Sys(p, s.inn, s.out)) && Enabled(s, a, isClient)
    ensures Traced(Sys(p, Do(s, a, isClient).inn, Do(s, a, isClient).out))
  {
    assert |Do(s, a, isClient).inn| >= |s.inn|;
    assert forall t :: 0 <= t < |s.inn| ==> Do(s, a, isClient).inn[t].written == s.inn[t].written;
  }

  /** A data frame is written only behind its predecessor: the number before it was written on the same
      transport, is covered by the transport's resume point, or is acknowledged. */
  lemma {:induction false} WrittenFollows(s: Sys, a: Act, isClient: bool, p: Endpoint, t: nat, n: nat)
    requires Good(s, p) && Traced(s) && Enabled(s, a, isClient) && t < |s.out|
    requires t < |Do(s, a, isClient).out| && Do(s, a, isClient).out[t].written == s.out[t].written + [n]
    ensures n >= 1 && s.e.wt == Some(t)
    ensures n - 1 in s.out[t].written || n - 1 <= s.e.start || n - 1 <= s.e.w.log.lastAcked
  {
    var ns := s.out[t].written;
    assert ns + [n] != ns && (ns + [n])[|ns|] == n;
    match a
    case Resume(ok) => ResumeFollows(s, ok, p, t, n);
    case Live(f, ok) => LiveFollows(s, f, ok, p, t, n);
    case LiveHeld(ok) => LiveFollows(s, s.e.w.held.value, ok, p, t, n);
    case _ => OthersWriteNoData(s, a, isClient, t);
  }

  lemma {:induction false} ResumeFollows(s: Sys, ok: bool, p: Endpoint, t: nat, n: nat)
    requires Good(s, p) && Traced(s) && s.e.wt.Some? && s.e.w.resume != [] && t < |s.out|
    requires DoResume(s, ok).out[t].written == s.out[t].written + [n] != s.out[t].written
    ensures n >= 1 && s.e.wt == Some(t)
    ensures n - 1 in s.out[t].written || n - 1 <= s.e.start || n - 1 <= s.e.w.log.lastAcked
  {
    var ns := s.out[t].written;
    ResumeWrites(s, ok, p, t);
    assert (ns + [n])[|ns|] == n;
  }

  lemma {:induction false} LiveFollows(s: Sys, f: Frame, ok: bool, p: Endpoint, t: nat, n: nat)
    requires Good(s, p) && Traced(s) && s.e.wt.Some? && s.e.w.resume == [] && t < |s.out|
    requires DoLive(s, f, ok).out[t].written == s.out[t].written + [n] != s.out[t].written
    ensures n >= 1 && s.e.wt == Some(t)
    ensures n - 1 in s.out[t].written || n - 1 <= s.e.start || n - 1 <= s.e.w.log.lastAcked
  {
    var ns := s.out[t].written;
    LiveWrites(s, f, ok, p, t);
    assert (ns + [n])[|ns|] == n;
  }

  ghost predicate BothTraced(w: World) {
    Traced(w.View(true)) && Traced(w.View(false))
  }

  lemma {:induction false} InitIsTraced(w: World)
    requires w.client.wt.None? && w.server.wt.None?
    ensures BothTraced(w)
  {
  }

  lemma {:induction false} NextKeepsTraced(w: World, m: Move)
    requires Safe(w) && BothTraced(w) && CanMove(w, m)
    ensures BothTraced(Next(w, m))
  {
    MoveTraced(w.View(m.isClient), m.act, m.isClient, w.Peer(m.isClient));
    PeerTraced(w.View(m.isClient), m.act, m.isClient, w.Peer(m.isClient));
  }

  lemma {:induction false} RunsAreTraced(r: Run)
    ensures BothTraced(End(r))
  {
    match r
    case Start(_, _) => InitIsTraced(End(r));
    case Then(before, m) =>
      RunsAreTraced(before);
      if CanMove(End(before), m) {
        RunsAreSafe(before);
        NextKeepsTraced(End(before), m);
      }
  }

  /** No false gap, over every run: whenever a run can write data number `n` next, its predecessor is there. */
  lemma {:induction false} NoGapInRuns(r: Run, m: Move, t: nat, n: nat)
    requires CanMove(End(r), m)
    requires var s, s' := End(r).View(m.isClient), End(Then(r, m)).View(m.isClient);
             t < |s.out| && t < |s'.out| && s'.out[t].written == s.out[t].written + [n]
    ensures var s := End(r).View(m.isClient);
            n >= 1 && (n - 1 in s.out[t].written || n - 1 <= s.e.start || n - 1 <= s.e.w.log.lastAcked)
  {
    RunsAreSafe(r);
    RunsAreTraced(r);
    WrittenFollows(End(r).View(m.isClient), m.act, m.isClient, End(r).Peer(m.isClient), t, n);
  }
}
