/**
 * RedisFingerprintCleanup.execute: the periodic sweep over one instance's
 * fingerprints.  It walks the instance's index set with SSCAN from the start
 * pointer until the server hands the start pointer back, loads every id of
 * every batch, skips ids that are gone or malformed, and offers each loaded
 * fingerprint to the cleanup callback, which deletes the obsolete ones.  A
 * server failure ends the sweep quietly.
 *
 * The sweep is specified by the function RunSweep; Execute is proved to
 * compute it, and the lemmas state what every sweep does.
 */
module Cleanup {
  import opened Wrappers
  import opened Codec
  import opened KeyScheme
  import opened RedisStore
  import opened RedisStorage

  /** How a sweep ended: the start pointer came back, a JedisException was caught, or the fuel ran out. */
  datatype Status = Completed | Aborted | OutOfFuel

  /** One SSCAN the sweep issued: the cursor it resumed at and what came back. */
  datatype Scan = Scan(cursor: string, reply: Result<ScanReply, Failure>)

  /**
   * A sweep in progress: the server's data, the scans issued, the ids loaded,
   * the fingerprints offered to the callback, and whether a load failed.
   */
  datatype Progress = Progress(state: State, trace: seq<Scan>, loaded: seq<string>,
                               offered: seq<Fingerprint>, failed: bool)

  /** A finished sweep. */
  datatype Sweep = Sweep(progress: Progress, status: Status)

  /** The cleanup callback's decision: true when the fingerprint is obsolete and is to be deleted. */
  type Callback = Fingerprint -> bool

  /**
   * One id of a batch: load it; a failed load aborts the batch, a missing or
   * malformed record is skipped, and a loaded fingerprint is offered to the
   * callback, which deletes it by its hash when it is obsolete.  With the
   * server's responsiveness fixed for a sweep, a failed load cannot follow a
   * successful scan: the failure branches here are reached only by VisitId and
   * VisitBatch on their own, never from RunSweep.
   */
  function VisitId(p: Progress, up: bool, instanceId: Digest, purge: Callback, id: string): (q: Progress)
    ensures q.trace == p.trace && q.loaded == p.loaded + [id]
    ensures q.failed == (p.failed || !up)
    ensures var r := LoadFrom(p.state, instanceId, id);
      if up && r.Ok? && r.value.Some? then q.offered == p.offered + [r.value.value] else q.offered == p.offered
  {
    var p := p.(loaded := p.loaded + [id]);
    if !up then p.(failed := true)
    else match LoadFrom(p.state, instanceId, id)
      case Err(_) => p
      case Ok(None) => p
      case Ok(Some(fp)) =>
        var p := p.(offered := p.offered + [fp]);
        if purge(fp) then p.(state := Apply(p.state, DeleteTx(instanceId, fp.hash))) else p
  }

  /** The ids of one batch in order, stopping at the first failed load. */
  function VisitBatch(p: Progress, up: bool, instanceId: Digest, purge: Callback, ids: seq<string>): (q: Progress)
    decreases |ids|
    ensures q.trace == p.trace
    ensures p.failed ==> q == p
    ensures q.failed == (p.failed || (!up && ids != []))
    ensures p.offered <= q.offered
    ensures !q.failed ==> q.loaded == p.loaded + ids
  {
    if ids == [] || p.failed then p
    else
      var r := VisitBatch(VisitId(p, up, instanceId, purge, ids[0]), up, instanceId, purge, ids[1..]);
      assert [ids[0]] + ids[1..] == ids;
      r
  }

  /** The do-while from `cursor` on, with at most `fuel` more scans. */
  function SweepFrom(p: Progress, up: bool, instanceId: Digest, scanner: Scanner, purge: Callback,
                     cursor: string, fuel: nat): (sw: Sweep)
    decreases fuel
    ensures p.offered <= sw.progress.offered
  {
    if fuel == 0 then Sweep(p, OutOfFuel)
    else
      var reply := ScanAt(up, scanner, p.state, instanceId, cursor);
      var p := p.(trace := p.trace + [Scan(cursor, reply)]);
      match reply
      case Err(_) => Sweep(p, Aborted)
      case Ok(batch) =>
        var q := VisitBatch(p, up, instanceId, purge, batch.ids);
        if q.failed then Sweep(q, Aborted)
        else if batch.cursor == ScanPointerStart then Sweep(q, Completed)
        else SweepFrom(q, up, instanceId, scanner, purge, batch.cursor, fuel - 1)
  }

  /** The whole sweep, from the start pointer, on server data `s`. */
  function RunSweep(s: State, up: bool, instanceId: Digest, scanner: Scanner, purge: Callback, fuel: nat): (sw: Sweep)
    ensures fuel > 0 ==> |sw.progress.trace| > 0 && sw.progress.trace[0].cursor == ScanPointerStart
    ensures |sw.progress.trace| <= fuel
  {
    SweepShape(Progress(s, [], [], [], false), up, instanceId, scanner, purge, ScanPointerStart, fuel);
    SweepFrom(Progress(s, [], [], [], false), up, instanceId, scanner, purge, ScanPointerStart, fuel)
  }

  /** The ids a scan delivered. */
  function IdsOf(scan: Scan): seq<string>
  {
    if scan.reply.Ok? then scan.reply.value.ids else []
  }

  /** The ids all scans of `t` delivered, in order. */
  function BatchIds(t: seq<Scan>): seq<string>
    decreases |t|
  {
    if t == [] then [] else BatchIds(t[..|t| - 1]) + IdsOf(t[|t| - 1])
  }

  /** From index k on, every scan but the last returned a cursor other than the start pointer, and the next scan resumed there. */
  ghost predicate ChainedFrom(t: seq<Scan>, k: nat)
  {
    forall i :: k <= i < |t| - 1 ==>
      t[i].reply.Ok? && t[i].reply.value.cursor != ScanPointerStart && t[i + 1].cursor == t[i].reply.value.cursor
  }

  /** The record of `id` is gone: not indexed and not stored. */
  ghost predicate Gone(s: State, instanceId: Digest, id: string)
  {
    id !in Index(s, instanceId) && RecordKey(instanceId, id) !in s.kv
  }

  /**
   * The instance is healthy, every fingerprint the callback rejected is gone,
   * and every fingerprint it kept still loads as it was.
   */
  ghost predicate Settled(p: Progress, instanceId: Digest, purge: Callback)
  {
    && Healthy(p.state, instanceId)
    && forall i :: 0 <= i < |p.offered| ==>
         if purge(p.offered[i]) then Gone(p.state, instanceId, p.offered[i].hash)
         else LoadFrom(p.state, instanceId, p.offered[i].hash) == Ok(Some(p.offered[i]))
  }

  /**
   * The shape of the do-while: the scans issued extend the earlier ones, the
   * first resumes at `cursor`, each next one resumes where the previous one
   * pointed, no scan but the last returned the start pointer, at most `fuel`
   * scans are issued (exactly `fuel` when the fuel ran out), and a completed
   * sweep ended on the start pointer.
   */
  lemma {:induction false} SweepShape(p: Progress, up: bool, instanceId: Digest, scanner: Scanner,
                                      purge: Callback, cursor: string, fuel: nat)
    ensures var sw := SweepFrom(p, up, instanceId, scanner, purge, cursor, fuel);
      var t := sw.progress.trace;
      && |p.trace| <= |t| <= |p.trace| + fuel
      && t[..|p.trace|] == p.trace
      && (fuel > 0 ==> |t| > |p.trace| && t[|p.trace|].cursor == cursor)
      && (sw.status == OutOfFuel ==> |t| == |p.trace| + fuel)
      && ChainedFrom(t, |p.trace|)
      && (sw.status == Completed ==>
            |t| > |p.trace| && t[|t| - 1].reply.Ok? && t[|t| - 1].reply.value.cursor == ScanPointerStart)
    decreases fuel
  {
    if fuel > 0 {
      var reply := ScanAt(up, scanner, p.state, instanceId, cursor);
      var p' := p.(trace := p.trace + [Scan(cursor, reply)]);
      if reply.Ok? {
        var q := VisitBatch(p', up, instanceId, purge, reply.value.ids);
        if !q.failed && reply.value.cursor != ScanPointerStart {
          SweepShape(q, up, instanceId, scanner, purge, reply.value.cursor, fuel - 1);
          var t := SweepFrom(q, up, instanceId, scanner, purge, reply.value.cursor, fuel - 1).progress.trace;
          var k := |p.trace|;
          assert t[..k + 1] == p.trace + [Scan(cursor, reply)];
          assert t[..k] == t[..k + 1][..k];
          assert t[k] == t[..k + 1][k];
        }
      }
    }
  }

  /** A sweep loads exactly the ids its scans delivered, in order. */
  lemma {:induction false} SweepLoadsEveryDeliveredId(p: Progress, up: bool, instanceId: Digest, scanner: Scanner,
                                                      purge: Callback, cursor: string, fuel: nat)
    requires !p.failed && p.loaded == BatchIds(p.trace)
    ensures var sw := SweepFrom(p, up, instanceId, scanner, purge, cursor, fuel);
      sw.progress.loaded == BatchIds(sw.progress.trace)
    decreases fuel
  {
    if fuel > 0 {
      var reply := ScanAt(up, scanner, p.state, instanceId, cursor);
      var scan := Scan(cursor, reply);
      var p' := p.(trace := p.trace + [scan]);
      assert (p.trace + [scan])[..|p.trace|] == p.trace;
      assert BatchIds(p'.trace) == p.loaded + IdsOf(scan);
      if reply.Ok? {
        var q := VisitBatch(p', up, instanceId, purge, reply.value.ids);
        if !q.failed && reply.value.cursor != ScanPointerStart {
          SweepLoadsEveryDeliveredId(q, up, instanceId, scanner, purge, reply.value.cursor, fuel - 1);
        }
      }
    }
  }

  /** On a responsive server a sweep aborts only when a scan failed, and that scan is its last. */
  lemma {:induction false} ReachableSweepAbortsOnlyOnFailedScan(p: Progress, instanceId: Digest, scanner: Scanner,
                                                                 purge: Callback, cursor: string, fuel: nat)
    requires !p.failed
    ensures var sw := SweepFrom(p, true, instanceId, scanner, purge, cursor, fuel);
      var t := sw.progress.trace;
      && !sw.progress.failed
      && (sw.status == Aborted ==> |t| > 0 && t[|t| - 1].reply.Err?)
    decreases fuel
  {
    if fuel > 0 {
      var reply := ScanAt(true, scanner, p.state, instanceId, cursor);
      var p' := p.(trace := p.trace + [Scan(cursor, reply)]);
      if reply.Ok? {
        var q := VisitBatch(p', true, instanceId, purge, reply.value.ids);
        if reply.value.cursor != ScanPointerStart {
          ReachableSweepAbortsOnlyOnFailedScan(q, instanceId, scanner, purge, reply.value.cursor, fuel - 1);
        }
      }
    }
  }

  /** A missing record, or one that is no fingerprint, is skipped: the id counts as loaded and nothing else changes. */
  lemma UnloadableRecordIsSkipped(p: Progress, instanceId: Digest, purge: Callback, id: string)
    requires !LoadFrom(p.state, instanceId, id).Ok? || LoadFrom(p.state, instanceId, id).value.None?
    ensures VisitId(p, true, instanceId, purge, id) == p.(loaded := p.loaded + [id])
  {
  }

  /** On a server that does not respond in time the first scan fails and the sweep ends with nothing loaded, offered or changed. */
  lemma UnresponsiveSweepAborts(s: State, instanceId: Digest, scanner: Scanner, purge: Callback, fuel: nat)
    requires fuel > 0
    ensures RunSweep(s, false, instanceId, scanner, purge, fuel) ==
      Sweep(Progress(s, [Scan(ScanPointerStart, Err(JedisFailure))], [], [], false), Aborted)
  {
  }

  /** A gone record stays gone under any later delete of the instance. */
  lemma GoneStaysGone(s: State, instanceId: Digest, id: string, x: string)
    requires Gone(s, instanceId, id)
    ensures Gone(Apply(s, DeleteTx(instanceId, x)), instanceId, id)
  {
    DeleteRemovesBoth(s, instanceId, x);
  }

  /** Visiting one id keeps the sweep settled. */
  lemma VisitIdSettles(p: Progress, up: bool, instanceId: Digest, purge: Callback, id: string)
    requires Settled(p, instanceId, purge)
    ensures Settled(VisitId(p, up, instanceId, purge, id), instanceId, purge)
  {
    var s := p.state;
    var r := LoadFrom(s, instanceId, id);
    if up && r.Ok? && r.value.Some? {
      var fp := r.value.value;
      assert id in Index(s, instanceId);
      assert DecodesTo(s.kv[RecordKey(instanceId, id)], id);
      assert fp.hash == id;
      var q := VisitId(p, up, instanceId, purge, id);
      assert q.offered == p.offered + [fp];
      if purge(fp) {
        var t := Apply(s, DeleteTx(instanceId, fp.hash));
        assert q.state == t;
        DeletePreservesHealthy(s, instanceId, instanceId, fp.hash);
        DeleteRemovesBoth(s, instanceId, fp.hash);
        forall i | 0 <= i < |q.offered|
          ensures if purge(q.offered[i]) then Gone(t, instanceId, q.offered[i].hash)
                  else LoadFrom(t, instanceId, q.offered[i].hash) == Ok(Some(q.offered[i]))
        {
          var o := q.offered[i];
          if i == |p.offered| {
            assert o == fp;
          } else {
            assert o == p.offered[i];
            if purge(o) {
              GoneStaysGone(s, instanceId, o.hash, fp.hash);
            } else {
              assert o.hash != fp.hash;
              RecordKeyInjective(instanceId, instanceId, o.hash, fp.hash);
            }
          }
        }
      } else {
        assert q.state == s;
        forall i | 0 <= i < |q.offered|
          ensures if purge(q.offered[i]) then Gone(s, instanceId, q.offered[i].hash)
                  else LoadFrom(s, instanceId, q.offered[i].hash) == Ok(Some(q.offered[i]))
        {
          if i < |p.offered| {
            assert q.offered[i] == p.offered[i];
          }
        }
      }
    }
  }

  /** Visiting a batch keeps the sweep settled. */
  lemma {:induction false} VisitBatchSettles(p: Progress, up: bool, instanceId: Digest, purge: Callback, ids: seq<string>)
    requires Settled(p, instanceId, purge)
    ensures Settled(VisitBatch(p, up, instanceId, purge, ids), instanceId, purge)
    decreases |ids|
  {
    if ids != [] && !p.failed {
      VisitIdSettles(p, up, instanceId, purge, ids[0]);
      VisitBatchSettles(VisitId(p, up, instanceId, purge, ids[0]), up, instanceId, purge, ids[1..]);
    }
  }

  /** Continuing a sweep keeps it settled. */
  lemma {:induction false} SweepFromSettles(p: Progress, up: bool, instanceId: Digest, scanner: Scanner,
                                            purge: Callback, cursor: string, fuel: nat)
    requires Settled(p, instanceId, purge)
    ensures Settled(SweepFrom(p, up, instanceId, scanner, purge, cursor, fuel).progress, instanceId, purge)
    decreases fuel
  {
    if fuel > 0 {
      var reply := ScanAt(up, scanner, p.state, instanceId, cursor);
      var p' := p.(trace := p.trace + [Scan(cursor, reply)]);
      if reply.Ok? {
        VisitBatchSettles(p', up, instanceId, purge, reply.value.ids);
        var q := VisitBatch(p', up, instanceId, purge, reply.value.ids);
        if !q.failed && reply.value.cursor != ScanPointerStart {
          SweepFromSettles(q, up, instanceId, scanner, purge, reply.value.cursor, fuel - 1);
        }
      }
    }
  }

  /**
   * A sweep of a healthy instance leaves it healthy, deletes every
   * fingerprint the callback rejected, and keeps every one it accepted.
   */
  lemma SweepDeletesExactlyTheRejected(s: State, up: bool, instanceId: Digest, scanner: Scanner,
                                       purge: Callback, fuel: nat)
    requires Healthy(s, instanceId)
    ensures var p := RunSweep(s, up, instanceId, scanner, purge, fuel).progress;
      && Healthy(p.state, instanceId)
      && (forall fp :: fp in p.offered && purge(fp) ==>
            fp.hash !in Index(p.state, instanceId) && LoadFrom(p.state, instanceId, fp.hash) == Ok(None))
      && (forall fp :: fp in p.offered && !purge(fp) ==> LoadFrom(p.state, instanceId, fp.hash) == Ok(Some(fp)))
  {
    SweepFromSettles(Progress(s, [], [], [], false), up, instanceId, scanner, purge, ScanPointerStart, fuel);
    var p := RunSweep(s, up, instanceId, scanner, purge, fuel).progress;
    forall fp | fp in p.offered
      ensures purge(fp) ==> fp.hash !in Index(p.state, instanceId) && LoadFrom(p.state, instanceId, fp.hash) == Ok(None)
      ensures !purge(fp) ==> LoadFrom(p.state, instanceId, fp.hash) == Ok(Some(fp))
    {
      var i :| 0 <= i < |p.offered| && p.offered[i] == fp;
    }
  }

  /**
   * The sweep keeps track of the fingerprint `f` stored under `x`: the
   * instance is healthy, `f` still loads under `x` unless it was already
   * offered, and once `x` was loaded `f` has been offered.
   */
  ghost predicate Tracks(p: Progress, instanceId: Digest, x: string, f: Fingerprint)
  {
    && Healthy(p.state, instanceId)
    && (LoadFrom(p.state, instanceId, x) == Ok(Some(f)) || f in p.offered)
    && (x in p.loaded ==> f in p.offered)
  }

  /** Visiting one id on a responsive server keeps track of `f`. */
  lemma VisitIdTracks(p: Progress, instanceId: Digest, purge: Callback, id: string, x: string, f: Fingerprint)
    requires Tracks(p, instanceId, x, f)
    ensures Tracks(VisitId(p, true, instanceId, purge, id), instanceId, x, f)
  {
    var s := p.state;
    var r := LoadFrom(s, instanceId, id);
    if r.Ok? && r.value.Some? {
      var fp := r.value.value;
      assert id in Index(s, instanceId);
      assert DecodesTo(s.kv[RecordKey(instanceId, id)], id);
      assert fp.hash == id;
      if purge(fp) {
        DeletePreservesHealthy(s, instanceId, instanceId, id);
        DeleteRemovesBoth(s, instanceId, id);
        RecordKeyInjective(instanceId, instanceId, x, id);
      }
    }
  }

  /** Visiting a batch on a responsive server keeps track of `f`. */
  lemma {:induction false} VisitBatchTracks(p: Progress, instanceId: Digest, purge: Callback, ids: seq<string>,
                                            x: string, f: Fingerprint)
    requires Tracks(p, instanceId, x, f)
    ensures Tracks(VisitBatch(p, true, instanceId, purge, ids), instanceId, x, f)
    decreases |ids|
  {
    if ids != [] && !p.failed {
      VisitIdTracks(p, instanceId, purge, ids[0], x, f);
      VisitBatchTracks(VisitId(p, true, instanceId, purge, ids[0]), instanceId, purge, ids[1..], x, f);
    }
  }

  /** Continuing a sweep keeps track of `f`; on an unresponsive server the first scan fails and nothing is loaded. */
  lemma {:induction false} SweepFromTracks(p: Progress, up: bool, instanceId: Digest, scanner: Scanner,
                                           purge: Callback, cursor: string, fuel: nat, x: string, f: Fingerprint)
    requires Tracks(p, instanceId, x, f)
    ensures Tracks(SweepFrom(p, up, instanceId, scanner, purge, cursor, fuel).progress, instanceId, x, f)
    decreases fuel
  {
    if fuel > 0 {
      var reply := ScanAt(up, scanner, p.state, instanceId, cursor);
      var p' := p.(trace := p.trace + [Scan(cursor, reply)]);
      if reply.Ok? {
        VisitBatchTracks(p', instanceId, purge, reply.value.ids, x, f);
        var q := VisitBatch(p', up, instanceId, purge, reply.value.ids);
        if !q.failed && reply.value.cursor != ScanPointerStart {
          SweepFromTracks(q, up, instanceId, scanner, purge, reply.value.cursor, fuel - 1, x, f);
        }
      }
    }
  }

  /**
   * Every id a scan delivered is settled by the sweep: the fingerprint it held
   * is gone when the callback rejects it and still loads when it is kept.
   */
  lemma SweepSettlesEveryDeliveredId(s: State, up: bool, instanceId: Digest, scanner: Scanner,
                                     purge: Callback, fuel: nat, x: string, f: Fingerprint)
    requires Healthy(s, instanceId) && LoadFrom(s, instanceId, x) == Ok(Some(f))
    ensures var p := RunSweep(s, up, instanceId, scanner, purge, fuel).progress;
      x in BatchIds(p.trace) ==>
        if purge(f) then Gone(p.state, instanceId, x) else LoadFrom(p.state, instanceId, x) == Ok(Some(f))
  {
    var p0 := Progress(s, [], [], [], false);
    assert BatchIds(p0.trace) == [];
    SweepLoadsEveryDeliveredId(p0, up, instanceId, scanner, purge, ScanPointerStart, fuel);
    SweepFromTracks(p0, up, instanceId, scanner, purge, ScanPointerStart, fuel, x, f);
    SweepDeletesExactlyTheRejected(s, up, instanceId, scanner, purge, fuel);
    assert x in Index(s, instanceId);
    assert DecodesTo(s.kv[RecordKey(instanceId, x)], x);
    assert f.hash == x;
  }

  /** A sweep of one instance leaves every other instance's index and loads as they were. */
  lemma {:induction false} SweepLeavesOtherInstances(p: Progress, up: bool, instanceId: Digest, scanner: Scanner,
                                                     purge: Callback, cursor: string, fuel: nat, other: Digest, id: string)
    requires other != instanceId
    ensures var t := SweepFrom(p, up, instanceId, scanner, purge, cursor, fuel).progress.state;
      Index(t, other) == Index(p.state, other) && LoadFrom(t, other, id) == LoadFrom(p.state, other, id)
    decreases fuel
  {
    if fuel > 0 {
      var reply := ScanAt(up, scanner, p.state, instanceId, cursor);
      var p' := p.(trace := p.trace + [Scan(cursor, reply)]);
      if reply.Ok? {
        BatchLeavesOtherInstances(p', up, instanceId, purge, reply.value.ids, other, id);
        var q := VisitBatch(p', up, instanceId, purge, reply.value.ids);
        if !q.failed && reply.value.cursor != ScanPointerStart {
          SweepLeavesOtherInstances(q, up, instanceId, scanner, purge, reply.value.cursor, fuel - 1, other, id);
        }
      }
    }
  }

  /** A batch of one instance leaves every other instance's index and loads as they were. */
  lemma {:induction false} BatchLeavesOtherInstances(p: Progress, up: bool, instanceId: Digest, purge: Callback,
                                                     ids: seq<string>, other: Digest, id: string)
    requires other != instanceId
    ensures var t := VisitBatch(p, up, instanceId, purge, ids).state;
      Index(t, other) == Index(p.state, other) && LoadFrom(t, other, id) == LoadFrom(p.state, other, id)
    decreases |ids|
  {
    if ids != [] && !p.failed {
      var q := VisitId(p, up, instanceId, purge, ids[0]);
      if q.state != p.state {
        var fp := LoadFrom(p.state, instanceId, ids[0]).value.value;
        assert q.state == Apply(p.state, DeleteTx(instanceId, fp.hash));
        DeleteIsInvisibleToOtherInstances(p.state, other, instanceId, fp.hash, id);
      }
      BatchLeavesOtherInstances(q, up, instanceId, purge, ids[1..], other, id);
    }
  }

  /** No fingerprint offered at or after position `from` that the callback rejected has hash `x`. */
  ghost predicate RejectsNone(offered: seq<Fingerprint>, from: nat, purge: Callback, x: string)
  {
    forall i :: from <= i < |offered| && purge(offered[i]) ==> offered[i].hash != x
  }

  /** The record of `x` is as it was: the same index membership and the same load. */
  ghost predicate Spared(s: State, t: State, instanceId: Digest, x: string)
  {
    (x in Index(t, instanceId) <==> x in Index(s, instanceId)) && LoadFrom(t, instanceId, x) == LoadFrom(s, instanceId, x)
  }

  /** Visiting one id changes no record but that of a fingerprint the callback rejected. */
  lemma VisitIdSpares(p: Progress, up: bool, instanceId: Digest, purge: Callback, id: string, x: string)
    ensures var q := VisitId(p, up, instanceId, purge, id);
      RejectsNone(q.offered, |p.offered|, purge, x) ==> Spared(p.state, q.state, instanceId, x)
  {
    var q := VisitId(p, up, instanceId, purge, id);
    if q.state != p.state {
      var fp := LoadFrom(p.state, instanceId, id).value.value;
      assert q.offered == p.offered + [fp] && purge(fp);
      assert q.state == Apply(p.state, DeleteTx(instanceId, fp.hash));
      if RejectsNone(q.offered, |p.offered|, purge, x) {
        assert q.offered[|p.offered|] == fp;
        DeleteRemovesBoth(p.state, instanceId, fp.hash);
        RecordKeyInjective(instanceId, instanceId, x, fp.hash);
      }
    }
  }

  /** The rejections from `from` on in a longer list include those in a prefix of it. */
  lemma RejectsNoneOfPrefix(a: seq<Fingerprint>, b: seq<Fingerprint>, from: nat, purge: Callback, x: string)
    requires a <= b && from <= |a|
    requires RejectsNone(b, from, purge, x)
    ensures RejectsNone(a, from, purge, x) && RejectsNone(b, |a|, purge, x)
  {
    forall i | from <= i < |a|
      ensures a[i] == b[i]
    {
    }
  }

  /** Visiting a batch changes no record but those of fingerprints the callback rejected. */
  lemma {:induction false} VisitBatchSpares(p: Progress, up: bool, instanceId: Digest, purge: Callback,
                                            ids: seq<string>, x: string)
    ensures var q := VisitBatch(p, up, instanceId, purge, ids);
      RejectsNone(q.offered, |p.offered|, purge, x) ==> Spared(p.state, q.state, instanceId, x)
    decreases |ids|
  {
    if ids != [] && !p.failed {
      var q1 := VisitId(p, up, instanceId, purge, ids[0]);
      var q := VisitBatch(q1, up, instanceId, purge, ids[1..]);
      VisitIdSpares(p, up, instanceId, purge, ids[0], x);
      VisitBatchSpares(q1, up, instanceId, purge, ids[1..], x);
      if RejectsNone(q.offered, |p.offered|, purge, x) {
        RejectsNoneOfPrefix(q1.offered, q.offered, |p.offered|, purge, x);
      }
    }
  }

  /** Continuing a sweep changes no record but those of fingerprints the callback rejected. */
  lemma {:induction false} SweepFromSpares(p: Progress, up: bool, instanceId: Digest, scanner: Scanner,
                                           purge: Callback, cursor: string, fuel: nat, x: string)
    ensures var q := SweepFrom(p, up, instanceId, scanner, purge, cursor, fuel).progress;
      RejectsNone(q.offered, |p.offered|, purge, x) ==> Spared(p.state, q.state, instanceId, x)
    decreases fuel
  {
    if fuel > 0 {
      var reply := ScanAt(up, scanner, p.state, instanceId, cursor);
      var p' := p.(trace := p.trace + [Scan(cursor, reply)]);
      if reply.Ok? {
        var q1 := VisitBatch(p', up, instanceId, purge, reply.value.ids);
        VisitBatchSpares(p', up, instanceId, purge, reply.value.ids, x);
        if !q1.failed && reply.value.cursor != ScanPointerStart {
          var q := SweepFrom(q1, up, instanceId, scanner, purge, reply.value.cursor, fuel - 1).progress;
          SweepFromSpares(q1, up, instanceId, scanner, purge, reply.value.cursor, fuel - 1, x);
          if RejectsNone(q.offered, |p.offered|, purge, x) {
            RejectsNoneOfPrefix(q1.offered, q.offered, |p.offered|, purge, x);
          }
        }
      }
    }
  }

  /**
   * A sweep deletes nothing else: every id that is not the hash of a
   * fingerprint the callback rejected keeps its index membership and its load,
   * whether its record was never delivered, failed to decode or was kept.
   */
  lemma SweepDeletesNothingElse(s: State, up: bool, instanceId: Digest, scanner: Scanner, purge: Callback,
                                fuel: nat, x: string)
    ensures var p := RunSweep(s, up, instanceId, scanner, purge, fuel).progress;
      (forall fp :: fp in p.offered && purge(fp) ==> fp.hash != x) ==> Spared(s, p.state, instanceId, x)
  {
    var p := RunSweep(s, up, instanceId, scanner, purge, fuel).progress;
    SweepFromSpares(Progress(s, [], [], [], false), up, instanceId, scanner, purge, ScanPointerStart, fuel, x);
    if forall fp :: fp in p.offered && purge(fp) ==> fp.hash != x {
      assert RejectsNone(p.offered, 0, purge, x);
    }
  }

  /** cleanFingerprint: an obsolete fingerprint is deleted by its hash; a failed delete is passed on. */
  method CleanFingerprint(storage: RedisFingerprintStorage, fp: Fingerprint, purge: Callback) returns (r: Outcome<Failure>)
    modifies storage.server
    ensures storage.server.reachable == old(storage.server.reachable) && storage.server.slow == old(storage.server.slow)
    ensures r == if purge(fp) && !old(storage.server.Responsive()) then Fail(JedisFailure) else Pass
    ensures storage.server.state ==
      if purge(fp) && old(storage.server.Responsive())
      then Apply(old(storage.server.state), DeleteTx(storage.instanceId, fp.hash))
      else old(storage.server.state)
  {
    if purge(fp) {
      r := storage.Delete(fp.hash);
    } else {
      r := Pass;
    }
  }

  /** execute: the sweep itself; it catches every failure and reports how it ended. */
  method Execute(storage: RedisFingerprintStorage, scanner: Scanner, purge: Callback, fuel: nat)
    returns (status: Status, offered: seq<Fingerprint>)
    modifies storage.server
    ensures storage.server.reachable == old(storage.server.reachable) && storage.server.slow == old(storage.server.slow)
    ensures var sw := RunSweep(old(storage.server.state), old(storage.server.Responsive()), storage.instanceId,
                               scanner, purge, fuel);
      status == sw.status && offered == sw.progress.offered && storage.server.state == sw.progress.state
  {
    ghost var reachable, slow := storage.server.reachable, storage.server.slow;
    ghost var up := storage.server.Responsive();
    var instanceId := storage.instanceId;
    ghost var goal := RunSweep(storage.server.state, up, instanceId, scanner, purge, fuel);
    ghost var p := Progress(storage.server.state, [], [], [], false);
    var currentPointer := ScanPointerStart;
    var scans := 0;
    var done := false;
    status := OutOfFuel;
    offered := [];
    while !done && scans < fuel
      invariant 0 <= scans <= fuel
      invariant storage.server.reachable == reachable && storage.server.slow == slow
      invariant storage.server.state == p.state && offered == p.offered
      invariant !done ==> !p.failed && SweepFrom(p, up, instanceId, scanner, purge, currentPointer, fuel - scans) == goal
      invariant !done ==> status == OutOfFuel
      invariant done ==> goal == Sweep(p, status)
      decreases fuel - scans
    {
      var reply := storage.GetFingerprintIdsForCleanup(currentPointer, scanner);
      p := p.(trace := p.trace + [Scan(currentPointer, reply)]);
      scans := scans + 1;
      if reply.Err? {
        status := Aborted;
        done := true;
      } else {
        var fingerprintIds := reply.value.ids;
        ghost var p0 := p;
        var i := 0;
        var failed := false;
        while i < |fingerprintIds| && !failed
          invariant 0 <= i <= |fingerprintIds|
          invariant up
          invariant storage.server.reachable == reachable && storage.server.slow == slow
          invariant storage.server.state == p.state && offered == p.offered && failed == p.failed
          invariant VisitBatch(p, up, instanceId, purge, fingerprintIds[i..]) ==
                    VisitBatch(p0, up, instanceId, purge, fingerprintIds)
          decreases |fingerprintIds| - i
        {
          var fingerprintId := fingerprintIds[i];
          assert fingerprintIds[i..][1..] == fingerprintIds[i + 1..];
          ghost var before := p;
          var loaded := storage.Load(fingerprintId);
          failed := loaded.Err? && loaded.error == JedisFailure;
          if loaded.Ok? && loaded.value.Some? {
            var fingerprint := loaded.value.value;
            offered := offered + [fingerprint];
            var cleaned := CleanFingerprint(storage, fingerprint, purge);
            failed := cleaned.Fail?;
          }
          p := VisitId(before, up, instanceId, purge, fingerprintId);
          i := i + 1;
        }
        var nextPointer := reply.value.cursor;
        done := failed || nextPointer == ScanPointerStart;
        status := if failed then Aborted else if nextPointer == ScanPointerStart then Completed else status;
        currentPointer := nextPointer;
      }
    }
  }
}
