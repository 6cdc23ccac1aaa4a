/**
 * The stateful part of the dielectron Monte-Carlo QA task: the run-number
 * cache of the condition lookup, the track-info filler that records each
 * track once through the list of used track ids, and the two process
 * functions that loop over collisions and pairs.
 *
 * `QcState` collects the task's mutable members; the functions below give
 * the state after each operation, and the methods of `DielectronQcMc` are
 * proved to produce exactly that state.
 */
module DielectronTask {
  import opened Histograms
  import opened DielectronModel

  /** Histograms the track-info filler fills per track, in order. */
  const TrackQaHists: seq<string> := [
    "hPt", "hQoverPt", "hEtaPhi", "hDCAxyz", "hDCAxyzSigma", "hDCA3DSigma", "hDCAxyRes_Pt", "hDCAzRes_Pt",
    "hNclsITS", "hNclsTPC", "hNcrTPC", "hTPCNcr2Nf", "hTPCNcls2Nf", "hChi2TPC", "hChi2ITS", "hITSClusterMap",
    "hMeanClusterSizeITS", "hTPCdEdx", "hTPCNsigmaEl", "hTPCNsigmaMu", "hTPCNsigmaPi", "hTPCNsigmaKa",
    "hTPCNsigmaPr", "hTOFbeta", "h1overTOFbeta", "hTOFNsigmaEl", "hTOFNsigmaMu", "hTOFNsigmaPi", "hTOFNsigmaKa",
    "hTOFNsigmaPr", "hPtGen_DeltaPtOverPtGen", "hPtGen_DeltaEta", "hPtGen_DeltaPhi"]

  /**
   * The condition lookup seen through its effect: for a timestamp, the
   * magnetic field in kG and the beam parameters of the LHC interface object.
   */
  datatype Ccdb = Ccdb(magneticField: int -> real, beams: int -> Beams)

  /**
   * Everything fixed for the lifetime of the task: configurables, the
   * external selections and helpers, the condition lookup, and the values
   * `qa(track, histogram)` the track-info filler records.
   */
  datatype Setup = Setup(cfg: QcConfig, ana: Analysis, ccdb: Ccdb, qa: (Track, string) -> seq<real>)

  /** The centrality estimator indexes a three-element array. */
  predicate ValidSetup(st: Setup)
  {
    0 <= st.cfg.centEstimator < 3
  }

  /** The task's mutable members. */
  datatype QcState = QcState(
    runNumber: int,
    dBz: real,
    beams: Beams,
    usedTrackIds: seq<int>,
    registry: seq<Fill>,
    log: seq<string>)

  /** The state after `init`. */
  const InitialState := QcState(0, 0.0, InitialBeams, [], [], [])

  // ---------------------------------------------------------------------
  // initCCDB
  // ---------------------------------------------------------------------

  /**
   * The condition lookup, cached by run number: nothing happens for the run
   * already seen; a field override sets the field and the run without any
   * lookup; otherwise field and beams are looked up at the collision's time.
   */
  function InitCcdbSpec(st: Setup, s: QcState, coll: Collision): QcState
  {
    if s.runNumber == coll.runNumber then s
    else if st.cfg.dBzInput > -990.0 then s.(dBz := st.cfg.dBzInput, runNumber := coll.runNumber)
    else s.(dBz := st.ccdb.magneticField(coll.timestamp), runNumber := coll.runNumber,
            beams := st.ccdb.beams(coll.timestamp))
  }

  /**
   * After the lookup the cache holds the collision's run, a second call for
   * it changes nothing, the fills, used ids and log are untouched, and with
   * the override the field is the configured one and the beams are kept.
   */
  lemma InitCcdbCache(st: Setup, s: QcState, coll: Collision)
    ensures var t := InitCcdbSpec(st, s, coll);
      && t.runNumber == coll.runNumber
      && InitCcdbSpec(st, t, coll) == t
      && t.registry == s.registry && t.usedTrackIds == s.usedTrackIds && t.log == s.log
      && (s.runNumber == coll.runNumber ==> t == s)
      && (s.runNumber != coll.runNumber && st.cfg.dBzInput > -990.0 ==> t.dBz == st.cfg.dBzInput && t.beams == s.beams)
  {
  }

  /** With the override in force the result does not depend on the condition database. */
  lemma InitCcdbOverrideNeedsNoLookup(st: Setup, other: Ccdb, s: QcState, coll: Collision)
    requires st.cfg.dBzInput > -990.0
    ensures InitCcdbSpec(st, s, coll) == InitCcdbSpec(st.(ccdb := other), s, coll)
  {
  }

  // ---------------------------------------------------------------------
  // fillTrackInfo
  // ---------------------------------------------------------------------

  /** The track-info fills of one leg under a source label. */
  function TrackInfoFills(source: SourceId, track: Track, qa: (Track, string) -> seq<real>): (fills: seq<Fill>)
    ensures |fills| == |TrackQaHists|
    ensures forall i :: 0 <= i < |fills| ==> fills[i].name == "Track/" + EleSourceTypes[source] + TrackQaHists[i]
  {
    seq(|TrackQaHists|, i requires 0 <= i < |TrackQaHists| =>
      Fill("Track/" + EleSourceTypes[source] + TrackQaHists[i], qa(track, TrackQaHists[i])))
  }

  /** The track-QA histogram names are pairwise distinct. */
  lemma TrackQaHistsDistinct()
    ensures forall a, b :: 0 <= a < b < |TrackQaHists| ==> TrackQaHists[a] != TrackQaHists[b]
  {
  }

  lemma PrefixCancel(dir: string, x: string, y: string)
    ensures dir + x == dir + y ==> x == y
  {
    if dir + x == dir + y {
      assert x == (dir + x)[|dir|..];
      assert y == (dir + y)[|dir|..];
    }
  }

  /**
   * One track-info call fills every track-QA histogram of the source's
   * directory exactly once, and nothing outside that directory.
   */
  lemma TrackInfoFillsEachOnce(source: SourceId, track: Track, qa: (Track, string) -> seq<real>, h: string)
    requires h in TrackQaHists
    ensures CountNamed(TrackInfoFills(source, track, qa), "Track/" + EleSourceTypes[source] + h) == 1
    ensures forall f :: f in TrackInfoFills(source, track, qa) ==> "Track/" + EleSourceTypes[source] <= f.name
  {
    var fills := TrackInfoFills(source, track, qa);
    var dir := "Track/" + EleSourceTypes[source];
    TrackQaHistsDistinct();
    forall a, b | 0 <= a < b < |fills|
      ensures fills[a].name != fills[b].name
    {
      PrefixCancel(dir, TrackQaHists[a], TrackQaHists[b]);
    }
    var j :| 0 <= j < |TrackQaHists| && TrackQaHists[j] == h;
    CountNamedDistinct(fills, j);
    forall f | f in fills
      ensures dir <= f.name
    {
      var i :| 0 <= i < |fills| && fills[i] == f;
      assert (dir + TrackQaHists[i])[..|dir|] == dir;
    }
  }

  /** A track is filled, and its id recorded, only when its id is not yet recorded. */
  function TrackInfoSpec(st: Setup, s: QcState, source: SourceId, track: Track): QcState
  {
    if track.globalIndex in s.usedTrackIds then s
    else s.(registry := s.registry + TrackInfoFills(source, track, st.qa),
            usedTrackIds := s.usedTrackIds + [track.globalIndex])
  }

  predicate NoDuplicates(ids: seq<int>)
  {
    forall i, j :: 0 <= i < j < |ids| ==> ids[i] != ids[j]
  }

  /** `t` continues `s`: fills, used ids and log lines are only appended. */
  predicate Extends(s: QcState, t: QcState)
  {
    s.registry <= t.registry && s.usedTrackIds <= t.usedTrackIds && s.log <= t.log
  }

  /**
   * The track-info filler records the id, appends at most that one id, keeps
   * the ids distinct, and suppresses a second fill of the same track even
   * under another source label: the first label wins.
   */
  lemma TrackInfoDedup(st: Setup, s: QcState, source: SourceId, other: SourceId, track: Track)
    ensures var t := TrackInfoSpec(st, s, source, track);
      && track.globalIndex in t.usedTrackIds
      && (track.globalIndex in s.usedTrackIds ==> t == s)
      && (track.globalIndex !in s.usedTrackIds ==> t.usedTrackIds == s.usedTrackIds + [track.globalIndex])
      && Extends(s, t)
      && |t.usedTrackIds| <= |s.usedTrackIds| + 1
      && (NoDuplicates(s.usedTrackIds) ==> NoDuplicates(t.usedTrackIds))
      && TrackInfoSpec(st, t, other, track) == t
  {
  }

  // ---------------------------------------------------------------------
  // Performing a pair's actions
  // ---------------------------------------------------------------------

  function ActionSpec(st: Setup, s: QcState, a: Action, t1: Track, t2: Track): QcState
  {
    match a
    case Hist(f) => s.(registry := s.registry + [f])
    case TrackInfo(source, leg) => TrackInfoSpec(st, s, source, if leg == First then t1 else t2)
    case Log(m) => s.(log := s.log + [m])
  }

  /** The actions of a pair, performed in order. */
  function PerformSpec(st: Setup, s: QcState, acts: seq<Action>, t1: Track, t2: Track): QcState
    decreases |acts|
  {
    if acts == [] then s
    else PerformSpec(st, ActionSpec(st, s, acts[0], t1, t2), acts[1..], t1, t2)
  }

  /** fillTruePairInfo: a rejected pair changes nothing, an accepted one performs its actions. */
  function PairSpec(st: Setup, s: QcState, coll: Collision, t1: Track, t2: Track): QcState
  {
    match TruePairInfo(st.cfg, st.ana, s.dBz, s.beams, coll, t1, t2)
    case Rejected => s
    case Accepted(acts) => PerformSpec(st, s, acts, t1, t2)
  }

  /** A pair the gate rejects changes nothing: no fill, no recorded id, no log line. */
  lemma RejectedPairChangesNothing(st: Setup, s: QcState, coll: Collision, t1: Track, t2: Track)
    requires !RecoPairPasses(st.cfg, st.ana, s.dBz, s.beams, coll, t1, t2)
    ensures PairSpec(st, s, coll, t1, t2) == s
  {
  }

  lemma ActionKeepsInvariant(st: Setup, s: QcState, a: Action, t1: Track, t2: Track)
    requires NoDuplicates(s.usedTrackIds)
    ensures var t := ActionSpec(st, s, a, t1, t2);
      NoDuplicates(t.usedTrackIds) && Extends(s, t)
      && t.runNumber == s.runNumber && t.dBz == s.dBz && t.beams == s.beams
  {
    if a.TrackInfo? {
      TrackInfoDedup(st, s, a.source, a.source, if a.leg == First then t1 else t2);
    }
  }

  lemma {:induction false} PerformKeepsInvariant(st: Setup, s: QcState, acts: seq<Action>, t1: Track, t2: Track)
    requires NoDuplicates(s.usedTrackIds)
    ensures var t := PerformSpec(st, s, acts, t1, t2);
      NoDuplicates(t.usedTrackIds) && Extends(s, t)
      && t.runNumber == s.runNumber && t.dBz == s.dBz && t.beams == s.beams
    decreases |acts|
  {
    if acts != [] {
      var s1 := ActionSpec(st, s, acts[0], t1, t2);
      ActionKeepsInvariant(st, s, acts[0], t1, t2);
      PerformKeepsInvariant(st, s1, acts[1..], t1, t2);
    }
  }

  lemma PairKeepsInvariant(st: Setup, s: QcState, coll: Collision, t1: Track, t2: Track)
    requires NoDuplicates(s.usedTrackIds)
    ensures var t := PairSpec(st, s, coll, t1, t2);
      NoDuplicates(t.usedTrackIds) && Extends(s, t)
      && t.runNumber == s.runNumber && t.dBz == s.dBz && t.beams == s.beams
  {
    match TruePairInfo(st.cfg, st.ana, s.dBz, s.beams, coll, t1, t2)
    case Rejected =>
    case Accepted(acts) => PerformKeepsInvariant(st, s, acts, t1, t2);
  }

  /**
   * A pair in one of the "should not see" heavy-flavour branches adds at
   * most one log line and changes nothing else.
   */
  lemma UnexpectedPairOnlyLogs(st: Setup, s: QcState, coll: Collision, t1: Track, t2: Track)
    requires TruePairInfo(st.cfg, st.ana, s.dBz, s.beams, coll, t1, t2).Accepted?
    requires !(FindLF(st.ana.anc, t1.mc, t2.mc) > -1 && t1.mc.pdgCode * t2.mc.pdgCode < 0)
    requires var hfee := st.ana.anc.isHF(t1.mc, t2.mc);
      if t1.mc.pdgCode * t2.mc.pdgCode < 0 then hfee == BCeBeDiffB else 0 <= hfee < BCeBeDiffB
    ensures var t := PairSpec(st, s, coll, t1, t2);
      t.registry == s.registry && t.usedTrackIds == s.usedTrackIds && |t.log| <= |s.log| + 1
  {
    UnexpectedHeavyFlavourOnlyLogs(st.cfg, st.ana, s.dBz, s.beams, coll, t1, t2);
    var acts := TruePairInfo(st.cfg, st.ana, s.dBz, s.beams, coll, t1, t2).actions;
    assert PairSpec(st, s, coll, t1, t2) == PerformSpec(st, s, acts, t1, t2);
    if acts != [] {
      assert acts[0].Log? && acts[1..] == [];
      var s1 := ActionSpec(st, s, acts[0], t1, t2);
      assert PerformSpec(st, s, acts, t1, t2) == PerformSpec(st, s1, [], t1, t2);
    }
  }

  // ---------------------------------------------------------------------
  // processQCMC
  // ---------------------------------------------------------------------

  /** The pairs of one combination loop, in the order the combination policy yields them. */
  function PairsSpec(st: Setup, s: QcState, coll: Collision, pairs: seq<(Track, Track)>): QcState
  {
    if pairs == [] then s
    else
      var last := pairs[|pairs| - 1];
      PairSpec(st, PairsSpec(st, s, coll, pairs[..|pairs| - 1]), coll, last.0, last.1)
  }

  lemma {:induction false} PairsKeepInvariant(st: Setup, s: QcState, coll: Collision, pairs: seq<(Track, Track)>)
    requires NoDuplicates(s.usedTrackIds)
    ensures var t := PairsSpec(st, s, coll, pairs);
      NoDuplicates(t.usedTrackIds) && Extends(s, t)
      && t.runNumber == s.runNumber && t.dBz == s.dBz && t.beams == s.beams
    decreases |pairs|
  {
    if pairs != [] {
      var last := pairs[|pairs| - 1];
      var mid := PairsSpec(st, s, coll, pairs[..|pairs| - 1]);
      PairsKeepInvariant(st, s, coll, pairs[..|pairs| - 1]);
      PairKeepsInvariant(st, mid, coll, last.0, last.1);
    }
  }

  /**
   * A collision with its positive and negative tracks already combined into
   * the unlike-sign pairs and the two like-sign pair lists.
   */
  datatype RecoCollision = RecoCollision(
    coll: Collision,
    uls: seq<(Track, Track)>,
    lsPP: seq<(Track, Track)>,
    lsMM: seq<(Track, Track)>)

  const CollisionCounters := [Fill("Event/before/hCollisionCounter", [10.0]), Fill("Event/after/hCollisionCounter", [10.0])]

  /** The fills of an accepted collision before its pair loops. */
  function AcceptedEventFills(st: Setup, coll: Collision): seq<Fill>
  {
    st.ana.eventInfo(1, coll) + CollisionCounters
  }

  /**
   * One collision of processQCMC: the condition lookup, the centrality gate,
   * the event information before the event cut, the event cut, the event
   * information after it with the collision counters, then the unlike-sign,
   * positive like-sign and negative like-sign pair loops.
   */
  function CollisionSpec(st: Setup, s: QcState, rc: RecoCollision): QcState
    requires ValidSetup(st)
  {
    var s1 := InitCcdbSpec(st, s, rc.coll);
    if !CentralitySelected(st.cfg, rc.coll) then s1
    else
      var s2 := s1.(registry := s1.registry + st.ana.eventInfo(0, rc.coll));
      if !st.ana.eventSelected(rc.coll) then s2
      else
        var s3 := s2.(registry := s2.registry + AcceptedEventFills(st, rc.coll));
        PairsSpec(st, PairsSpec(st, PairsSpec(st, s3, rc.coll, rc.uls), rc.coll, rc.lsPP), rc.coll, rc.lsMM)
  }

  /** A collision outside the centrality window changes only the cached condition fields. */
  lemma CentralityGateFillsNothing(st: Setup, s: QcState, rc: RecoCollision)
    requires ValidSetup(st)
    requires !CentralitySelected(st.cfg, rc.coll)
    ensures var t := CollisionSpec(st, s, rc);
      t.registry == s.registry && t.usedTrackIds == s.usedTrackIds && t.log == s.log
      && t.runNumber == rc.coll.runNumber
  {
  }

  lemma CollisionKeepsInvariant(st: Setup, s: QcState, rc: RecoCollision)
    requires ValidSetup(st)
    requires NoDuplicates(s.usedTrackIds)
    ensures var t := CollisionSpec(st, s, rc);
      NoDuplicates(t.usedTrackIds) && Extends(s, t) && t.runNumber == rc.coll.runNumber
  {
    var s1 := InitCcdbSpec(st, s, rc.coll);
    if CentralitySelected(st.cfg, rc.coll) && st.ana.eventSelected(rc.coll) {
      var s2 := s1.(registry := s1.registry + st.ana.eventInfo(0, rc.coll));
      var s3 := s2.(registry := s2.registry + AcceptedEventFills(st, rc.coll));
      assert Extends(s, s3) by {
        assert s3.registry == s.registry + (st.ana.eventInfo(0, rc.coll) + AcceptedEventFills(st, rc.coll));
      }
      var s4 := PairsSpec(st, s3, rc.coll, rc.uls);
      PairsKeepInvariant(st, s3, rc.coll, rc.uls);
      var s5 := PairsSpec(st, s4, rc.coll, rc.lsPP);
      PairsKeepInvariant(st, s4, rc.coll, rc.lsPP);
      PairsKeepInvariant(st, s5, rc.coll, rc.lsMM);
    }
  }

  function CollisionsSpec(st: Setup, s: QcState, rcs: seq<RecoCollision>): QcState
    requires ValidSetup(st)
  {
    if rcs == [] then s
    else CollisionSpec(st, CollisionsSpec(st, s, rcs[..|rcs| - 1]), rcs[|rcs| - 1])
  }

  /** processQCMC: all collisions, then the used-id list is cleared. */
  function ProcessQcmcSpec(st: Setup, s: QcState, rcs: seq<RecoCollision>): QcState
    requires ValidSetup(st)
  {
    CollisionsSpec(st, s, rcs).(usedTrackIds := [])
  }

  /**
   * Throughout a processQCMC call the used ids stay distinct and only grow,
   * fills and log lines are only appended, and the call ends with the list
   * empty, so the next call starts afresh.
   */
  lemma {:induction false} CollisionsKeepInvariant(st: Setup, s: QcState, rcs: seq<RecoCollision>)
    requires ValidSetup(st)
    requires NoDuplicates(s.usedTrackIds)
    ensures var t := CollisionsSpec(st, s, rcs);
      NoDuplicates(t.usedTrackIds) && Extends(s, t)
    ensures ProcessQcmcSpec(st, s, rcs).usedTrackIds == []
    ensures s.registry <= ProcessQcmcSpec(st, s, rcs).registry
    decreases |rcs|
  {
    if rcs != [] {
      var mid := CollisionsSpec(st, s, rcs[..|rcs| - 1]);
      CollisionsKeepInvariant(st, s, rcs[..|rcs| - 1]);
      CollisionKeepsInvariant(st, mid, rcs[|rcs| - 1]);
    }
  }

  // ---------------------------------------------------------------------
  // processGen
  // ---------------------------------------------------------------------

  /**
   * A collision with the generated e+ and e- of its Monte-Carlo event
   * combined into pairs, and the event's particles.
   */
  datatype GenCollision = GenCollision(
    coll: Collision,
    uls: seq<(McParticle, McParticle)>,
    lsPP: seq<(McParticle, McParticle)>,
    lsMM: seq<(McParticle, McParticle)>,
    particles: seq<McParticle>)

  /** The actions of one combination loop over generated pairs, given what one pair yields. */
  function PairActions(step: (McParticle, McParticle) -> seq<Action>, pairs: seq<(McParticle, McParticle)>): seq<Action>
  {
    if pairs == [] then []
    else
      var last := pairs[|pairs| - 1];
      PairActions(step, pairs[..|pairs| - 1]) + step(last.0, last.1)
  }

  /** What one generated unlike-sign pair yields. */
  function GenUlsStep(st: Setup, beams: Beams): (McParticle, McParticle) -> seq<Action>
  {
    (p1: McParticle, p2: McParticle) => OutcomeActions(GenUlsPair(st.cfg, st.ana, beams, p1, p2))
  }

  /** What one generated like-sign pair yields; `signs` is "LS++" or "LS--". */
  function GenLsStep(st: Setup, beams: Beams, signs: string): (McParticle, McParticle) -> seq<Action>
  {
    (p1: McParticle, p2: McParticle) => OutcomeActions(GenLsPair(st.cfg, st.ana, beams, p1, p2, signs))
  }

  /** Both passes of processGen keep a collision only inside the centrality window and when the event cut passes. */
  predicate GenCollisionSelected(st: Setup, coll: Collision)
    requires ValidSetup(st)
  {
    CentralitySelected(st.cfg, coll) && st.ana.eventSelected(coll)
  }

  function GenCollisionActions(st: Setup, beams: Beams, gc: GenCollision): seq<Action>
    requires ValidSetup(st)
  {
    if !GenCollisionSelected(st, gc.coll) then []
    else
      PairActions(GenUlsStep(st, beams), gc.uls)
      + PairActions(GenLsStep(st, beams, "LS++"), gc.lsPP)
      + PairActions(GenLsStep(st, beams, "LS--"), gc.lsMM)
  }

  /** The first pass of processGen: the generated pairs of every collision. */
  function GenPairPass(st: Setup, beams: Beams, gcs: seq<GenCollision>): seq<Action>
    requires ValidSetup(st)
  {
    if gcs == [] then []
    else GenPairPass(st, beams, gcs[..|gcs| - 1]) + GenCollisionActions(st, beams, gcs[|gcs| - 1])
  }

  function EfficiencyFillsOf(st: Setup, particles: seq<McParticle>): seq<Fill>
  {
    if particles == [] then []
    else EfficiencyFillsOf(st, particles[..|particles| - 1]) + EfficiencyFills(st.cfg, particles[|particles| - 1])
  }

  /** The second pass of processGen: omega and phi spectra of every selected collision. */
  function EfficiencyPass(st: Setup, gcs: seq<GenCollision>): seq<Fill>
    requires ValidSetup(st)
  {
    if gcs == [] then []
    else
      var gc := gcs[|gcs| - 1];
      EfficiencyPass(st, gcs[..|gcs| - 1]) + (if GenCollisionSelected(st, gc.coll) then EfficiencyFillsOf(st, gc.particles) else [])
  }

  lemma ConcatAssoc<T>(w: seq<T>, x: seq<T>, y: seq<T>)
    ensures w + x + y == w + (x + y)
  {
  }

  lemma {:induction false} HistFillsAppend(xs: seq<Action>, ys: seq<Action>)
    ensures HistFills(xs + ys) == HistFills(xs) + HistFills(ys)
    ensures LogLines(xs + ys) == LogLines(xs) + LogLines(ys)
    decreases |ys|
  {
    if ys == [] {
      assert xs + ys == xs;
    } else {
      assert (xs + ys)[..|xs + ys| - 1] == xs + ys[..|ys| - 1];
      HistFillsAppend(xs, ys[..|ys| - 1]);
    }
  }

  lemma {:induction false} EfficiencyFillsNames(st: Setup, particles: seq<McParticle>)
    ensures forall i :: 0 <= i < |EfficiencyFillsOf(st, particles)| ==>
      EfficiencyFillsOf(st, particles)[i].name in
        {"Generated/sm/Omega2ee/hPt", "Generated/sm/Omega2ee/hY", "Generated/sm/Phi2ee/hPt", "Generated/sm/Phi2ee/hY"}
    decreases |particles|
  {
    if particles != [] {
      EfficiencyFillsNames(st, particles[..|particles| - 1]);
    }
  }

  /**
   * Only primary (or generator-produced) omega and phi mesons within the
   * rapidity bound enter the efficiency spectra, each with exactly its pt and
   * its y fill; every other particle adds nothing.
   */
  lemma EfficiencySpectraSelection(cfg: QcConfig, p: McParticle)
    ensures |EfficiencyFills(cfg, p)| == if PrimaryOrGenerator(p) && Abs(p.y) <= cfg.maxY && IntAbs(p.pdgCode) in {223, 333} then 2 else 0
    ensures |EfficiencyFills(cfg, p)| == 2 ==> EfficiencyFills(cfg, p)[0].values == [p.pt] && EfficiencyFills(cfg, p)[1].values == [p.y]
  {
  }

  // ---------------------------------------------------------------------
  // The task
  // ---------------------------------------------------------------------

  /** The position of `id` in `ids` as std::find reports it: found iff present. */
  method FindId(ids: seq<int>, id: int) returns (found: bool)
    ensures found <==> id in ids
  {
    var i := 0;
    while i < |ids| && ids[i] != id
      invariant 0 <= i <= |ids|
      invariant forall j :: 0 <= j < i ==> ids[j] != id
    {
      i := i + 1;
    }
    found := i < |ids|;
  }

  class DielectronQcMc {
    const setup: Setup
    var mRunNumber: int
    var dBz: real
    var beams: Beams
    var usedTrackIds: seq<int>
    var registry: seq<Fill>
    var log: seq<string>

    function State(): QcState
      reads this
    {
      QcState(mRunNumber, dBz, beams, usedTrackIds, registry, log)
    }

    /** The members processGen leaves alone. */
    function Cache(): (int, real, Beams, seq<int>)
      reads this
    {
      (mRunNumber, dBz, beams, usedTrackIds)
    }

    /** Construction and `init`: run number and field start at zero. */
    constructor (setup: Setup)
      ensures this.setup == setup && State() == InitialState
    {
      this.setup := setup;
      mRunNumber := 0;
      dBz := 0.0;
      beams := InitialBeams;
      usedTrackIds := [];
      registry := [];
      log := [];
    }

    method InitCcdb(coll: Collision)
      modifies this
      ensures State() == InitCcdbSpec(setup, old(State()), coll)
    {
      if mRunNumber == coll.runNumber {
        return;
      }
      if setup.cfg.dBzInput > -990.0 {
        dBz := setup.cfg.dBzInput;
        mRunNumber := coll.runNumber;
        return;
      }
      dBz := setup.ccdb.magneticField(coll.timestamp);
      mRunNumber := coll.runNumber;
      beams := setup.ccdb.beams(coll.timestamp);
    }

    method FillTrackInfo(source: SourceId, track: Track)
      modifies this
      ensures State() == TrackInfoSpec(setup, old(State()), source, track)
    {
      var found := FindId(usedTrackIds, track.globalIndex);
      if !found {
        registry := registry + TrackInfoFills(source, track, setup.qa);
        usedTrackIds := usedTrackIds + [track.globalIndex];
      }
    }

    method Perform(acts: seq<Action>, t1: Track, t2: Track)
      modifies this
      ensures State() == PerformSpec(setup, old(State()), acts, t1, t2)
      decreases |acts|
    {
      if acts == [] {
        return;
      }
      match acts[0] {
        case Hist(f) => registry := registry + [f];
        case TrackInfo(source, leg) => FillTrackInfo(source, if leg == First then t1 else t2);
        case Log(m) => log := log + [m];
      }
      Perform(acts[1..], t1, t2);
    }

    method FillTruePairInfo(coll: Collision, t1: Track, t2: Track) returns (accepted: bool)
      modifies this
      ensures accepted == TruePairInfo(setup.cfg, setup.ana, old(dBz), old(beams), coll, t1, t2).Accepted?
      ensures State() == PairSpec(setup, old(State()), coll, t1, t2)
    {
      var outcome := TruePairInfo(setup.cfg, setup.ana, dBz, beams, coll, t1, t2);
      if outcome.Rejected? {
        return false;
      }
      Perform(outcome.actions, t1, t2);
      return true;
    }

    method ProcessPairs(coll: Collision, pairs: seq<(Track, Track)>)
      modifies this
      ensures State() == PairsSpec(setup, old(State()), coll, pairs)
    {
      for i := 0 to |pairs|
        invariant State() == PairsSpec(setup, old(State()), coll, pairs[..i])
      {
        assert pairs[..i + 1][..i] == pairs[..i];
        var _ := FillTruePairInfo(coll, pairs[i].0, pairs[i].1);
      }
      assert pairs[..|pairs|] == pairs;
    }

    method ProcessCollision(rc: RecoCollision)
      requires ValidSetup(setup)
      modifies this
      ensures State() == CollisionSpec(setup, old(State()), rc)
    {
      InitCcdb(rc.coll);
      var centralities := [rc.coll.centFT0M, rc.coll.centFT0A, rc.coll.centFT0C];
      var est := setup.cfg.centEstimator;
      if centralities[est] < setup.cfg.centMin || setup.cfg.centMax < centralities[est] {
        return;
      }
      registry := registry + setup.ana.eventInfo(0, rc.coll);
      if !setup.ana.eventSelected(rc.coll) {
        return;
      }
      registry := registry + setup.ana.eventInfo(1, rc.coll);
      registry := registry + [Fill("Event/before/hCollisionCounter", [10.0])];
      registry := registry + [Fill("Event/after/hCollisionCounter", [10.0])];
      ghost var s3 := State();
      assert s3.registry == old(registry) + setup.ana.eventInfo(0, rc.coll) + AcceptedEventFills(setup, rc.coll);
      ProcessPairs(rc.coll, rc.uls);
      ProcessPairs(rc.coll, rc.lsPP);
      ProcessPairs(rc.coll, rc.lsMM);
    }

    method ProcessQcmc(rcs: seq<RecoCollision>)
      requires ValidSetup(setup)
      modifies this
      ensures State() == ProcessQcmcSpec(setup, old(State()), rcs)
    {
      for i := 0 to |rcs|
        invariant State() == CollisionsSpec(setup, old(State()), rcs[..i])
      {
        assert rcs[..i + 1][..i] == rcs[..i];
        ProcessCollision(rcs[i]);
      }
      assert rcs[..|rcs|] == rcs;
      usedTrackIds := [];
    }

    /** Records the fills and log lines of one generated pair. */
    method RecordGen(acts: seq<Action>)
      modifies this
      ensures registry == old(registry) + HistFills(acts) && log == old(log) + LogLines(acts)
      ensures Cache() == old(Cache())
    {
      registry := registry + HistFills(acts);
      log := log + LogLines(acts);
    }

    method ProcessGenPairs(step: (McParticle, McParticle) -> seq<Action>, pairs: seq<(McParticle, McParticle)>)
      modifies this
      ensures registry == old(registry) + HistFills(PairActions(step, pairs))
      ensures log == old(log) + LogLines(PairActions(step, pairs))
      ensures Cache() == old(Cache())
    {
      for i := 0 to |pairs|
        invariant registry == old(registry) + HistFills(PairActions(step, pairs[..i]))
        invariant log == old(log) + LogLines(PairActions(step, pairs[..i]))
        invariant Cache() == old(Cache())
      {
        assert pairs[..i + 1][..i] == pairs[..i];
        var acts := step(pairs[i].0, pairs[i].1);
        ghost var prev := PairActions(step, pairs[..i]);
        assert PairActions(step, pairs[..i + 1]) == prev + acts;
        HistFillsAppend(prev, acts);
        RecordGen(acts);
        ConcatAssoc(old(registry), HistFills(prev), HistFills(acts));
        ConcatAssoc(old(log), LogLines(prev), LogLines(acts));
      }
      assert pairs[..|pairs|] == pairs;
    }

    method ProcessGenCollision(gc: GenCollision)
      requires ValidSetup(setup)
      modifies this
      ensures registry == old(registry) + HistFills(GenCollisionActions(setup, beams, gc))
      ensures log == old(log) + LogLines(GenCollisionActions(setup, beams, gc))
      ensures Cache() == old(Cache())
    {
      var centralities := [gc.coll.centFT0M, gc.coll.centFT0A, gc.coll.centFT0C];
      var est := setup.cfg.centEstimator;
      assert centralities[est] == Centrality(gc.coll, est);
      if centralities[est] < setup.cfg.centMin || setup.cfg.centMax < centralities[est] {
        assert GenCollisionActions(setup, beams, gc) == [];
        return;
      }
      if !setup.ana.eventSelected(gc.coll) {
        assert GenCollisionActions(setup, beams, gc) == [];
        return;
      }
      var uls := PairActions(GenUlsStep(setup, beams), gc.uls);
      var pp := PairActions(GenLsStep(setup, beams, "LS++"), gc.lsPP);
      var mm := PairActions(GenLsStep(setup, beams, "LS--"), gc.lsMM);
      HistFillsAppend(uls, pp);
      HistFillsAppend(uls + pp, mm);
      assert GenCollisionActions(setup, beams, gc) == uls + pp + mm;
      ProcessGenPairs(GenUlsStep(setup, beams), gc.uls);
      ProcessGenPairs(GenLsStep(setup, beams, "LS++"), gc.lsPP);
      ProcessGenPairs(GenLsStep(setup, beams, "LS--"), gc.lsMM);
      ConcatAssoc(old(registry), HistFills(uls), HistFills(pp));
      ConcatAssoc(old(registry), HistFills(uls) + HistFills(pp), HistFills(mm));
      ConcatAssoc(old(log), LogLines(uls), LogLines(pp));
      ConcatAssoc(old(log), LogLines(uls) + LogLines(pp), LogLines(mm));
    }

    method ProcessEfficiency(particles: seq<McParticle>)
      modifies this
      ensures registry == old(registry) + EfficiencyFillsOf(setup, particles)
      ensures log == old(log) && Cache() == old(Cache())
    {
      for i := 0 to |particles|
        invariant registry == old(registry) + EfficiencyFillsOf(setup, particles[..i])
        invariant log == old(log) && Cache() == old(Cache())
      {
        assert particles[..i + 1][..i] == particles[..i];
        var p := particles[i];
        if !PrimaryOrGenerator(p) || Abs(p.y) > setup.cfg.maxY {
          continue;
        }
        var pdg := IntAbs(p.pdgCode);
        if pdg == 223 {
          registry := registry + [Fill("Generated/sm/Omega2ee/hPt", [p.pt])];
          registry := registry + [Fill("Generated/sm/Omega2ee/hY", [p.y])];
        } else if pdg == 333 {
          registry := registry + [Fill("Generated/sm/Phi2ee/hPt", [p.pt])];
          registry := registry + [Fill("Generated/sm/Phi2ee/hY", [p.y])];
        }
      }
      assert particles[..|particles|] == particles;
    }

    /** The efficiency spectra of one collision, when it passes the centrality window and the event cut. */
    method ProcessGenEfficiency(gc: GenCollision)
      requires ValidSetup(setup)
      modifies this
      ensures registry == old(registry) + (if GenCollisionSelected(setup, gc.coll) then EfficiencyFillsOf(setup, gc.particles) else [])
      ensures log == old(log) && Cache() == old(Cache())
    {
      var centralities := [gc.coll.centFT0M, gc.coll.centFT0A, gc.coll.centFT0C];
      var est := setup.cfg.centEstimator;
      assert centralities[est] == Centrality(gc.coll, est);
      if centralities[est] < setup.cfg.centMin || setup.cfg.centMax < centralities[est] {
        return;
      }
      if !setup.ana.eventSelected(gc.coll) {
        return;
      }
      ProcessEfficiency(gc.particles);
    }

    /** The first pass of processGen. */
    method ProcessGenPairPass(gcs: seq<GenCollision>)
      requires ValidSetup(setup)
      modifies this
      ensures registry == old(registry) + HistFills(GenPairPass(setup, beams, gcs))
      ensures log == old(log) + LogLines(GenPairPass(setup, beams, gcs))
      ensures Cache() == old(Cache())
    {
      for i := 0 to |gcs|
        invariant registry == old(registry) + HistFills(GenPairPass(setup, beams, gcs[..i]))
        invariant log == old(log) + LogLines(GenPairPass(setup, beams, gcs[..i]))
        invariant Cache() == old(Cache())
      {
        assert gcs[..i + 1][..i] == gcs[..i];
        ghost var prev := GenPairPass(setup, beams, gcs[..i]);
        ghost var cur := GenCollisionActions(setup, beams, gcs[i]);
        assert GenPairPass(setup, beams, gcs[..i + 1]) == prev + cur;
        HistFillsAppend(prev, cur);
        ProcessGenCollision(gcs[i]);
        ConcatAssoc(old(registry), HistFills(prev), HistFills(cur));
        ConcatAssoc(old(log), LogLines(prev), LogLines(cur));
      }
      assert gcs[..|gcs|] == gcs;
    }

    /** The second pass of processGen. */
    method ProcessEfficiencyPass(gcs: seq<GenCollision>)
      requires ValidSetup(setup)
      modifies this
      ensures registry == old(registry) + EfficiencyPass(setup, gcs)
      ensures log == old(log) && Cache() == old(Cache())
    {
      for i := 0 to |gcs|
        invariant registry == old(registry) + EfficiencyPass(setup, gcs[..i])
        invariant log == old(log) && Cache() == old(Cache())
      {
        assert gcs[..i + 1][..i] == gcs[..i];
        ghost var prev := EfficiencyPass(setup, gcs[..i]);
        ghost var cur := if GenCollisionSelected(setup, gcs[i].coll) then EfficiencyFillsOf(setup, gcs[i].particles) else [];
        assert EfficiencyPass(setup, gcs[..i + 1]) == prev + cur;
        ProcessGenEfficiency(gcs[i]);
        ConcatAssoc(old(registry), prev, cur);
      }
      assert gcs[..|gcs|] == gcs;
    }

    method ProcessGen(gcs: seq<GenCollision>)
      requires ValidSetup(setup)
      modifies this
      ensures registry == old(registry) + HistFills(GenPairPass(setup, old(beams), gcs)) + EfficiencyPass(setup, gcs)
      ensures log == old(log) + LogLines(GenPairPass(setup, old(beams), gcs))
      ensures Cache() == old(Cache())
    {
      ProcessGenPairPass(gcs);
      ProcessEfficiencyPass(gcs);
    }
  }
}
