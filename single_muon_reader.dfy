/**
 * Forward-muon reader of the heavy-flavour muon analysis: per reduced event it
 * fills the vertex position once, then records every muon of the requested
 * track type that passes the eta, absorber-radius and p*DCA windows and has a
 * matched MCH track.
 */
module SingleMuonReader {
  import opened Wrappers
  import opened Histograms

  /** The task's configurables. */
  datatype MuonConfig = MuonConfig(
    trkType: int,
    etaMin: real,
    etaMax: real,
    pDcaMax: real,
    rAbsMax: real,
    rAbsMin: real)

  /** Default values of the configurables. */
  const DefaultConfig := MuonConfig(0, -3.6, -2.5, 594.0, 89.5, 26.5)

  datatype ReducedEvent = ReducedEvent(posZ: real)

  /**
   * A reduced muon. `dcaXY` is the transverse DCA, the square root of the sum
   * of squares of the forward DCA components, given as computed. The matched
   * MCH track, when present, is another row of the same muon table.
   */
  datatype Muon = Muon(
    trackType: int,
    eta: real,
    pDca: real,
    rAtAbsorberEnd: real,
    dcaXY: real,
    pt: real,
    sign: int,
    chi2MatchMchMft: real,
    matchMchTrack: Option<Muon>)

  const VtxZHist := "hVtxZ"
  const MuAfterCutsHist := "hMuAfterCuts"

  /** The cut chain of the muon loop, in the order the loop skips. */
  predicate MuonSelected(cfg: MuonConfig, m: Muon)
  {
    if m.trackType != cfg.trkType then false
    else if m.eta >= cfg.etaMax || m.eta < cfg.etaMin then false
    else if m.rAtAbsorberEnd >= cfg.rAbsMax || m.rAtAbsorberEnd < cfg.rAbsMin then false
    else if m.pDca >= cfg.pDcaMax then false
    else true
  }

  /** The six values recorded for a selected muon with a matched MCH track. */
  function MuonValues(m: Muon, mch: Muon): seq<real>
  {
    [m.pt, m.eta, m.dcaXY, m.sign as real, m.chi2MatchMchMft, mch.pt - m.pt]
  }

  /** Fills contributed by one muon of the loop. */
  function MuonStep(cfg: MuonConfig, m: Muon): seq<Fill>
  {
    if MuonSelected(cfg, m) && m.matchMchTrack.Some? then
      [Fill(MuAfterCutsHist, MuonValues(m, m.matchMchTrack.value))]
    else []
  }

  /** Fills contributed by the muon loop over `muons`, in order. */
  function MuonFills(cfg: MuonConfig, muons: seq<Muon>): seq<Fill>
    decreases |muons|
  {
    if muons == [] then []
    else MuonFills(cfg, muons[..|muons| - 1]) + MuonStep(cfg, muons[|muons| - 1])
  }

  /** All fills of one call of `process`. */
  function EventFills(cfg: MuonConfig, event: ReducedEvent, muons: seq<Muon>): seq<Fill>
  {
    [Fill(VtxZHist, [event.posZ])] + MuonFills(cfg, muons)
  }

  /**
   * The cut chain as windows: the track type must match, eta and the
   * absorber radius lie in half-open windows closed at the minimum, and
   * p*DCA lies strictly below its maximum.
   */
  lemma MuonSelectedWindows(cfg: MuonConfig, m: Muon)
    ensures MuonSelected(cfg, m) <==>
      && m.trackType == cfg.trkType
      && cfg.etaMin <= m.eta < cfg.etaMax
      && cfg.rAbsMin <= m.rAtAbsorberEnd < cfg.rAbsMax
      && m.pDca < cfg.pDcaMax
  {
  }

  /** The lower edges are inside the windows, the upper edges outside. */
  lemma MuonWindowEdges(cfg: MuonConfig, m: Muon)
    requires m.trackType == cfg.trkType
    requires cfg.rAbsMin <= m.rAtAbsorberEnd < cfg.rAbsMax && m.pDca < cfg.pDcaMax
    ensures m.eta == cfg.etaMin && cfg.etaMin < cfg.etaMax ==> MuonSelected(cfg, m)
    ensures m.eta == cfg.etaMax ==> !MuonSelected(cfg, m)
  {
  }

  /**
   * Every fill of the muon loop belongs to a muon of the input that passed
   * every cut and has a matched MCH track, and records that track's pt minus
   * the muon's own pt as its last value.
   */
  lemma {:induction false} MuonFillsSound(cfg: MuonConfig, muons: seq<Muon>, k: nat)
    requires k < |MuonFills(cfg, muons)|
    ensures exists i ::
      && 0 <= i < |muons|
      && MuonSelected(cfg, muons[i])
      && muons[i].matchMchTrack.Some?
      && MuonFills(cfg, muons)[k] == Fill(MuAfterCutsHist, MuonValues(muons[i], muons[i].matchMchTrack.value))
    decreases |muons|
  {
    var init := muons[..|muons| - 1];
    var m := muons[|muons| - 1];
    if k < |MuonFills(cfg, init)| {
      MuonFillsSound(cfg, init, k);
      var i :| 0 <= i < |init| && MuonSelected(cfg, init[i]) && init[i].matchMchTrack.Some? &&
        MuonFills(cfg, init)[k] == Fill(MuAfterCutsHist, MuonValues(init[i], init[i].matchMchTrack.value));
      assert muons[i] == init[i];
    } else {
      assert MuonFills(cfg, muons)[k] == MuonStep(cfg, m)[k - |MuonFills(cfg, init)|];
      assert muons[|muons| - 1] == m;
    }
  }

  /** The muon loop fills at most once per muon, and only `hMuAfterCuts`. */
  lemma {:induction false} MuonFillsShape(cfg: MuonConfig, muons: seq<Muon>)
    ensures |MuonFills(cfg, muons)| <= |muons|
    ensures CountNamed(MuonFills(cfg, muons), MuAfterCutsHist) == |MuonFills(cfg, muons)|
    ensures CountNamed(MuonFills(cfg, muons), VtxZHist) == 0
    decreases |muons|
  {
    if muons != [] {
      var init := muons[..|muons| - 1];
      MuonFillsShape(cfg, init);
      CountNamedAppend(MuonFills(cfg, init), MuonStep(cfg, muons[|muons| - 1]), MuAfterCutsHist);
      CountNamedAppend(MuonFills(cfg, init), MuonStep(cfg, muons[|muons| - 1]), VtxZHist);
    }
  }

  /** A muon without a matched MCH track adds nothing, whatever it passes. */
  lemma {:induction false} UnmatchedMuonsAddNothing(cfg: MuonConfig, muons: seq<Muon>, m: Muon)
    requires m.matchMchTrack.None?
    ensures MuonFills(cfg, muons + [m]) == MuonFills(cfg, muons)
  {
    assert (muons + [m])[..|muons + [m]| - 1] == muons;
  }

  /**
   * The vertex-z histogram is filled exactly once per event, first, and
   * independently of the muons.
   */
  lemma VertexFilledOncePerEvent(cfg: MuonConfig, event: ReducedEvent, muons: seq<Muon>)
    ensures EventFills(cfg, event, muons)[0] == Fill(VtxZHist, [event.posZ])
    ensures CountNamed(EventFills(cfg, event, muons), VtxZHist) == 1
  {
    MuonFillsShape(cfg, muons);
    CountNamedAppend([Fill(VtxZHist, [event.posZ])], MuonFills(cfg, muons), VtxZHist);
    assert CountNamed([Fill(VtxZHist, [event.posZ])], VtxZHist) == 1 by {
      assert [Fill(VtxZHist, [event.posZ])][..0] == [];
    }
  }

  /** The analysis task; `registry` holds the fills made so far. */
  class HfTaskSingleMuonReader {
    const cfg: MuonConfig
    var registry: seq<Fill>

    constructor (cfg: MuonConfig)
      ensures this.cfg == cfg && registry == []
    {
      this.cfg := cfg;
      registry := [];
    }

    /** Processes one reduced event and its muons. */
    method Process(event: ReducedEvent, muons: seq<Muon>)
      modifies this
      ensures registry == old(registry) + EventFills(cfg, event, muons)
    {
      registry := registry + [Fill(VtxZHist, [event.posZ])];
      ghost var start := registry;
      for i := 0 to |muons|
        invariant registry == start + MuonFills(cfg, muons[..i])
      {
        assert muons[..i + 1][..i] == muons[..i];
        assert MuonFills(cfg, muons[..i + 1]) == MuonFills(cfg, muons[..i]) + MuonStep(cfg, muons[i]);
        ProcessMuon(muons[i]);
      }
      assert muons[..|muons|] == muons;
    }

    /** One pass of the muon loop: the cut chain, then the fill when an MCH track is matched. */
    method ProcessMuon(muon: Muon)
      modifies this
      ensures registry == old(registry) + MuonStep(cfg, muon)
    {
      if muon.trackType != cfg.trkType {
        return;
      }
      var eta, pDca := muon.eta, muon.pDca;
      var rAbs := muon.rAtAbsorberEnd;
      if eta >= cfg.etaMax || eta < cfg.etaMin {
        return;
      }
      if rAbs >= cfg.rAbsMax || rAbs < cfg.rAbsMin {
        return;
      }
      if pDca >= cfg.pDcaMax {
        return;
      }
      if muon.matchMchTrack.Some? {
        var muonType3 := muon.matchMchTrack.value;
        var dpt := muonType3.pt - muon.pt;
        registry := registry + [Fill(MuAfterCutsHist, [muon.pt, eta, muon.dcaXY, muon.sign as real, muon.chi2MatchMchMft, dpt])];
      }
    }
  }
}
