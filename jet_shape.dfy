/**
 * Jet-shape analysis of charged jets: jet acceptance (area and leading
 * constituent cuts), the radial distribution of track pt around the jet axis
 * and around two background axes at plus and minus pi/2 in azimuth, and the
 * identified-hadron production-ratio histograms.
 *
 * All floating-point quantities are reals. The radial distance of a track
 * from an axis, sqrt(deltaEta^2 + constrainAngle(deltaPhi)^2), is computed
 * by framework numerics and is a given function `radial` of the task.
 */
module JetShape {
  import opened Histograms

  const Pi: real := 3.14159265358979323846
  const PiHalf: real := Pi / 2.0

  /** Sentinels below and above which the optional cuts are switched on. */
  const JetAreaFractionMinValue: real := -98.0
  const LeadingConstituentPtMinValue: real := 5.0
  const LeadingConstituentPtMaxValue: real := 9998.0

  /** The configurables that the modelled logic reads. */
  datatype JetConfig = JetConfig(
    jetAreaFractionMin: real,
    leadingConstituentPtMin: real,
    leadingConstituentPtMax: real,
    distanceCategory: seq<real>,
    etaTrUp: real,
    dcaxyMax: real,
    chi2ItsMax: real,
    chi2TpcMax: real,
    nclItsMin: real,
    nclTpcMin: real,
    nclcrossTpcMin: real)

  const DefaultConfig := JetConfig(
    -99.0, 5.0, 9999.0,
    [0.00, 0.05, 0.10, 0.15, 0.20, 0.25, 0.30, 0.35, 0.40, 0.45, 0.50, 0.55, 0.60, 0.65, 0.70],
    0.7, 2.0, 15.0, 4.0, 2.0, 100.0, 70.0)

  /** A charged jet; `r` is the resolution parameter times 100, `constituentPts` the constituents' pt. */
  datatype Jet = Jet(pt: real, eta: real, phi: real, area: real, r: int, constituentPts: seq<real>)

  /** A track with the quality and PID columns the production-ratio histograms use. */
  datatype JetTrack = JetTrack(
    pt: real,
    eta: real,
    phi: real,
    tpcNClsCrossedRows: int,
    dcaXY: real,
    itsChi2NCl: real,
    tpcChi2NCl: real,
    tpcNClsFound: int,
    itsNCls: int,
    mass: real,
    tpcNSigmaPi: real,
    tofNSigmaPi: real,
    tpcNSigmaPr: real,
    tofNSigmaPr: real,
    tpcSignal: real,
    beta: real)

  /**
   * A collision with its background density `rho`. `eventSelected` is the
   * verdict of the framework's event selection for the configured bits.
   */
  datatype JetCollision = JetCollision(posZ: real, rho: real, centrality: real, eventSelected: bool)

  function Abs(x: real): real { if x < 0.0 then -x else x }

  // ---------------------------------------------------------------- acceptance

  function RadiusSquared(jet: Jet): real
  {
    (jet.r as real / 100.0) * (jet.r as real / 100.0)
  }

  /** The area cut: two lower bounds, both skipped unless the fraction is above the sentinel. */
  predicate AreaAccepted(cfg: JetConfig, jet: Jet)
  {
    if cfg.jetAreaFractionMin > JetAreaFractionMinValue then
      !(jet.area < cfg.jetAreaFractionMin * Pi * RadiusSquared(jet)) &&
      !(jet.area < PiHalf * RadiusSquared(jet))
    else
      true
  }

  predicate CheckConstituentMinPt(cfg: JetConfig) { cfg.leadingConstituentPtMin > LeadingConstituentPtMinValue }

  predicate CheckConstituentMaxPt(cfg: JetConfig) { cfg.leadingConstituentPtMax < LeadingConstituentPtMaxValue }

  /**
   * The leading-constituent cut: when switched on, some constituent reaches
   * the minimum and no constituent exceeds the maximum.
   */
  predicate LeadingConstituentAccepted(cfg: JetConfig, pts: seq<real>)
  {
    && (!CheckConstituentMinPt(cfg) || exists k :: 0 <= k < |pts| && pts[k] >= cfg.leadingConstituentPtMin)
    && (!CheckConstituentMaxPt(cfg) || forall k :: 0 <= k < |pts| ==> pts[k] <= cfg.leadingConstituentPtMax)
  }

  predicate JetAccepted(cfg: JetConfig, jet: Jet)
  {
    AreaAccepted(cfg, jet) && LeadingConstituentAccepted(cfg, jet.constituentPts)
  }

  /** The jet selection, as a pass over the constituents that updates two flags. */
  method IsAcceptedJet(cfg: JetConfig, jet: Jet) returns (accepted: bool)
    ensures accepted == JetAccepted(cfg, jet)
  {
    if cfg.jetAreaFractionMin > JetAreaFractionMinValue {
      var r := jet.r as real / 100.0;
      if jet.area < cfg.jetAreaFractionMin * Pi * r * r {
        return false;
      }
      if jet.area < PiHalf * r * r {
        return false;
      }
    }
    var checkConstituentPt := true;
    var checkConstituentMinPt := cfg.leadingConstituentPtMin > LeadingConstituentPtMinValue;
    var checkConstituentMaxPt := cfg.leadingConstituentPtMax < LeadingConstituentPtMaxValue;
    if !checkConstituentMinPt && !checkConstituentMaxPt {
      checkConstituentPt := false;
    }
    if checkConstituentPt {
      var pts := jet.constituentPts;
      var isMinLeadingConstituent := !checkConstituentMinPt;
      var isMaxLeadingConstituent := true;
      for i := 0 to |pts|
        invariant isMinLeadingConstituent <==>
          !checkConstituentMinPt || exists k :: 0 <= k < i && pts[k] >= cfg.leadingConstituentPtMin
        invariant isMaxLeadingConstituent <==>
          forall k :: 0 <= k < i ==> !(checkConstituentMaxPt && pts[k] > cfg.leadingConstituentPtMax)
      {
        var pt := pts[i];
        if checkConstituentMinPt && pt >= cfg.leadingConstituentPtMin {
          isMinLeadingConstituent := true;
        }
        if checkConstituentMaxPt && pt > cfg.leadingConstituentPtMax {
          isMaxLeadingConstituent := false;
        }
      }
      return isMinLeadingConstituent && isMaxLeadingConstituent;
    }
    return true;
  }

  /** At or below the sentinel fraction the area of the jet plays no part. */
  lemma AreaChecksSkipped(cfg: JetConfig, jet: Jet, area: real)
    requires cfg.jetAreaFractionMin <= JetAreaFractionMinValue
    ensures JetAccepted(cfg, jet) == JetAccepted(cfg, jet.(area := area))
  {
  }

  function Max(a: real, b: real): real { if a < b then b else a }

  /**
   * With the area cut switched on, the two bounds amount to one: the area
   * must reach the larger of the configured fraction and one half, times the
   * area pi r^2 of the jet cone.
   */
  lemma AreaCutThreshold(cfg: JetConfig, jet: Jet)
    requires cfg.jetAreaFractionMin > JetAreaFractionMinValue
    ensures AreaAccepted(cfg, jet) <==>
      jet.area >= Max(cfg.jetAreaFractionMin, 0.5) * (Pi * RadiusSquared(jet))
  {
    var cone := Pi * RadiusSquared(jet);
    var r := jet.r as real / 100.0;
    assert r * r >= 0.0;
    assert cone >= 0.0;
    assert cfg.jetAreaFractionMin * Pi * RadiusSquared(jet) == cfg.jetAreaFractionMin * cone;
    assert PiHalf * RadiusSquared(jet) == 0.5 * cone;
    if cfg.jetAreaFractionMin < 0.5 {
      assert cfg.jetAreaFractionMin * cone <= 0.5 * cone;
    } else {
      assert 0.5 * cone <= cfg.jetAreaFractionMin * cone;
    }
  }

  /** Unless one of the constituent cuts is switched on, the constituents play no part. */
  lemma ConstituentChecksSkipped(cfg: JetConfig, jet: Jet, pts: seq<real>)
    requires !CheckConstituentMinPt(cfg) && !CheckConstituentMaxPt(cfg)
    ensures JetAccepted(cfg, jet) == JetAccepted(cfg, jet.(constituentPts := pts))
    ensures JetAccepted(cfg, jet) == AreaAccepted(cfg, jet)
  {
  }

  // ------------------------------------------------------------ radial binning

  /** The bin edges are in non-decreasing order. */
  predicate Sorted(cats: seq<real>)
  {
    forall i :: 0 <= i < |cats| - 1 ==> cats[i] <= cats[i + 1]
  }

  /** Bin `i` covers the half-open interval [cats[i], cats[i+1]). */
  predicate InBin(cats: seq<real>, i: int, d: real)
    requires 0 <= i < |cats| - 1
  {
    cats[i] <= d < cats[i + 1]
  }

  function Zeros(n: nat): (r: seq<real>)
    ensures |r| == n && forall k :: 0 <= k < n ==> r[k] == 0.0
  {
    seq(n, _ => 0.0)
  }

  /** The per-bin pt sums a single track at distance `d` contributes. */
  function BinnedPt(cats: seq<real>, d: real, pt: real): (r: seq<real>)
    requires |cats| >= 1
    ensures |r| == |cats| - 1
  {
    seq(|cats| - 1, i requires 0 <= i < |cats| - 1 => if InBin(cats, i, d) then pt else 0.0)
  }

  function Sum(s: seq<real>): real
  {
    if s == [] then 0.0 else Sum(s[..|s| - 1]) + s[|s| - 1]
  }

  /** Adjacent order gives order between any two edges. */
  lemma {:induction false} SortedMonotone(cats: seq<real>, i: int, j: int)
    requires Sorted(cats)
    requires 0 <= i <= j < |cats|
    ensures cats[i] <= cats[j]
    decreases j - i
  {
    if i < j {
      SortedMonotone(cats, i + 1, j);
    }
  }

  /** With sorted edges a distance lies in at most one bin. */
  lemma AtMostOneBin(cats: seq<real>, d: real, i: int, j: int)
    requires Sorted(cats)
    requires 0 <= i < |cats| - 1 && 0 <= j < |cats| - 1
    requires InBin(cats, i, d) && InBin(cats, j, d)
    ensures i == j
  {
    if i < j {
      SortedMonotone(cats, i + 1, j);
    } else if j < i {
      SortedMonotone(cats, j + 1, i);
    }
  }

  /** With sorted edges a distance outside [cats[0], cats[last]) adds to no bin. */
  lemma OutsideRangeAddsNothing(cats: seq<real>, d: real, pt: real)
    requires Sorted(cats) && |cats| >= 1
    requires d < cats[0] || d >= cats[|cats| - 1]
    ensures BinnedPt(cats, d, pt) == Zeros(|cats| - 1)
  {
    forall i | 0 <= i < |cats| - 1
      ensures !InBin(cats, i, d)
    {
      SortedMonotone(cats, 0, i);
      SortedMonotone(cats, i + 1, |cats| - 1);
    }
  }

  /**
   * With sorted edges a track's pt is counted exactly once over all bins
   * when its distance lies in [cats[0], cats[last]), and not at all otherwise.
   */
  lemma {:induction false} BinnedPtTotal(cats: seq<real>, d: real, pt: real)
    requires Sorted(cats) && |cats| >= 1
    ensures Sum(BinnedPt(cats, d, pt)) == if cats[0] <= d < cats[|cats| - 1] then pt else 0.0
    decreases |cats|
  {
    var n := |cats|;
    if n > 1 {
      var init := cats[..n - 1];
      assert Sorted(init);
      BinnedPtTotal(init, d, pt);
      var b := BinnedPt(cats, d, pt);
      assert b[..|b| - 1] == BinnedPt(init, d, pt);
      SortedMonotone(cats, 0, n - 2);
    }
  }

  // ------------------------------------------------------------------ densities

  function Width(cats: seq<real>, i: int): real
    requires 0 <= i < |cats| - 1
  {
    cats[i + 1] - cats[i]
  }

  /** The denominator of bin `i`: its width times the corrected jet pt. */
  function BinDenominator(cats: seq<real>, i: int, ptCorr: real): real
    requires 0 <= i < |cats| - 1
  {
    (cats[i + 1] - cats[i]) * ptCorr
  }

  /** Division, except that a zero denominator yields zero. */
  function Ratio(num: real, den: real): real
  {
    if den == 0.0 then 0.0 else num / den
  }

  /** The three accumulated radial densities: around the jet axis and the two background axes. */
  datatype Densities = Densities(axis: seq<real>, bg1: seq<real>, bg2: seq<real>)

  datatype Cone = Axis | Bg1 | Bg2

  function Density(d: Densities, c: Cone): seq<real>
  {
    match c
    case Axis => d.axis
    case Bg1 => d.bg1
    case Bg2 => d.bg2
  }

  predicate Shaped(cats: seq<real>, d: Densities)
  {
    |cats| >= 1 && |d.axis| == |cats| - 1 && |d.bg1| == |cats| - 1 && |d.bg2| == |cats| - 1
  }

  /** The densities of a collision before its first jet. */
  function ZeroDensities(cats: seq<real>): (d: Densities)
    requires |cats| >= 1
    ensures Shaped(cats, d)
    ensures forall c: Cone, i :: 0 <= i < |cats| - 1 ==> Density(d, c)[i] == 0.0
  {
    Densities(Zeros(|cats| - 1), Zeros(|cats| - 1), Zeros(|cats| - 1))
  }

  /** Distances of a track from the jet axis and from the two background axes. */
  datatype Distances = Distances(axis: real, bg1: real, bg2: real)

  function Distance(ds: Distances, c: Cone): real
  {
    match c
    case Axis => ds.axis
    case Bg1 => ds.bg1
    case Bg2 => ds.bg2
  }

  function TrackDistances(radial: (real, real) -> real, track: JetTrack, jet: Jet): Distances
  {
    var deltaEta := track.eta - jet.eta;
    Distances(
      radial(deltaEta, track.phi - jet.phi),
      radial(deltaEta, track.phi - (jet.phi + PiHalf)),
      radial(deltaEta, track.phi - (jet.phi - PiHalf)))
  }

  /** Per-bin density after one track's bin sums `sums` are added. */
  function AddedDensity(cats: seq<real>, density: seq<real>, sums: seq<real>, ptCorr: real): (r: seq<real>)
    requires |cats| >= 1 && |density| == |cats| - 1 && |sums| == |cats| - 1
    ensures |r| == |density|
  {
    seq(|density|, i requires 0 <= i < |density| => density[i] + Ratio(sums[i], BinDenominator(cats, i, ptCorr)))
  }

  /** The densities after one track. */
  function TrackUpdate(cats: seq<real>, d: Densities, ds: Distances, pt: real, ptCorr: real): (r: Densities)
    requires Shaped(cats, d)
    ensures Shaped(cats, r)
  {
    Densities(
      AddedDensity(cats, d.axis, BinnedPt(cats, ds.axis, pt), ptCorr),
      AddedDensity(cats, d.bg1, BinnedPt(cats, ds.bg1, pt), ptCorr),
      AddedDensity(cats, d.bg2, BinnedPt(cats, ds.bg2, pt), ptCorr))
  }

  /** The densities after the track loop of one jet, starting from `d`. */
  function TracksUpdate(cats: seq<real>, radial: (real, real) -> real, jet: Jet, ptCorr: real,
                        d: Densities, tracks: seq<JetTrack>): (r: Densities)
    requires Shaped(cats, d)
    ensures Shaped(cats, r)
    decreases |tracks|
  {
    if tracks == [] then d
    else
      var last := tracks[|tracks| - 1];
      TrackUpdate(cats, TracksUpdate(cats, radial, jet, ptCorr, d, tracks[..|tracks| - 1]),
                  TrackDistances(radial, last, jet), last.pt, ptCorr)
  }

  /** Summed pt of the tracks that fall into bin `i` of cone `c`. */
  function BinTrackPt(cats: seq<real>, radial: (real, real) -> real, jet: Jet, tracks: seq<JetTrack>,
                      c: Cone, i: int): real
    requires 0 <= i < |cats| - 1
    decreases |tracks|
  {
    if tracks == [] then 0.0
    else
      var last := tracks[|tracks| - 1];
      BinTrackPt(cats, radial, jet, tracks[..|tracks| - 1], c, i) +
      (if InBin(cats, i, Distance(TrackDistances(radial, last, jet), c)) then last.pt else 0.0)
  }

  /**
   * Over the track loop of one jet, bin `i` of each density grows by exactly
   * the summed pt of the tracks in that bin divided by the bin width times
   * the corrected jet pt, and by nothing else.
   */
  lemma {:induction false} TracksUpdateIncrement(cats: seq<real>, radial: (real, real) -> real, jet: Jet,
                                                 ptCorr: real, d: Densities, tracks: seq<JetTrack>,
                                                 c: Cone, i: int)
    requires Shaped(cats, d) && 0 <= i < |cats| - 1
    ensures Density(TracksUpdate(cats, radial, jet, ptCorr, d, tracks), c)[i] ==
      Density(d, c)[i] + Ratio(BinTrackPt(cats, radial, jet, tracks, c, i), BinDenominator(cats, i, ptCorr))
    decreases |tracks|
  {
    if tracks != [] {
      var init := tracks[..|tracks| - 1];
      var last := tracks[|tracks| - 1];
      var w := BinDenominator(cats, i, ptCorr);
      var prev := TracksUpdate(cats, radial, jet, ptCorr, d, init);
      var ds := TrackDistances(radial, last, jet);
      var a := BinTrackPt(cats, radial, jet, init, c, i);
      var b := if InBin(cats, i, Distance(ds, c)) then last.pt else 0.0;
      calc {
        Density(TracksUpdate(cats, radial, jet, ptCorr, d, tracks), c)[i];
        Density(TrackUpdate(cats, prev, ds, last.pt, ptCorr), c)[i];
        { TrackUpdateAt(cats, prev, ds, last.pt, ptCorr, c, i); }
        Density(prev, c)[i] + Ratio(b, w);
        { TracksUpdateIncrement(cats, radial, jet, ptCorr, d, init, c, i); }
        Density(d, c)[i] + Ratio(a, w) + Ratio(b, w);
        { RatioSum(a, b, w); }
        Density(d, c)[i] + Ratio(a + b, w);
        Density(d, c)[i] + Ratio(BinTrackPt(cats, radial, jet, tracks, c, i), w);
      }
    }
  }

  /** One track changes bin `i` of cone `c` by its bin sum over width times corrected pt. */
  lemma TrackUpdateAt(cats: seq<real>, d: Densities, ds: Distances, pt: real, ptCorr: real, c: Cone, i: int)
    requires Shaped(cats, d) && 0 <= i < |cats| - 1
    ensures Density(TrackUpdate(cats, d, ds, pt, ptCorr), c)[i] ==
      Density(d, c)[i] + Ratio(if InBin(cats, i, Distance(ds, c)) then pt else 0.0, BinDenominator(cats, i, ptCorr))
  {
    var r := TrackUpdate(cats, d, ds, pt, ptCorr);
    match c
    case Axis => assert BinnedPt(cats, ds.axis, pt)[i] == if InBin(cats, i, ds.axis) then pt else 0.0;
    case Bg1 => assert BinnedPt(cats, ds.bg1, pt)[i] == if InBin(cats, i, ds.bg1) then pt else 0.0;
    case Bg2 => assert BinnedPt(cats, ds.bg2, pt)[i] == if InBin(cats, i, ds.bg2) then pt else 0.0;
  }

  lemma RatioSum(a: real, b: real, w: real)
    ensures Ratio(a, w) + Ratio(b, w) == Ratio(a + b, w)
  {
  }

  /** Bin centre as the task computes it: width times index plus half a width. */
  function JetX(cats: seq<real>, i: int): real
    requires 0 <= i < |cats| - 1
  {
    Width(cats, i) * (i as real) + Width(cats, i) / 2.0
  }

  /** The corrected jet pt: the jet pt minus the background density times the jet area. */
  function CorrectedPt(jet: Jet, coll: JetCollision): real
  {
    jet.pt - coll.rho * jet.area
  }

  // ---------------------------------------------------------- jet-shape fills

  function TrackShapeFills(radial: (real, real) -> real, coll: JetCollision, jet: Jet, track: JetTrack): seq<Fill>
  {
    [Fill("ptCorrVsDistance", [TrackDistances(radial, track, jet).axis, CorrectedPt(jet, coll)]),
     Fill("ptVsCentrality", [coll.centrality, track.pt])]
  }

  function TracksShapeFills(radial: (real, real) -> real, coll: JetCollision, jet: Jet, tracks: seq<JetTrack>): seq<Fill>
    decreases |tracks|
  {
    if tracks == [] then []
    else TracksShapeFills(radial, coll, jet, tracks[..|tracks| - 1]) + TrackShapeFills(radial, coll, jet, tracks[|tracks| - 1])
  }

  function JetSummaryFills(coll: JetCollision, jet: Jet): seq<Fill>
  {
    [Fill("jetPt", [jet.pt]), Fill("jetEta", [jet.eta]), Fill("jetPhi", [jet.phi]),
     Fill("area", [jet.area]), Fill("rho", [coll.rho]), Fill("ptCorr", [CorrectedPt(jet, coll)])]
  }

  /** The jet-shape fills of the first `n` bins. */
  function ShapeFills(cats: seq<real>, d: Densities, n: nat): seq<Fill>
    requires Shaped(cats, d) && n <= |cats| - 1
  {
    if n == 0 then []
    else
      var i := n - 1;
      ShapeFills(cats, d, i) +
      [Fill("ptSum", [JetX(cats, i), d.axis[i]]),
       Fill("ptSumBg1", [JetX(cats, i), d.bg1[i]]),
       Fill("ptSumBg2", [JetX(cats, i), d.bg2[i]])]
  }

  /** State of the jet loop of one collision: the densities (shared by all its jets) and the fills. */
  datatype ShapeRun = ShapeRun(densities: Densities, fills: seq<Fill>)

  function JetShapeStep(cfg: JetConfig, radial: (real, real) -> real, coll: JetCollision,
                        tracks: seq<JetTrack>, run: ShapeRun, jet: Jet): (r: ShapeRun)
    requires Shaped(cfg.distanceCategory, run.densities)
    ensures Shaped(cfg.distanceCategory, r.densities)
  {
    if !JetAccepted(cfg, jet) then run
    else
      var cats := cfg.distanceCategory;
      var d := TracksUpdate(cats, radial, jet, CorrectedPt(jet, coll), run.densities, tracks);
      ShapeRun(d, run.fills + AcceptedJetShapeFills(cats, radial, coll, jet, tracks, d))
  }

  /**
   * The fills of an accepted jet: two per track, six summary fills, then
   * three per bin from the densities `d` as they stand after its tracks.
   */
  function AcceptedJetShapeFills(cats: seq<real>, radial: (real, real) -> real, coll: JetCollision, jet: Jet,
                                 tracks: seq<JetTrack>, d: Densities): seq<Fill>
    requires Shaped(cats, d)
  {
    TracksShapeFills(radial, coll, jet, tracks) + JetSummaryFills(coll, jet) + ShapeFills(cats, d, |cats| - 1)
  }

  /** The jet loop of one collision over `jets`, in order. */
  function JetShapeRun(cfg: JetConfig, radial: (real, real) -> real, coll: JetCollision,
                       tracks: seq<JetTrack>, jets: seq<Jet>): (r: ShapeRun)
    requires |cfg.distanceCategory| >= 1
    ensures Shaped(cfg.distanceCategory, r.densities)
    decreases |jets|
  {
    if jets == [] then ShapeRun(ZeroDensities(cfg.distanceCategory), [])
    else JetShapeStep(cfg, radial, coll, tracks, JetShapeRun(cfg, radial, coll, tracks, jets[..|jets| - 1]), jets[|jets| - 1])
  }

  /** A rejected jet changes neither the densities nor the fills. */
  lemma RejectedJetChangesNothing(cfg: JetConfig, radial: (real, real) -> real, coll: JetCollision,
                                  tracks: seq<JetTrack>, jets: seq<Jet>, jet: Jet)
    requires |cfg.distanceCategory| >= 1 && !JetAccepted(cfg, jet)
    ensures JetShapeRun(cfg, radial, coll, tracks, jets + [jet]) == JetShapeRun(cfg, radial, coll, tracks, jets)
  {
    assert (jets + [jet])[..|jets + [jet]| - 1] == jets;
  }

  /**
   * An accepted jet appends, after the two fills of each track, the six
   * summary fills (the last one its corrected pt) and three fills per bin
   * that read the densities accumulated so far.
   */
  lemma {:induction false} AcceptedJetFills(cfg: JetConfig, radial: (real, real) -> real, coll: JetCollision,
                                            tracks: seq<JetTrack>, jets: seq<Jet>, jet: Jet)
    requires |cfg.distanceCategory| >= 1 && JetAccepted(cfg, jet)
    ensures |JetShapeRun(cfg, radial, coll, tracks, jets + [jet]).fills| ==
      |JetShapeRun(cfg, radial, coll, tracks, jets).fills| + 2 * |tracks| + 6 + 3 * (|cfg.distanceCategory| - 1)
    ensures JetShapeRun(cfg, radial, coll, tracks, jets + [jet]).fills[..|JetShapeRun(cfg, radial, coll, tracks, jets).fills|] ==
      JetShapeRun(cfg, radial, coll, tracks, jets).fills
    ensures JetShapeRun(cfg, radial, coll, tracks, jets + [jet]).fills[|JetShapeRun(cfg, radial, coll, tracks, jets).fills| + 2 * |tracks| + 5] ==
      Fill("ptCorr", [jet.pt - coll.rho * jet.area])
  {
    var cats := cfg.distanceCategory;
    var before := JetShapeRun(cfg, radial, coll, tracks, jets);
    var d := TracksUpdate(cats, radial, jet, CorrectedPt(jet, coll), before.densities, tracks);
    var tf := TracksShapeFills(radial, coll, jet, tracks);
    var js := JetSummaryFills(coll, jet);
    var sf := ShapeFills(cats, d, |cats| - 1);
    var after := JetShapeRun(cfg, radial, coll, tracks, jets + [jet]).fills;
    assert after == before.fills + tf + js + sf by {
      assert (jets + [jet])[..|jets + [jet]| - 1] == jets;
    }
    TracksShapeFillsLength(radial, coll, jet, tracks);
    ShapeFillsLength(cats, d, |cats| - 1);
    FillLayout(before.fills, tf, js, sf);
    assert after[|before.fills| + 2 * |tracks| + 5] == js[5];
    SummaryPtCorr(coll, jet);
  }

  /** The last summary fill is the corrected pt. */
  lemma SummaryPtCorr(coll: JetCollision, jet: Jet)
    ensures JetSummaryFills(coll, jet)[5] == Fill("ptCorr", [jet.pt - coll.rho * jet.area])
  {
    assert CorrectedPt(jet, coll) == jet.pt - coll.rho * jet.area;
    assert JetSummaryFills(coll, jet)[5] == Fill("ptCorr", [CorrectedPt(jet, coll)]);
  }

  /** Where the parts of `a + b + c + e` lie, for a six-element `c`. */
  lemma FillLayout(a: seq<Fill>, b: seq<Fill>, c: seq<Fill>, e: seq<Fill>)
    requires |c| == 6
    ensures |a + b + c + e| == |a| + |b| + |c| + |e|
    ensures (a + b + c + e)[..|a|] == a
    ensures (a + b + c + e)[|a| + |b| + 5] == c[5]
  {
  }

  lemma {:induction false} TracksShapeFillsLength(radial: (real, real) -> real, coll: JetCollision, jet: Jet, tracks: seq<JetTrack>)
    ensures |TracksShapeFills(radial, coll, jet, tracks)| == 2 * |tracks|
    decreases |tracks|
  {
    if tracks != [] {
      TracksShapeFillsLength(radial, coll, jet, tracks[..|tracks| - 1]);
    }
  }

  lemma {:induction false} ShapeFillsLength(cats: seq<real>, d: Densities, n: nat)
    requires Shaped(cats, d) && n <= |cats| - 1
    ensures |ShapeFills(cats, d, n)| == 3 * n
  {
    if n > 0 {
      ShapeFillsLength(cats, d, n - 1);
    }
  }

  /** The per-track bin sums of the three cones, as the index loop computes them. */
  method TrackPtSums(cats: seq<real>, ds: Distances, pt: real)
    returns (trackPtSum: seq<real>, trackPtSumBg1: seq<real>, trackPtSumBg2: seq<real>)
    requires |cats| >= 1
    ensures trackPtSum == BinnedPt(cats, ds.axis, pt)
    ensures trackPtSumBg1 == BinnedPt(cats, ds.bg1, pt)
    ensures trackPtSumBg2 == BinnedPt(cats, ds.bg2, pt)
  {
    var n := |cats| - 1;
    trackPtSum, trackPtSumBg1, trackPtSumBg2 := Zeros(n), Zeros(n), Zeros(n);
    for i := 0 to n
      invariant |trackPtSum| == n && |trackPtSumBg1| == n && |trackPtSumBg2| == n
      invariant forall k :: 0 <= k < i ==> trackPtSum[k] == BinnedPt(cats, ds.axis, pt)[k]
      invariant forall k :: 0 <= k < i ==> trackPtSumBg1[k] == BinnedPt(cats, ds.bg1, pt)[k]
      invariant forall k :: 0 <= k < i ==> trackPtSumBg2[k] == BinnedPt(cats, ds.bg2, pt)[k]
      invariant forall k :: i <= k < n ==> trackPtSum[k] == 0.0 && trackPtSumBg1[k] == 0.0 && trackPtSumBg2[k] == 0.0
    {
      if cats[i] <= ds.axis && ds.axis < cats[i + 1] {
        trackPtSum := trackPtSum[i := trackPtSum[i] + pt];
      }
      if cats[i] <= ds.bg1 && ds.bg1 < cats[i + 1] {
        trackPtSumBg1 := trackPtSumBg1[i := trackPtSumBg1[i] + pt];
      }
      if cats[i] <= ds.bg2 && ds.bg2 < cats[i + 1] {
        trackPtSumBg2 := trackPtSumBg2[i := trackPtSumBg2[i] + pt];
      }
    }
  }

  /** Adds one track's bin sums, scaled by bin width and corrected pt, to the densities. */
  method AddDensities(cats: seq<real>, d: Densities, sums: Densities, ptCorr: real) returns (r: Densities)
    requires Shaped(cats, d) && Shaped(cats, sums)
    ensures r == Densities(AddedDensity(cats, d.axis, sums.axis, ptCorr),
                           AddedDensity(cats, d.bg1, sums.bg1, ptCorr),
                           AddedDensity(cats, d.bg2, sums.bg2, ptCorr))
  {
    var n := |cats| - 1;
    var ptDensity, ptDensityBg1, ptDensityBg2 := d.axis, d.bg1, d.bg2;
    for i := 0 to n
      invariant |ptDensity| == n && |ptDensityBg1| == n && |ptDensityBg2| == n
      invariant forall k :: 0 <= k < i ==> ptDensity[k] == AddedDensity(cats, d.axis, sums.axis, ptCorr)[k]
      invariant forall k :: 0 <= k < i ==> ptDensityBg1[k] == AddedDensity(cats, d.bg1, sums.bg1, ptCorr)[k]
      invariant forall k :: 0 <= k < i ==> ptDensityBg2[k] == AddedDensity(cats, d.bg2, sums.bg2, ptCorr)[k]
      invariant forall k :: i <= k < n ==> ptDensity[k] == d.axis[k] && ptDensityBg1[k] == d.bg1[k] && ptDensityBg2[k] == d.bg2[k]
    {
      var den := (cats[i + 1] - cats[i]) * ptCorr;
      ptDensity := ptDensity[i := ptDensity[i] + Ratio(sums.axis[i], den)];
      ptDensityBg1 := ptDensityBg1[i := ptDensityBg1[i] + Ratio(sums.bg1[i], den)];
      ptDensityBg2 := ptDensityBg2[i := ptDensityBg2[i] + Ratio(sums.bg2[i], den)];
      assert ptDensity[i] == AddedDensity(cats, d.axis, sums.axis, ptCorr)[i];
      assert ptDensityBg1[i] == AddedDensity(cats, d.bg1, sums.bg1, ptCorr)[i];
      assert ptDensityBg2[i] == AddedDensity(cats, d.bg2, sums.bg2, ptCorr)[i];
    }
    r := Densities(ptDensity, ptDensityBg1, ptDensityBg2);
  }

  // -------------------------------------------------- production-ratio fills

  /** The track-quality chain of the production-ratio loop, in the order it skips. */
  predicate ProductionTrackSelected(cfg: JetConfig, t: JetTrack)
  {
    if Abs(t.eta) > cfg.etaTrUp then false
    else if (t.tpcNClsCrossedRows as real) < cfg.nclcrossTpcMin then false
    else if Abs(t.dcaXY) > cfg.dcaxyMax then false
    else if t.itsChi2NCl > cfg.chi2ItsMax then false
    else if t.tpcChi2NCl > cfg.chi2TpcMax then false
    else if (t.tpcNClsFound as real) < cfg.nclTpcMin then false
    else if (t.itsNCls as real) < cfg.nclItsMin then false
    else true
  }

  /** The chain as one conjunction of closed windows and minima. */
  lemma ProductionTrackSelectedIff(cfg: JetConfig, t: JetTrack)
    ensures ProductionTrackSelected(cfg, t) <==>
      && -cfg.etaTrUp <= t.eta <= cfg.etaTrUp
      && t.tpcNClsCrossedRows as real >= cfg.nclcrossTpcMin
      && -cfg.dcaxyMax <= t.dcaXY <= cfg.dcaxyMax
      && t.itsChi2NCl <= cfg.chi2ItsMax
      && t.tpcChi2NCl <= cfg.chi2TpcMax
      && t.tpcNClsFound as real >= cfg.nclTpcMin
      && t.itsNCls as real >= cfg.nclItsMin
  {
  }

  /** The ten fills of a selected track in the production-ratio loop. */
  function ProductionTrackFills(t: JetTrack, distance: real): seq<Fill>
  {
    [Fill("tofMass", [t.mass]),
     Fill("tpcPi", [t.pt, t.tpcNSigmaPi]),
     Fill("tofPi", [t.pt, t.tofNSigmaPi]),
     Fill("tpcPr", [t.pt, t.tpcNSigmaPr]),
     Fill("tofPr", [t.pt, t.tofNSigmaPr]),
     Fill("distanceVsTrackpt", [distance, t.pt]),
     Fill("tpcDedx", [t.pt, t.tpcSignal, distance]),
     Fill("tofBeta", [t.pt, t.beta, distance]),
     Fill("tpcTofPi", [t.tpcNSigmaPi, t.tofNSigmaPi, t.pt, distance]),
     Fill("tpcTofPr", [t.tpcNSigmaPr, t.tofNSigmaPr, t.pt, distance])]
  }

  function ProductionTracksFills(cfg: JetConfig, radial: (real, real) -> real, jet: Jet, tracks: seq<JetTrack>): seq<Fill>
    decreases |tracks|
  {
    if tracks == [] then []
    else
      var t := tracks[|tracks| - 1];
      ProductionTracksFills(cfg, radial, jet, tracks[..|tracks| - 1]) +
      (if ProductionTrackSelected(cfg, t) then ProductionTrackFills(t, TrackDistances(radial, t, jet).axis) else [])
  }

  function ProductionJetsFills(cfg: JetConfig, radial: (real, real) -> real, tracks: seq<JetTrack>, jets: seq<Jet>): seq<Fill>
    decreases |jets|
  {
    if jets == [] then []
    else
      var jet := jets[|jets| - 1];
      ProductionJetsFills(cfg, radial, tracks, jets[..|jets| - 1]) +
      (if JetAccepted(cfg, jet) then ProductionTracksFills(cfg, radial, jet, tracks) else [])
  }

  /** All fills of one call of the production-ratio process. */
  function ProductionRatioFills(cfg: JetConfig, radial: (real, real) -> real, coll: JetCollision,
                                tracks: seq<JetTrack>, jets: seq<Jet>): seq<Fill>
  {
    if !coll.eventSelected then []
    else [Fill("event/vertexz", [coll.posZ])] + ProductionJetsFills(cfg, radial, tracks, jets)
  }

  function SelectedTrackCount(cfg: JetConfig, tracks: seq<JetTrack>): nat
    decreases |tracks|
  {
    if tracks == [] then 0
    else SelectedTrackCount(cfg, tracks[..|tracks| - 1]) + (if ProductionTrackSelected(cfg, tracks[|tracks| - 1]) then 1 else 0)
  }

  function AcceptedJetCount(cfg: JetConfig, jets: seq<Jet>): nat
    decreases |jets|
  {
    if jets == [] then 0
    else AcceptedJetCount(cfg, jets[..|jets| - 1]) + (if JetAccepted(cfg, jets[|jets| - 1]) then 1 else 0)
  }

  lemma TrackFillsHoldOneMass(t: JetTrack, distance: real)
    ensures CountNamed(ProductionTrackFills(t, distance), "tofMass") == 1
  {
    var fs := ProductionTrackFills(t, distance);
    assert fs == [fs[0]] + fs[1..];
    CountNamedSingle(fs[0], "tofMass");
    CountNamedAppend([fs[0]], fs[1..], "tofMass");
  }

  lemma {:induction false} ProductionTracksMassCount(cfg: JetConfig, radial: (real, real) -> real, jet: Jet, tracks: seq<JetTrack>)
    ensures CountNamed(ProductionTracksFills(cfg, radial, jet, tracks), "tofMass") == SelectedTrackCount(cfg, tracks)
    decreases |tracks|
  {
    if tracks != [] {
      var init := tracks[..|tracks| - 1];
      var t := tracks[|tracks| - 1];
      ProductionTracksMassCount(cfg, radial, jet, init);
      var block := if ProductionTrackSelected(cfg, t) then ProductionTrackFills(t, TrackDistances(radial, t, jet).axis) else [];
      CountNamedAppend(ProductionTracksFills(cfg, radial, jet, init), block, "tofMass");
      if ProductionTrackSelected(cfg, t) {
        TrackFillsHoldOneMass(t, TrackDistances(radial, t, jet).axis);
      }
    }
  }

  /**
   * The production-ratio process records one PID entry per pair of an
   * accepted jet and a selected track, and none for a rejected collision.
   */
  lemma {:induction false} ProductionMassCount(cfg: JetConfig, radial: (real, real) -> real, coll: JetCollision,
                                               tracks: seq<JetTrack>, jets: seq<Jet>)
    ensures CountNamed(ProductionRatioFills(cfg, radial, coll, tracks, jets), "tofMass") ==
      if coll.eventSelected then AcceptedJetCount(cfg, jets) * SelectedTrackCount(cfg, tracks) else 0
  {
    if coll.eventSelected {
      ProductionJetsMassCount(cfg, radial, tracks, jets);
      CountNamedSingle(Fill("event/vertexz", [coll.posZ]), "tofMass");
      CountNamedAppend([Fill("event/vertexz", [coll.posZ])], ProductionJetsFills(cfg, radial, tracks, jets), "tofMass");
    }
  }

  lemma {:induction false} ProductionJetsMassCount(cfg: JetConfig, radial: (real, real) -> real, tracks: seq<JetTrack>, jets: seq<Jet>)
    ensures CountNamed(ProductionJetsFills(cfg, radial, tracks, jets), "tofMass") ==
      AcceptedJetCount(cfg, jets) * SelectedTrackCount(cfg, tracks)
    decreases |jets|
  {
    if jets != [] {
      var init := jets[..|jets| - 1];
      var jet := jets[|jets| - 1];
      ProductionJetsMassCount(cfg, radial, tracks, init);
      var prev := ProductionJetsFills(cfg, radial, tracks, init);
      if JetAccepted(cfg, jet) {
        var block := ProductionTracksFills(cfg, radial, jet, tracks);
        assert ProductionJetsFills(cfg, radial, tracks, jets) == prev + block;
        CountNamedAppend(prev, block, "tofMass");
        ProductionTracksMassCount(cfg, radial, jet, tracks);
        MulSucc(AcceptedJetCount(cfg, init), SelectedTrackCount(cfg, tracks));
      } else {
        assert ProductionJetsFills(cfg, radial, tracks, jets) == prev + [];
        CountNamedAppend(prev, [], "tofMass");
      }
    }
  }

  lemma MulSucc(a: nat, s: nat)
    ensures (a + 1) * s == a * s + s
  {
  }

  // ---------------------------------------------------------------- the task

  /** The analysis task; `radial` computes a distance from (deltaEta, deltaPhi). */
  class JetShapeTask {
    const cfg: JetConfig
    const radial: (real, real) -> real
    var registry: seq<Fill>

    constructor (cfg: JetConfig, radial: (real, real) -> real)
      ensures this.cfg == cfg && this.radial == radial && registry == []
    {
      this.cfg := cfg;
      this.radial := radial;
      registry := [];
    }

    /** The jet-shape process of one collision. */
    method ProcessJetShape(coll: JetCollision, tracks: seq<JetTrack>, jets: seq<Jet>)
      requires |cfg.distanceCategory| >= 1
      modifies this
      ensures registry == old(registry) + JetShapeRun(cfg, radial, coll, tracks, jets).fills
    {
      var cats := cfg.distanceCategory;
      var density := ZeroDensities(cats);
      for j := 0 to |jets|
        invariant density == JetShapeRun(cfg, radial, coll, tracks, jets[..j]).densities
        invariant registry == old(registry) + JetShapeRun(cfg, radial, coll, tracks, jets[..j]).fills
      {
        var jet := jets[j];
        ghost var prev := JetShapeRun(cfg, radial, coll, tracks, jets[..j]);
        assert JetShapeRun(cfg, radial, coll, tracks, jets[..j + 1]) == JetShapeStep(cfg, radial, coll, tracks, prev, jet) by {
          assert jets[..j + 1][..j] == jets[..j];
        }
        var accepted := IsAcceptedJet(cfg, jet);
        if !accepted {
          continue;
        }
        density := ProcessAcceptedJet(coll, tracks, jet, density);
      }
      assert jets[..|jets|] == jets;
    }

    /**
     * The body of the jet loop for an accepted jet: the track loop, which
     * adds to the collision's densities, then the summary and jet-shape fills.
     */
    method ProcessAcceptedJet(coll: JetCollision, tracks: seq<JetTrack>, jet: Jet, density0: Densities)
      returns (density: Densities)
      requires Shaped(cfg.distanceCategory, density0)
      modifies this
      ensures density == TracksUpdate(cfg.distanceCategory, radial, jet, CorrectedPt(jet, coll), density0, tracks)
      ensures registry == old(registry) + AcceptedJetShapeFills(cfg.distanceCategory, radial, coll, jet, tracks, density)
    {
      density := AccumulateTracks(coll, tracks, jet, density0);
      registry := registry + JetSummaryFills(coll, jet);
      FillJetShape(density);
    }

    /** The track loop of an accepted jet. */
    method AccumulateTracks(coll: JetCollision, tracks: seq<JetTrack>, jet: Jet, density0: Densities)
      returns (density: Densities)
      requires Shaped(cfg.distanceCategory, density0)
      modifies this
      ensures density == TracksUpdate(cfg.distanceCategory, radial, jet, CorrectedPt(jet, coll), density0, tracks)
      ensures registry == old(registry) + TracksShapeFills(radial, coll, jet, tracks)
    {
      var cats := cfg.distanceCategory;
      var ptCorr := CorrectedPt(jet, coll);
      density := density0;
      for t := 0 to |tracks|
        invariant Shaped(cats, density)
        invariant density == TracksUpdate(cats, radial, jet, ptCorr, density0, tracks[..t])
        invariant registry == old(registry) + TracksShapeFills(radial, coll, jet, tracks[..t])
      {
        assert tracks[..t + 1][..t] == tracks[..t];
        var track := tracks[t];
        var ds := TrackDistances(radial, track, jet);
        registry := registry + [Fill("ptCorrVsDistance", [ds.axis, ptCorr])];
        registry := registry + [Fill("ptVsCentrality", [coll.centrality, track.pt])];
        var sum, sumBg1, sumBg2 := TrackPtSums(cats, ds, track.pt);
        ghost var before := density;
        density := AddDensities(cats, density, Densities(sum, sumBg1, sumBg2), ptCorr);
        assert density == TrackUpdate(cats, before, ds, track.pt, ptCorr);
      }
      assert tracks[..|tracks|] == tracks;
    }

    /** The jet-shape fills of an accepted jet, three per bin, read from the densities. */
    method FillJetShape(density: Densities)
      requires Shaped(cfg.distanceCategory, density)
      modifies this
      ensures registry == old(registry) + ShapeFills(cfg.distanceCategory, density, |cfg.distanceCategory| - 1)
    {
      var cats := cfg.distanceCategory;
      for i := 0 to |cats| - 1
        invariant registry == old(registry) + ShapeFills(cats, density, i)
      {
        var jetX := JetX(cats, i);
        registry := registry + [Fill("ptSum", [jetX, density.axis[i]])];
        registry := registry + [Fill("ptSumBg1", [jetX, density.bg1[i]])];
        registry := registry + [Fill("ptSumBg2", [jetX, density.bg2[i]])];
      }
    }

    /** The production-ratio process of one collision. */
    method ProcessProductionRatio(coll: JetCollision, tracks: seq<JetTrack>, jets: seq<Jet>)
      modifies this
      ensures registry == old(registry) + ProductionRatioFills(cfg, radial, coll, tracks, jets)
    {
      if !coll.eventSelected {
        return;
      }
      registry := registry + [Fill("event/vertexz", [coll.posZ])];
      for j := 0 to |jets|
        invariant registry == old(registry) + [Fill("event/vertexz", [coll.posZ])] +
          ProductionJetsFills(cfg, radial, tracks, jets[..j])
      {
        assert jets[..j + 1][..j] == jets[..j];
        var jet := jets[j];
        var accepted := IsAcceptedJet(cfg, jet);
        if !accepted {
          continue;
        }
        ProcessProductionJet(jet, tracks);
      }
      assert jets[..|jets|] == jets;
    }

    /** The track loop of the production-ratio process for one accepted jet. */
    method ProcessProductionJet(jet: Jet, tracks: seq<JetTrack>)
      modifies this
      ensures registry == old(registry) + ProductionTracksFills(cfg, radial, jet, tracks)
    {
      for k := 0 to |tracks|
        invariant registry == old(registry) + ProductionTracksFills(cfg, radial, jet, tracks[..k])
      {
        assert tracks[..k + 1][..k] == tracks[..k];
        FillProductionTrack(jet, tracks[k]);
      }
      assert tracks[..|tracks|] == tracks;
    }

    /** One pass of that loop: the quality chain, then the PID and distance fills. */
    method FillProductionTrack(jet: Jet, track: JetTrack)
      modifies this
      ensures registry == old(registry) +
        if ProductionTrackSelected(cfg, track) then ProductionTrackFills(track, TrackDistances(radial, track, jet).axis) else []
    {
      if Abs(track.eta) > cfg.etaTrUp {
        assert !ProductionTrackSelected(cfg, track);
        return;
      }
      if (track.tpcNClsCrossedRows as real) < cfg.nclcrossTpcMin {
        assert !ProductionTrackSelected(cfg, track);
        return;
      }
      if Abs(track.dcaXY) > cfg.dcaxyMax {
        assert !ProductionTrackSelected(cfg, track);
        return;
      }
      if track.itsChi2NCl > cfg.chi2ItsMax {
        assert !ProductionTrackSelected(cfg, track);
        return;
      }
      if track.tpcChi2NCl > cfg.chi2TpcMax {
        assert !ProductionTrackSelected(cfg, track);
        return;
      }
      if (track.tpcNClsFound as real) < cfg.nclTpcMin {
        assert !ProductionTrackSelected(cfg, track);
        return;
      }
      if (track.itsNCls as real) < cfg.nclItsMin {
        assert !ProductionTrackSelected(cfg, track);
        return;
      }
      assert ProductionTrackSelected(cfg, track);
      registry := registry + [Fill("tofMass", [track.mass])];
      registry := registry + [Fill("tpcPi", [track.pt, track.tpcNSigmaPi])];
      registry := registry + [Fill("tofPi", [track.pt, track.tofNSigmaPi])];
      registry := registry + [Fill("tpcPr", [track.pt, track.tpcNSigmaPr])];
      registry := registry + [Fill("tofPr", [track.pt, track.tofNSigmaPr])];
      var distance := TrackDistances(radial, track, jet).axis;
      registry := registry + [Fill("distanceVsTrackpt", [distance, track.pt])];
      registry := registry + [Fill("tpcDedx", [track.pt, track.tpcSignal, distance])];
      registry := registry + [Fill("tofBeta", [track.pt, track.beta, distance])];
      registry := registry + [Fill("tpcTofPi", [track.tpcNSigmaPi, track.tofNSigmaPi, track.pt, distance])];
      registry := registry + [Fill("tpcTofPr", [track.tpcNSigmaPr, track.tofNSigmaPr, track.pt, distance])];
    }
  }
}
