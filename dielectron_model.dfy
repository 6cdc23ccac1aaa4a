/**
 * Pure part of the dielectron Monte-Carlo QA task: the light-flavour mother
 * search, the generator-level acceptance window, the centrality gate, and the
 * pair gate with its origin-bucket dispatch for reconstructed and generated
 * pairs.
 *
 * The dispatch does not touch any state: it returns the list of `Action`s the
 * task performs for a pair, in order -- a histogram fill, the track-info fill
 * of one leg under an electron-source label, or a diagnostic log line. The
 * task class (module DielectronTask) performs them.
 */
module DielectronModel {
  import opened Histograms

  // ---------------------------------------------------------------------
  // Monte-Carlo truth and the ancestry helpers
  // ---------------------------------------------------------------------

  /** A particle index returned by a mother search; -1 when there is none. */
  type MotherIndex = i: int | i >= -1

  /** The heavy-flavour pair type: -1 when none, otherwise an EM_HFeeType value. */
  type HfeeType = h: int | -1 <= h <= 4

  const CeCe: HfeeType := 0
  const BeBe: HfeeType := 1
  const BCeBCe: HfeeType := 2
  const BCeBeSameB: HfeeType := 3
  const BCeBeDiffB: HfeeType := 4

  /** One row of the Monte-Carlo particle table, with the columns the task reads. */
  datatype McParticle = McParticle(
    pdgCode: int,
    isPhysicalPrimary: bool,
    producedByGenerator: bool,
    daughtersIds: seq<int>,
    emmceventId: int,
    pt: real,
    eta: real,
    y: real)

  /**
   * The ancestry helpers, whose bodies are not part of this model:
   * `commonMother(p1, p2, pdg)` is the common-mother search for an e+e- pair
   * from a mother of the given PDG code, `isHF` the heavy-flavour pair
   * classifier, `isFromBeauty` the beauty-ancestor search,
   * `particleAt` the lookup of a particle by index, `firstMother` the lookup of
   * a particle's first mother, and the four hadron-species predicates.
   */
  datatype Ancestry = Ancestry(
    commonMother: (McParticle, McParticle, int) -> MotherIndex,
    isHF: (McParticle, McParticle) -> HfeeType,
    isFromBeauty: McParticle -> int,
    particleAt: nat -> McParticle,
    firstMother: McParticle -> McParticle,
    isCharmMeson: McParticle -> bool,
    isCharmBaryon: McParticle -> bool,
    isBeautyMeson: McParticle -> bool,
    isBeautyBaryon: McParticle -> bool)

  predicate PrimaryOrGenerator(p: McParticle)
  {
    p.isPhysicalPrimary || p.producedByGenerator
  }

  function IntAbs(x: int): nat
  {
    if x < 0 then -x else x
  }

  function Abs(x: real): real
  {
    if x < 0.0 then -x else x
  }

  // ---------------------------------------------------------------------
  // FindLF
  // ---------------------------------------------------------------------

  /** Mother PDG codes searched by FindLF, in the order of its candidate array. */
  const LfMotherPdgCodes: seq<int> :=
    [22, 111, 221, 331, 113, 223, 333, 443, 100443, 553, 100553, 200553, 300553]

  /** The largest element of a non-empty sequence (`std::max_element`). */
  function MaxElement(xs: seq<int>): (m: int)
    requires |xs| > 0
    ensures m in xs
    ensures forall k :: 0 <= k < |xs| ==> xs[k] <= m
  {
    if |xs| == 1 then xs[0]
    else
      var rest := MaxElement(xs[1..]);
      if xs[0] >= rest then xs[0] else rest
  }

  /** The thirteen candidate mother indices, one per entry of LfMotherPdgCodes. */
  function MotherCandidates(anc: Ancestry, p1: McParticle, p2: McParticle): (c: seq<int>)
    ensures |c| == |LfMotherPdgCodes|
    ensures forall i :: 0 <= i < |c| ==> c[i] == anc.commonMother(p1, p2, LfMotherPdgCodes[i])
  {
    seq(|LfMotherPdgCodes|, i requires 0 <= i < |LfMotherPdgCodes| => anc.commonMother(p1, p2, LfMotherPdgCodes[i]))
  }

  /**
   * The light-flavour (or quarkonium) common mother of two legs: the largest
   * of the candidate indices. It is one of the candidates, no candidate
   * exceeds it, and it is negative exactly when every search failed.
   */
  function FindLF(anc: Ancestry, p1: McParticle, p2: McParticle): (m: MotherIndex)
    ensures exists i :: 0 <= i < |LfMotherPdgCodes| && m == anc.commonMother(p1, p2, LfMotherPdgCodes[i])
    ensures forall i :: 0 <= i < |LfMotherPdgCodes| ==> anc.commonMother(p1, p2, LfMotherPdgCodes[i]) <= m
    ensures m < 0 <==> forall i :: 0 <= i < |LfMotherPdgCodes| ==> anc.commonMother(p1, p2, LfMotherPdgCodes[i]) < 0
  {
    var c := MotherCandidates(anc, p1, p2);
    var m := MaxElement(c);
    assert exists i :: 0 <= i < |c| && m == c[i];
    m
  }

  // ---------------------------------------------------------------------
  // Generator-level acceptance and the centrality gate
  // ---------------------------------------------------------------------

  datatype McTrackCuts = McTrackCuts(minPt: real, maxPt: real, minEta: real, maxEta: real)

  const DefaultMcTrackCuts := McTrackCuts(0.05, 10000000000.0, -0.9, 0.9)

  /** Generator-level single-leg acceptance: both windows are open. */
  predicate IsInAcceptance(cuts: McTrackCuts, p: McParticle)
  {
    (cuts.minPt < p.pt && p.pt < cuts.maxPt) && (cuts.minEta < p.eta && p.eta < cuts.maxEta)
  }

  datatype Collision = Collision(
    globalIndex: int,
    runNumber: int,
    timestamp: int,
    centFT0M: real,
    centFT0A: real,
    centFT0C: real)

  /** The task's configurables that the modelled logic reads. */
  datatype QcConfig = QcConfig(
    pidMl: bool,          // cfg_pid_scheme selects the ML electron identification
    centEstimator: int,   // 0 FT0M, 1 FT0A, 2 FT0C
    centMin: real,
    centMax: real,
    maxY: real,
    dBzInput: real,       // magnetic field override in kG; -999 means automatic
    mcCuts: McTrackCuts)

  const DefaultQcConfig := QcConfig(false, 2, 0.0, 999.0, 0.9, -999.0, DefaultMcTrackCuts)

  /** The centrality of the configured estimator. */
  function Centrality(coll: Collision, estimator: int): real
    requires 0 <= estimator < 3
  {
    [coll.centFT0M, coll.centFT0A, coll.centFT0C][estimator]
  }

  /** A collision is skipped when its centrality lies below the minimum or above the maximum. */
  predicate CentralitySelected(cfg: QcConfig, coll: Collision)
    requires 0 <= cfg.centEstimator < 3
  {
    var c := Centrality(coll, cfg.centEstimator);
    !(c < cfg.centMin || cfg.centMax < c)
  }

  // ---------------------------------------------------------------------
  // Reconstructed tracks, selections and pair kinematics
  // ---------------------------------------------------------------------

  /** A reconstructed electron candidate with its Monte-Carlo label resolved. */
  datatype Track = Track(globalIndex: int, sign: int, mc: McParticle)

  /** Beam energies, masses and momenta cached from the LHC interface object. */
  datatype Beams = Beams(e1: real, e2: real, m1: real, m2: real, p1: real, p2: real)

  const MassProton: real := 0.93827208816

  /** Beam parameters before the first condition lookup. */
  const InitialBeams := Beams(0.0, 0.0, MassProton, MassProton, 0.0, 0.0)

  /**
   * Kinematics of a pair, as the 4-vector and pair utilities compute them:
   * mass, transverse momentum and rapidity of the pair, azimuthal difference
   * of the legs, Collins-Soper angles, acoplanarity, pt asymmetry, azimuthal
   * difference of leg 1 and pair, 3D pair DCA and phiV.
   */
  datatype PairKinematics = PairKinematics(
    mass: real,
    pt: real,
    rapidity: real,
    dphi: real,
    cosThetaCS: real,
    phiCS: real,
    aco: real,
    asym: real,
    dphiEEe: real,
    dcaEE3d: real,
    phiv: real)

  /**
   * The selections defined outside the task (the dielectron track and pair
   * cuts, with the ML variant of the track cut, and the event cut), the
   * event-histogram utility (`eventInfo(stage, collision)`, stage 0 before and
   * 1 after the event cut) and the kinematics of reconstructed pairs (which
   * read the field and the beams) and of generated pairs.
   */
  datatype Analysis = Analysis(
    anc: Ancestry,
    trackSelected: Track -> bool,
    trackSelectedMl: (Track, Collision) -> bool,
    pairSelected: (Track, Track, real) -> bool,
    eventSelected: Collision -> bool,
    eventInfo: (int, Collision) -> seq<Fill>,
    recoKinematics: (Track, Track, real, Beams) -> PairKinematics,
    genKinematics: (McParticle, McParticle, Beams) -> PairKinematics)

  // ---------------------------------------------------------------------
  // Actions and histogram names
  // ---------------------------------------------------------------------

  /** Index into EleSourceTypes. */
  type SourceId = i: int | 0 <= i < 9

  const EleSourceTypes: seq<string> :=
    ["lf/", "Photon/", "PromptJPsi/", "NonPromptJPsi/", "PromptPsi2S/", "NonPromptPsi2S/", "c2e/", "b2e/", "b2c2e/"]

  const LfSource: SourceId := 0
  const PhotonSource: SourceId := 1
  const PromptJPsiSource: SourceId := 2
  const NonPromptJPsiSource: SourceId := 3
  const PromptPsi2SSource: SourceId := 4
  const NonPromptPsi2SSource: SourceId := 5
  const C2eSource: SourceId := 6
  const B2eSource: SourceId := 7
  const B2c2eSource: SourceId := 8

  datatype Leg = First | Second

  datatype Action = Hist(fill: Fill) | TrackInfo(source: SourceId, leg: Leg) | Log(message: string)

  datatype PairOutcome = Rejected | Accepted(actions: seq<Action>)

  /** Reconstructed pairs fill under "Pair/", generated pairs under "Generated/". */
  datatype Stage = Reco | Gen

  function Prefix(stage: Stage): string
  {
    if stage == Reco then "Pair/" else "Generated/"
  }

  /** The values of an "hs" fill; reconstructed pairs add the pair DCA. */
  function HsValues(stage: Stage, k: PairKinematics): seq<real>
  {
    [k.mass, k.pt, Abs(k.dphi), Abs(k.cosThetaCS), Abs(k.phiCS), k.aco, k.asym, Abs(k.dphiEEe)]
      + (if stage == Reco then [k.dcaEE3d] else [])
  }

  function Hs(stage: Stage, path: string, k: PairKinematics): Action
  {
    Hist(Fill(Prefix(stage) + path + "/hs", HsValues(stage, k)))
  }

  function MvsPhiV(path: string, k: PairKinematics): Action
  {
    Hist(Fill("Pair/" + path + "/hMvsPhiV", [k.phiv, k.mass]))
  }

  /** Track-info fills of both legs under one source label (reconstructed pairs only). */
  function LegsTo(stage: Stage, source: SourceId): seq<Action>
  {
    if stage == Reco then [TrackInfo(source, First), TrackInfo(source, Second)] else []
  }

  /** The fills of one same-mother bucket; reconstructed pairs add m vs phiV. */
  function SmHists(stage: Stage, name: string, k: PairKinematics): seq<Action>
  {
    if stage == Reco then [Hs(stage, "sm/" + name, k), MvsPhiV("sm/" + name, k)]
    else [Hs(stage, "sm/" + name, k)]
  }

  function SmBucket(stage: Stage, name: string, source: SourceId, k: PairKinematics): seq<Action>
  {
    SmHists(stage, name, k) + LegsTo(stage, source)
  }

  // ---------------------------------------------------------------------
  // Same-mother dispatch
  // ---------------------------------------------------------------------

  /** Buckets of a primary (or generator-produced) resonance mother, by |PDG code|. */
  function ResonanceActions(stage: Stage, anc: Ancestry, mother: McParticle, k: PairKinematics): seq<Action>
  {
    var pdg := IntAbs(mother.pdgCode);
    if pdg == 111 then SmBucket(stage, "Pi0", LfSource, k)
    else if pdg == 221 then SmBucket(stage, "Eta", LfSource, k)
    else if pdg == 331 then SmBucket(stage, "EtaPrime", LfSource, k)
    else if pdg == 113 then SmBucket(stage, "Rho", LfSource, k)
    else if pdg == 223 then
      SmBucket(stage, "Omega", LfSource, k)
        + (if |mother.daughtersIds| == 2 then SmHists(stage, "Omega2ee", k) else [])
    else if pdg == 333 then
      SmBucket(stage, "Phi", LfSource, k)
        + (if |mother.daughtersIds| == 2 then SmHists(stage, "Phi2ee", k) else [])
    else if pdg == 443 then
      if anc.isFromBeauty(mother) > 0 then SmBucket(stage, "NonPromptJPsi", NonPromptJPsiSource, k)
      else SmBucket(stage, "PromptJPsi", PromptJPsiSource, k)
    else if pdg == 100443 then
      if anc.isFromBeauty(mother) > 0 then SmBucket(stage, "NonPromptPsi2S", NonPromptPsi2SSource, k)
      else SmBucket(stage, "PromptPsi2S", PromptPsi2SSource, k)
    else []
  }

  /**
   * Reconstructed same-mother pairs: primary legs go to the resonance
   * buckets, two secondary legs of a photon to the conversion bucket, mixed
   * legs nowhere.
   */
  function RecoSameMother(anc: Ancestry, p1: McParticle, p2: McParticle, mother: McParticle, k: PairKinematics): seq<Action>
  {
    if !PrimaryOrGenerator(mother) then []
    else if PrimaryOrGenerator(p1) && PrimaryOrGenerator(p2) then ResonanceActions(Reco, anc, mother, k)
    else if !PrimaryOrGenerator(p1) && !PrimaryOrGenerator(p2) then
      if IntAbs(mother.pdgCode) == 22 then SmBucket(Reco, "Photon", PhotonSource, k) else []
    else []
  }

  // ---------------------------------------------------------------------
  // Heavy-flavour dispatch
  // ---------------------------------------------------------------------

  const Ccbar := "ccbar/"
  const Bbbar := "bbbar/"
  const CcbarCeCe := Ccbar + "c2e_c2e"
  const BbbarBeBe := Bbbar + "b2e_b2e"
  const BbbarBCeBCe := Bbbar + "b2c2e_b2c2e"
  const BbbarSameB := Bbbar + "b2c2e_b2e_sameb"
  const BbbarDiffB := Bbbar + "b2c2e_b2e_diffb"

  const HadronHadron := "hadron_hadron"
  const MesonMeson := "meson_meson"
  const BaryonBaryon := "baryon_baryon"
  const MesonBaryon := "meson_baryon"

  /** The species sub-bucket of a heavy-flavour family. */
  function SubBucket(mesonMeson: bool, baryonBaryon: bool): string
  {
    if mesonMeson then MesonMeson else if baryonBaryon then BaryonBaryon else MesonBaryon
  }

  function CharmSub(anc: Ancestry, mp1: McParticle, mp2: McParticle): string
  {
    SubBucket(anc.isCharmMeson(mp1) && anc.isCharmMeson(mp2), anc.isCharmBaryon(mp1) && anc.isCharmBaryon(mp2))
  }

  function BeautySub(anc: Ancestry, mp1: McParticle, mp2: McParticle): string
  {
    SubBucket(anc.isBeautyMeson(mp1) && anc.isBeautyMeson(mp2), anc.isBeautyBaryon(mp1) && anc.isBeautyBaryon(mp2))
  }

  function MixedSub(anc: Ancestry, mp1: McParticle, mp2: McParticle): string
  {
    SubBucket(
      (anc.isCharmMeson(mp1) && anc.isBeautyMeson(mp2)) || (anc.isCharmMeson(mp2) && anc.isBeautyMeson(mp1)),
      (anc.isCharmBaryon(mp1) && anc.isBeautyBaryon(mp2)) || (anc.isCharmBaryon(mp2) && anc.isBeautyBaryon(mp1)))
  }

  /** A heavy-flavour family fills its hadron_hadron bucket, then one species sub-bucket. */
  function FamilyHists(stage: Stage, family: string, sub: string, k: PairKinematics): seq<Action>
  {
    [Hs(stage, family + "/" + HadronHadron, k), Hs(stage, family + "/" + sub, k)]
  }

  predicate IsCharmHadron(anc: Ancestry, p: McParticle)
  {
    anc.isCharmMeson(p) || anc.isCharmBaryon(p)
  }

  predicate IsBeautyHadron(anc: Ancestry, p: McParticle)
  {
    anc.isBeautyMeson(p) || anc.isBeautyBaryon(p)
  }

  /**
   * Source labels of the legs of a b->c->e / b->e pair AS WRITTEN: the leg
   * whose first mother is a charm hadron is labelled b2e.
   */
  function MixedLegSourcesAsWritten(anc: Ancestry, mp1: McParticle, mp2: McParticle): seq<Action>
  {
    if IsCharmHadron(anc, mp1) && IsBeautyHadron(anc, mp2) then [TrackInfo(B2eSource, First), TrackInfo(B2c2eSource, Second)]
    else [TrackInfo(B2c2eSource, First), TrackInfo(B2eSource, Second)]
  }

  /**
   * Source labels of the legs of a b->c->e / b->e pair, corrected: the leg
   * from a charm hadron is b2c2e, the leg from a beauty hadron b2e.
   */
  function MixedLegSources(anc: Ancestry, mp1: McParticle, mp2: McParticle): seq<Action>
  {
    if IsCharmHadron(anc, mp1) && IsBeautyHadron(anc, mp2) then [TrackInfo(B2c2eSource, First), TrackInfo(B2eSource, Second)]
    else [TrackInfo(B2eSource, First), TrackInfo(B2c2eSource, Second)]
  }

  /**
   * Which program the heavy-flavour dispatch follows: the task as written,
   * which the process methods run, or the task with its two slips corrected
   * (the mixed-leg labels and the generated b->c->e b->c->e sub-bucket).
   */
  datatype Variant = AsWritten | Intended

  function MixedLegs(v: Variant, stage: Stage, anc: Ancestry, mp1: McParticle, mp2: McParticle): seq<Action>
  {
    if stage == Gen then []
    else if v == AsWritten then MixedLegSourcesAsWritten(anc, mp1, mp2)
    else MixedLegSources(anc, mp1, mp2)
  }

  /**
   * The generated b->c->e b->c->e fills AS WRITTEN: the species sub-bucket is
   * taken from the b->e b->e family.
   */
  function GenBCeBCeAsWritten(anc: Ancestry, mp1: McParticle, mp2: McParticle, k: PairKinematics): seq<Action>
  {
    [Hs(Gen, BbbarBCeBCe + "/" + HadronHadron, k), Hs(Gen, BbbarBeBe + "/" + CharmSub(anc, mp1, mp2), k)]
  }

  function NotExpected(hfee: string, signs: string): Action
  {
    Log("You should not see " + hfee + " in " + signs + ". Good luck.")
  }

  /** Unlike-sign heavy-flavour pairs, by type; a different-b pair only logs. */
  function UlsHfActions(v: Variant, stage: Stage, anc: Ancestry, mp1: McParticle, mp2: McParticle, hfee: HfeeType, k: PairKinematics): seq<Action>
  {
    if hfee == CeCe then FamilyHists(stage, CcbarCeCe, CharmSub(anc, mp1, mp2), k) + LegsTo(stage, C2eSource)
    else if hfee == BeBe then FamilyHists(stage, BbbarBeBe, BeautySub(anc, mp1, mp2), k) + LegsTo(stage, B2eSource)
    else if hfee == BCeBCe then
      if v == AsWritten && stage == Gen then GenBCeBCeAsWritten(anc, mp1, mp2, k)
      else FamilyHists(stage, BbbarBCeBCe, CharmSub(anc, mp1, mp2), k) + LegsTo(stage, B2c2eSource)
    else if hfee == BCeBeSameB then FamilyHists(stage, BbbarSameB, MixedSub(anc, mp1, mp2), k) + MixedLegs(v, stage, anc, mp1, mp2)
    else if hfee == BCeBeDiffB then [NotExpected("kBCe_Be_DiffB", "ULS")]
    else []
  }

  /** Like-sign heavy-flavour pairs, by type; only a different-b pair fills. */
  function LsHfActions(v: Variant, stage: Stage, anc: Ancestry, mp1: McParticle, mp2: McParticle, hfee: HfeeType, k: PairKinematics, signs: string): seq<Action>
  {
    if hfee == CeCe then [NotExpected("kCe_Ce", signs)]
    else if hfee == BeBe then [NotExpected("kBe_Be", signs)]
    else if hfee == BCeBCe then [NotExpected("kBCe_BCe", signs)]
    else if hfee == BCeBeSameB then [NotExpected("kBCe_Be_SameB", signs)]
    else if hfee == BCeBeDiffB then FamilyHists(stage, BbbarDiffB, MixedSub(anc, mp1, mp2), k) + MixedLegs(v, stage, anc, mp1, mp2)
    else []
  }

  /** Reconstructed heavy-flavour pairs need two primary (or generator-produced) legs. */
  function RecoHeavyFlavour(anc: Ancestry, p1: McParticle, p2: McParticle, hfee: HfeeType, k: PairKinematics): seq<Action>
  {
    if !(PrimaryOrGenerator(p1) && PrimaryOrGenerator(p2)) then []
    else
      var mp1 := anc.firstMother(p1);
      var mp2 := anc.firstMother(p2);
      if p1.pdgCode * p2.pdgCode < 0 then UlsHfActions(AsWritten, Reco, anc, mp1, mp2, hfee, k)
      else LsHfActions(AsWritten, Reco, anc, mp1, mp2, hfee, k, "LS")
  }

  // ---------------------------------------------------------------------
  // The reconstructed pair gate
  // ---------------------------------------------------------------------

  /** Both legs pass the track selection of the configured identification scheme. */
  predicate LegsSelected(cfg: QcConfig, ana: Analysis, coll: Collision, t1: Track, t2: Track)
  {
    if cfg.pidMl then ana.trackSelectedMl(t1, coll) && ana.trackSelectedMl(t2, coll)
    else ana.trackSelected(t1) && ana.trackSelected(t2)
  }

  /**
   * Every condition under which a reconstructed pair reaches the dispatch:
   * selected legs and pair, two true electrons of the same Monte-Carlo event,
   * a light-flavour mother or a heavy-flavour type, and |y| within maxY.
   */
  predicate RecoPairPasses(cfg: QcConfig, ana: Analysis, dBz: real, beams: Beams, coll: Collision, t1: Track, t2: Track)
  {
    && LegsSelected(cfg, ana, coll, t1, t2)
    && ana.pairSelected(t1, t2, dBz)
    && IntAbs(t1.mc.pdgCode) == 11 && IntAbs(t2.mc.pdgCode) == 11
    && t1.mc.emmceventId == t2.mc.emmceventId
    && (FindLF(ana.anc, t1.mc, t2.mc) >= 0 || ana.anc.isHF(t1.mc, t2.mc) >= 0)
    && Abs(ana.recoKinematics(t1, t2, dBz, beams).rapidity) <= cfg.maxY
  }

  /**
   * The true-pair filler: a chain of early rejections, then the dispatch. A
   * light-flavour mother takes precedence for unlike-sign truth only;
   * otherwise a heavy-flavour type is dispatched.
   */
  function TruePairInfo(cfg: QcConfig, ana: Analysis, dBz: real, beams: Beams, coll: Collision, t1: Track, t2: Track): (r: PairOutcome)
    ensures r.Accepted? <==> RecoPairPasses(cfg, ana, dBz, beams, coll, t1, t2)
  {
    if !LegsSelected(cfg, ana, coll, t1, t2) then Rejected
    else if !ana.pairSelected(t1, t2, dBz) then Rejected
    else if IntAbs(t1.mc.pdgCode) != 11 || IntAbs(t2.mc.pdgCode) != 11 then Rejected
    else if t1.mc.emmceventId != t2.mc.emmceventId then Rejected
    else
      var motherId := FindLF(ana.anc, t1.mc, t2.mc);
      var hfee := ana.anc.isHF(t1.mc, t2.mc);
      if motherId < 0 && hfee < 0 then Rejected
      else
        var k := ana.recoKinematics(t1, t2, dBz, beams);
        if Abs(k.rapidity) > cfg.maxY then Rejected
        else if motherId > -1 && t1.mc.pdgCode * t2.mc.pdgCode < 0 then
          Accepted(RecoSameMother(ana.anc, t1.mc, t2.mc, ana.anc.particleAt(motherId), k))
        else if hfee > -1 then
          Accepted(RecoHeavyFlavour(ana.anc, t1.mc, t2.mc, hfee, k))
        else Accepted([])
  }

  // ---------------------------------------------------------------------
  // Generated pairs and the omega/phi efficiency spectra
  // ---------------------------------------------------------------------

  /** Generated legs must be accepted and primary (or generator-produced). */
  predicate GenLegsPass(cfg: QcConfig, p1: McParticle, p2: McParticle)
  {
    IsInAcceptance(cfg.mcCuts, p1) && IsInAcceptance(cfg.mcCuts, p2)
    && PrimaryOrGenerator(p1) && PrimaryOrGenerator(p2)
  }

  /** A generated e+e- pair: same-mother buckets first, otherwise heavy flavour. */
  function GenUlsPair(cfg: QcConfig, ana: Analysis, beams: Beams, p1: McParticle, p2: McParticle): PairOutcome
  {
    if !IsInAcceptance(cfg.mcCuts, p1) || !IsInAcceptance(cfg.mcCuts, p2) then Rejected
    else if !PrimaryOrGenerator(p1) then Rejected
    else if !PrimaryOrGenerator(p2) then Rejected
    else
      var motherId := FindLF(ana.anc, p1, p2);
      var hfee := ana.anc.isHF(p1, p2);
      if motherId < 0 && hfee < 0 then Rejected
      else
        var k := ana.genKinematics(p1, p2, beams);
        if Abs(k.rapidity) > cfg.maxY then Rejected
        else if motherId > -1 then
          var mother := ana.anc.particleAt(motherId);
          Accepted(if PrimaryOrGenerator(mother) then ResonanceActions(Gen, ana.anc, mother, k) else [])
        else if hfee > -1 then
          Accepted(UlsHfActions(AsWritten, Gen, ana.anc, ana.anc.firstMother(p1), ana.anc.firstMother(p2), hfee, k))
        else Accepted([])
  }

  /** A generated like-sign pair (`signs` is "LS++" or "LS--"): heavy flavour only. */
  function GenLsPair(cfg: QcConfig, ana: Analysis, beams: Beams, p1: McParticle, p2: McParticle, signs: string): PairOutcome
  {
    if !IsInAcceptance(cfg.mcCuts, p1) || !IsInAcceptance(cfg.mcCuts, p2) then Rejected
    else if !PrimaryOrGenerator(p1) then Rejected
    else if !PrimaryOrGenerator(p2) then Rejected
    else
      var hfee := ana.anc.isHF(p1, p2);
      if hfee < 0 then Rejected
      else
        var k := ana.genKinematics(p1, p2, beams);
        if Abs(k.rapidity) > cfg.maxY then Rejected
        else Accepted(LsHfActions(AsWritten, Gen, ana.anc, ana.anc.firstMother(p1), ana.anc.firstMother(p2), hfee, k, signs))
  }

  /** pt and y spectra of primary omega and phi mesons within |y| <= maxY. */
  function EfficiencyFills(cfg: QcConfig, p: McParticle): seq<Fill>
  {
    if !PrimaryOrGenerator(p) || Abs(p.y) > cfg.maxY then []
    else if IntAbs(p.pdgCode) == 223 then [Fill("Generated/sm/Omega2ee/hPt", [p.pt]), Fill("Generated/sm/Omega2ee/hY", [p.y])]
    else if IntAbs(p.pdgCode) == 333 then [Fill("Generated/sm/Phi2ee/hPt", [p.pt]), Fill("Generated/sm/Phi2ee/hY", [p.y])]
    else []
  }

  function OutcomeActions(o: PairOutcome): seq<Action>
  {
    if o.Accepted? then o.actions else []
  }

  /** The histogram fills among a list of actions, in order. */
  function HistFills(acts: seq<Action>): (fills: seq<Fill>)
    ensures |fills| <= |acts|
  {
    if acts == [] then []
    else HistFills(acts[..|acts| - 1]) + (if acts[|acts| - 1].Hist? then [acts[|acts| - 1].fill] else [])
  }

  /** The log lines among a list of actions, in order. */
  function LogLines(acts: seq<Action>): (lines: seq<string>)
    ensures |lines| <= |acts|
  {
    if acts == [] then []
    else LogLines(acts[..|acts| - 1]) + (if acts[|acts| - 1].Log? then [acts[|acts| - 1].message] else [])
  }

  // ---------------------------------------------------------------------
  // Properties of the gates
  // ---------------------------------------------------------------------

  /** The centrality window is closed at both ends. */
  lemma CentralityClosedWindow(cfg: QcConfig, coll: Collision)
    requires 0 <= cfg.centEstimator < 3
    ensures CentralitySelected(cfg, coll)
        <==> cfg.centMin <= Centrality(coll, cfg.centEstimator) <= cfg.centMax
  {
  }

  /** Both acceptance windows are open: a particle on any edge is rejected. */
  lemma AcceptanceEdgesRejected(cuts: McTrackCuts, p: McParticle)
    requires p.pt == cuts.minPt || p.pt == cuts.maxPt || p.eta == cuts.minEta || p.eta == cuts.maxEta
    ensures !IsInAcceptance(cuts, p)
  {
  }

  /** With the default cuts, acceptance is 0.05 < pt < 1e10 and |eta| < 0.9. */
  lemma DefaultAcceptance(p: McParticle)
    ensures IsInAcceptance(DefaultMcTrackCuts, p) <==> 0.05 < p.pt < 10000000000.0 && Abs(p.eta) < 0.9
  {
  }

  /** A pair exactly at the rapidity bound is kept: the cut is |y| > maxY. */
  lemma RapidityBoundKept(cfg: QcConfig, ana: Analysis, dBz: real, beams: Beams, coll: Collision, t1: Track, t2: Track)
    requires LegsSelected(cfg, ana, coll, t1, t2) && ana.pairSelected(t1, t2, dBz)
    requires IntAbs(t1.mc.pdgCode) == 11 && IntAbs(t2.mc.pdgCode) == 11
    requires t1.mc.emmceventId == t2.mc.emmceventId
    requires FindLF(ana.anc, t1.mc, t2.mc) >= 0 || ana.anc.isHF(t1.mc, t2.mc) >= 0
    requires Abs(ana.recoKinematics(t1, t2, dBz, beams).rapidity) == cfg.maxY
    ensures TruePairInfo(cfg, ana, dBz, beams, coll, t1, t2).Accepted?
  {
  }

  // ---------------------------------------------------------------------
  // Properties of the dispatch
  // ---------------------------------------------------------------------

  /** An action of the same-mother branch: a fill under "Pair/sm/" or a track label lf..NonPromptPsi2S. */
  predicate SameMotherAction(a: Action)
  {
    match a
    case Hist(f) => "Pair/sm/" <= f.name
    case TrackInfo(source, _) => source <= NonPromptPsi2SSource
    case Log(_) => false
  }

  /** An action of the heavy-flavour branch: a fill under ccbar or bbbar, a track label c2e..b2c2e, or a log. */
  predicate HeavyFlavourAction(a: Action)
  {
    match a
    case Hist(f) => "Pair/" + Ccbar <= f.name || "Pair/" + Bbbar <= f.name
    case TrackInfo(source, _) => source >= C2eSource
    case Log(_) => true
  }

  lemma PrefixOfConcat(a: string, b: string, c: string)
    ensures a <= a + b + c
  {
    assert (a + b + c)[..|a|] == a;
  }

  lemma SmBucketSameMother(name: string, source: SourceId, k: PairKinematics)
    requires source <= NonPromptPsi2SSource
    ensures forall a :: a in SmBucket(Reco, name, source, k) ==> SameMotherAction(a)
  {
    assert "Pair/" + ("sm/" + name) + "/hs" == "Pair/sm/" + name + "/hs";
    assert "Pair/" + ("sm/" + name) + "/hMvsPhiV" == "Pair/sm/" + name + "/hMvsPhiV";
    PrefixOfConcat("Pair/sm/", name, "/hs");
    PrefixOfConcat("Pair/sm/", name, "/hMvsPhiV");
  }

  lemma SmHistsSameMother(name: string, k: PairKinematics)
    ensures forall a :: a in SmHists(Reco, name, k) ==> SameMotherAction(a)
  {
    SmBucketSameMother(name, LfSource, k);
    assert SmHists(Reco, name, k) <= SmBucket(Reco, name, LfSource, k);
  }

  lemma RecoSameMotherActions(anc: Ancestry, p1: McParticle, p2: McParticle, mother: McParticle, k: PairKinematics)
    ensures forall a :: a in RecoSameMother(anc, p1, p2, mother, k) ==> SameMotherAction(a)
  {
    if PrimaryOrGenerator(mother) && PrimaryOrGenerator(p1) && PrimaryOrGenerator(p2) {
      var pdg := IntAbs(mother.pdgCode);
      if pdg == 111 { SmBucketSameMother("Pi0", LfSource, k); }
      else if pdg == 221 { SmBucketSameMother("Eta", LfSource, k); }
      else if pdg == 331 { SmBucketSameMother("EtaPrime", LfSource, k); }
      else if pdg == 113 { SmBucketSameMother("Rho", LfSource, k); }
      else if pdg == 223 { SmBucketSameMother("Omega", LfSource, k); SmHistsSameMother("Omega2ee", k); }
      else if pdg == 333 { SmBucketSameMother("Phi", LfSource, k); SmHistsSameMother("Phi2ee", k); }
      else if pdg == 443 {
        SmBucketSameMother("NonPromptJPsi", NonPromptJPsiSource, k);
        SmBucketSameMother("PromptJPsi", PromptJPsiSource, k);
      } else if pdg == 100443 {
        SmBucketSameMother("NonPromptPsi2S", NonPromptPsi2SSource, k);
        SmBucketSameMother("PromptPsi2S", PromptPsi2SSource, k);
      }
    } else if PrimaryOrGenerator(mother) && !PrimaryOrGenerator(p1) && !PrimaryOrGenerator(p2) {
      SmBucketSameMother("Photon", PhotonSource, k);
    }
  }

  lemma FamilyHistsUnder(top: string, rest: string, sub: string, k: PairKinematics)
    ensures forall a :: a in FamilyHists(Reco, top + rest, sub, k) ==> a.Hist? && "Pair/" + top <= a.fill.name
  {
    assert "Pair/" + (top + rest + "/" + HadronHadron) + "/hs" == ("Pair/" + top) + (rest + "/" + HadronHadron) + "/hs";
    assert "Pair/" + (top + rest + "/" + sub) + "/hs" == ("Pair/" + top) + (rest + "/" + sub) + "/hs";
    PrefixOfConcat("Pair/" + top, rest + "/" + HadronHadron, "/hs");
    PrefixOfConcat("Pair/" + top, rest + "/" + sub, "/hs");
  }

  lemma RecoHeavyFlavourActions(anc: Ancestry, p1: McParticle, p2: McParticle, hfee: HfeeType, k: PairKinematics)
    ensures forall a :: a in RecoHeavyFlavour(anc, p1, p2, hfee, k) ==> HeavyFlavourAction(a)
  {
    if PrimaryOrGenerator(p1) && PrimaryOrGenerator(p2) {
      var mp1, mp2 := anc.firstMother(p1), anc.firstMother(p2);
      if p1.pdgCode * p2.pdgCode < 0 {
        UlsHeavyFlavourActions(anc, mp1, mp2, hfee, k);
      } else if hfee == BCeBeDiffB {
        FamilyHistsUnder(Bbbar, "b2c2e_b2e_diffb", MixedSub(anc, mp1, mp2), k);
      }
    }
  }

  lemma UlsHeavyFlavourActions(anc: Ancestry, mp1: McParticle, mp2: McParticle, hfee: HfeeType, k: PairKinematics)
    ensures forall a :: a in UlsHfActions(AsWritten, Reco, anc, mp1, mp2, hfee, k) ==> HeavyFlavourAction(a)
  {
    if hfee == CeCe {
      FamilyHistsUnder(Ccbar, "c2e_c2e", CharmSub(anc, mp1, mp2), k);
    } else if hfee == BeBe {
      FamilyHistsUnder(Bbbar, "b2e_b2e", BeautySub(anc, mp1, mp2), k);
    } else if hfee == BCeBCe {
      FamilyHistsUnder(Bbbar, "b2c2e_b2c2e", CharmSub(anc, mp1, mp2), k);
    } else if hfee == BCeBeSameB {
      FamilyHistsUnder(Bbbar, "b2c2e_b2e_sameb", MixedSub(anc, mp1, mp2), k);
    }
  }

  /**
   * Resonance precedence: with a light-flavour mother and unlike-sign truth
   * every action belongs to the same-mother buckets; in every other accepted
   * case every action belongs to the heavy-flavour buckets (or is a log line).
   */
  lemma ResonancePrecedence(cfg: QcConfig, ana: Analysis, dBz: real, beams: Beams, coll: Collision, t1: Track, t2: Track)
    requires TruePairInfo(cfg, ana, dBz, beams, coll, t1, t2).Accepted?
    ensures var acts := TruePairInfo(cfg, ana, dBz, beams, coll, t1, t2).actions;
      if FindLF(ana.anc, t1.mc, t2.mc) > -1 && t1.mc.pdgCode * t2.mc.pdgCode < 0
      then forall a :: a in acts ==> SameMotherAction(a)
      else forall a :: a in acts ==> HeavyFlavourAction(a)
  {
    var motherId := FindLF(ana.anc, t1.mc, t2.mc);
    var k := ana.recoKinematics(t1, t2, dBz, beams);
    if motherId > -1 && t1.mc.pdgCode * t2.mc.pdgCode < 0 {
      RecoSameMotherActions(ana.anc, t1.mc, t2.mc, ana.anc.particleAt(motherId), k);
    } else {
      RecoHeavyFlavourActions(ana.anc, t1.mc, t2.mc, ana.anc.isHF(t1.mc, t2.mc), k);
    }
  }

  /** Nothing but at most one log line. */
  predicate OnlyLogs(acts: seq<Action>)
  {
    |acts| <= 1 && forall i :: 0 <= i < |acts| ==> acts[i].Log?
  }

  /**
   * The "should not see" branches of reconstructed heavy-flavour pairs: an
   * unlike-sign different-b pair, and a like-sign pair of any other type, only
   * log -- no histogram and no track fill.
   */
  lemma UnexpectedHeavyFlavourOnlyLogs(cfg: QcConfig, ana: Analysis, dBz: real, beams: Beams, coll: Collision, t1: Track, t2: Track)
    requires TruePairInfo(cfg, ana, dBz, beams, coll, t1, t2).Accepted?
    requires !(FindLF(ana.anc, t1.mc, t2.mc) > -1 && t1.mc.pdgCode * t2.mc.pdgCode < 0)
    requires var hfee := ana.anc.isHF(t1.mc, t2.mc);
      if t1.mc.pdgCode * t2.mc.pdgCode < 0 then hfee == BCeBeDiffB else 0 <= hfee < BCeBeDiffB
    ensures OnlyLogs(TruePairInfo(cfg, ana, dBz, beams, coll, t1, t2).actions)
  {
  }

  /** The track-info labels given to one leg, in order. */
  function LegLabels(acts: seq<Action>, leg: Leg): (labels: seq<SourceId>)
    ensures |labels| <= |acts|
  {
    if acts == [] then []
    else
      var a := acts[|acts| - 1];
      LegLabels(acts[..|acts| - 1], leg) + (if a.TrackInfo? && a.leg == leg then [a.source] else [])
  }

  lemma {:induction false} LegLabelsAppend(xs: seq<Action>, ys: seq<Action>, leg: Leg)
    ensures LegLabels(xs + ys, leg) == LegLabels(xs, leg) + LegLabels(ys, leg)
    decreases |ys|
  {
    if ys == [] {
      assert xs + ys == xs;
    } else {
      assert (xs + ys)[..|xs + ys| - 1] == xs + ys[..|ys| - 1];
      LegLabelsAppend(xs, ys[..|ys| - 1], leg);
    }
  }

  /** No histogram-only list gives a leg a label. */
  predicate NoTrackInfo(acts: seq<Action>)
  {
    forall i :: 0 <= i < |acts| ==> !acts[i].TrackInfo?
  }

  lemma {:induction false} NoTrackInfoNoLabels(acts: seq<Action>, leg: Leg)
    requires NoTrackInfo(acts)
    ensures LegLabels(acts, leg) == []
    decreases |acts|
  {
    if acts != [] {
      NoTrackInfoNoLabels(acts[..|acts| - 1], leg);
    }
  }

  /** Both legs labelled once, with labels `s1` and `s2`. */
  predicate LabelledOnce(acts: seq<Action>, s1: SourceId, s2: SourceId)
  {
    LegLabels(acts, First) == [s1] && LegLabels(acts, Second) == [s2]
  }

  /** Neither leg labelled, or both labelled exactly once. */
  predicate LegsBalanced(acts: seq<Action>)
  {
    (LegLabels(acts, First) == [] && LegLabels(acts, Second) == [])
    || (|LegLabels(acts, First)| == 1 && |LegLabels(acts, Second)| == 1)
  }

  lemma LabelledBucket(hists: seq<Action>, legs: seq<Action>, s1: SourceId, s2: SourceId)
    requires NoTrackInfo(hists)
    requires legs == [TrackInfo(s1, First), TrackInfo(s2, Second)]
    ensures LabelledOnce(hists + legs, s1, s2)
  {
    LegLabelsAppend(hists, legs, First);
    LegLabelsAppend(hists, legs, Second);
    NoTrackInfoNoLabels(hists, First);
    NoTrackInfoNoLabels(hists, Second);
    assert legs[..1] == [TrackInfo(s1, First)];
    assert [TrackInfo(s1, First)][..0] == [];
  }

  lemma SmBucketLabelled(name: string, source: SourceId, k: PairKinematics)
    ensures LabelledOnce(SmBucket(Reco, name, source, k), source, source)
  {
    LabelledBucket(SmHists(Reco, name, k), LegsTo(Reco, source), source, source);
  }

  lemma TwoBodyLegsBalanced(name: string, extra: seq<Action>, k: PairKinematics)
    requires NoTrackInfo(extra)
    ensures LegsBalanced(SmBucket(Reco, name, LfSource, k) + extra)
  {
    SmBucketLabelled(name, LfSource, k);
    NoTrackInfoNoLabels(extra, First);
    NoTrackInfoNoLabels(extra, Second);
    LegLabelsAppend(SmBucket(Reco, name, LfSource, k), extra, First);
    LegLabelsAppend(SmBucket(Reco, name, LfSource, k), extra, Second);
  }

  lemma ResonanceLegsBalanced(anc: Ancestry, mother: McParticle, k: PairKinematics)
    ensures LegsBalanced(ResonanceActions(Reco, anc, mother, k))
  {
    var pdg := IntAbs(mother.pdgCode);
    if pdg == 223 {
      TwoBodyLegsBalanced("Omega", if |mother.daughtersIds| == 2 then SmHists(Reco, "Omega2ee", k) else [], k);
    } else if pdg == 333 {
      TwoBodyLegsBalanced("Phi", if |mother.daughtersIds| == 2 then SmHists(Reco, "Phi2ee", k) else [], k);
    } else if pdg == 443 {
      SmBucketLabelled("NonPromptJPsi", NonPromptJPsiSource, k);
      SmBucketLabelled("PromptJPsi", PromptJPsiSource, k);
    } else if pdg == 100443 {
      SmBucketLabelled("NonPromptPsi2S", NonPromptPsi2SSource, k);
      SmBucketLabelled("PromptPsi2S", PromptPsi2SSource, k);
    } else if pdg in {111, 221, 331, 113} {
      var name := if pdg == 111 then "Pi0" else if pdg == 221 then "Eta" else if pdg == 331 then "EtaPrime" else "Rho";
      SmBucketLabelled(name, LfSource, k);
    } else {
      assert ResonanceActions(Reco, anc, mother, k) == [];
    }
  }

  lemma HeavyFlavourLegsBalanced(anc: Ancestry, p1: McParticle, p2: McParticle, hfee: HfeeType, k: PairKinematics)
    ensures LegsBalanced(RecoHeavyFlavour(anc, p1, p2, hfee, k))
  {
    if PrimaryOrGenerator(p1) && PrimaryOrGenerator(p2) {
      var mp1, mp2 := anc.firstMother(p1), anc.firstMother(p2);
      var acts := RecoHeavyFlavour(anc, p1, p2, hfee, k);
      var uls := p1.pdgCode * p2.pdgCode < 0;
      if (uls && hfee == CeCe) {
        LabelledBucket(FamilyHists(Reco, CcbarCeCe, CharmSub(anc, mp1, mp2), k), LegsTo(Reco, C2eSource), C2eSource, C2eSource);
      } else if uls && hfee == BeBe {
        LabelledBucket(FamilyHists(Reco, BbbarBeBe, BeautySub(anc, mp1, mp2), k), LegsTo(Reco, B2eSource), B2eSource, B2eSource);
      } else if uls && hfee == BCeBCe {
        LabelledBucket(FamilyHists(Reco, BbbarBCeBCe, CharmSub(anc, mp1, mp2), k), LegsTo(Reco, B2c2eSource), B2c2eSource, B2c2eSource);
      } else if (uls && hfee == BCeBeSameB) || (!uls && hfee == BCeBeDiffB) {
        var family := if uls then BbbarSameB else BbbarDiffB;
        var legs := MixedLegSourcesAsWritten(anc, mp1, mp2);
        var s1 := legs[0].source;
        var s2 := legs[1].source;
        LabelledBucket(FamilyHists(Reco, family, MixedSub(anc, mp1, mp2), k), legs, s1, s2);
      } else {
        assert OnlyLogs(acts);
        NoTrackInfoNoLabels(acts, First);
        NoTrackInfoNoLabels(acts, Second);
      }
    }
  }

  /**
   * Track-info fills come in pairs: an accepted reconstructed pair labels
   * neither leg or each leg exactly once.
   */
  lemma TruePairLegsBalanced(cfg: QcConfig, ana: Analysis, dBz: real, beams: Beams, coll: Collision, t1: Track, t2: Track)
    requires TruePairInfo(cfg, ana, dBz, beams, coll, t1, t2).Accepted?
    ensures LegsBalanced(TruePairInfo(cfg, ana, dBz, beams, coll, t1, t2).actions)
  {
    var motherId := FindLF(ana.anc, t1.mc, t2.mc);
    var hfee := ana.anc.isHF(t1.mc, t2.mc);
    var k := ana.recoKinematics(t1, t2, dBz, beams);
    if motherId > -1 && t1.mc.pdgCode * t2.mc.pdgCode < 0 {
      var mother := ana.anc.particleAt(motherId);
      if PrimaryOrGenerator(mother) && PrimaryOrGenerator(t1.mc) && PrimaryOrGenerator(t2.mc) {
        ResonanceLegsBalanced(ana.anc, mother, k);
      } else if PrimaryOrGenerator(mother) && !PrimaryOrGenerator(t1.mc) && !PrimaryOrGenerator(t2.mc)
        && IntAbs(mother.pdgCode) == 22 {
        SmBucketLabelled("Photon", PhotonSource, k);
      }
    } else if hfee > -1 {
      HeavyFlavourLegsBalanced(ana.anc, t1.mc, t2.mc, hfee, k);
    }
  }

  // ---------------------------------------------------------------------
  // Generated pairs
  // ---------------------------------------------------------------------

  lemma FamilyHistsNoTrackInfo(stage: Stage, family: string, sub: string, k: PairKinematics)
    ensures NoTrackInfo(FamilyHists(stage, family, sub, k))
  {
  }

  lemma SmHistsNoTrackInfo(name: string, k: PairKinematics)
    ensures NoTrackInfo(SmHists(Gen, name, k))
  {
  }

  lemma GenResonanceNoTrackInfo(anc: Ancestry, mother: McParticle, k: PairKinematics)
    ensures NoTrackInfo(ResonanceActions(Gen, anc, mother, k))
  {
    var pdg := IntAbs(mother.pdgCode);
    if pdg == 223 {
      assert ResonanceActions(Gen, anc, mother, k)
        == SmHists(Gen, "Omega", k) + (if |mother.daughtersIds| == 2 then SmHists(Gen, "Omega2ee", k) else []);
    } else if pdg == 333 {
      assert ResonanceActions(Gen, anc, mother, k)
        == SmHists(Gen, "Phi", k) + (if |mother.daughtersIds| == 2 then SmHists(Gen, "Phi2ee", k) else []);
    }
  }

  lemma GenHeavyFlavourNoTrackInfo(anc: Ancestry, mp1: McParticle, mp2: McParticle, hfee: HfeeType, k: PairKinematics, signs: string)
    ensures NoTrackInfo(UlsHfActions(AsWritten, Gen, anc, mp1, mp2, hfee, k))
    ensures NoTrackInfo(LsHfActions(AsWritten, Gen, anc, mp1, mp2, hfee, k, signs))
  {
  }

  /** The generator-level dispatch never fills track info. */
  lemma GenPairsFillNoTrackInfo(cfg: QcConfig, ana: Analysis, beams: Beams, p1: McParticle, p2: McParticle, signs: string)
    ensures NoTrackInfo(OutcomeActions(GenUlsPair(cfg, ana, beams, p1, p2)))
    ensures NoTrackInfo(OutcomeActions(GenLsPair(cfg, ana, beams, p1, p2, signs)))
  {
    var k := ana.genKinematics(p1, p2, beams);
    var mp1, mp2 := ana.anc.firstMother(p1), ana.anc.firstMother(p2);
    var motherId := FindLF(ana.anc, p1, p2);
    if motherId > -1 {
      GenResonanceNoTrackInfo(ana.anc, ana.anc.particleAt(motherId), k);
    }
    GenHeavyFlavourNoTrackInfo(ana.anc, mp1, mp2, ana.anc.isHF(p1, p2), k, signs);
  }

  /**
   * The "should not see" branches of generated pairs: an unlike-sign
   * different-b pair, and a like-sign pair of any other type, only log.
   */
  lemma GenUnexpectedHeavyFlavourOnlyLogs(cfg: QcConfig, ana: Analysis, beams: Beams, p1: McParticle, p2: McParticle, signs: string)
    ensures FindLF(ana.anc, p1, p2) < 0 && ana.anc.isHF(p1, p2) == BCeBeDiffB
      ==> OnlyLogs(OutcomeActions(GenUlsPair(cfg, ana, beams, p1, p2)))
    ensures 0 <= ana.anc.isHF(p1, p2) < BCeBeDiffB
      ==> OnlyLogs(OutcomeActions(GenLsPair(cfg, ana, beams, p1, p2, signs)))
  {
  }

  // ---------------------------------------------------------------------
  // Findings: the two discrepancies and the corrected behaviour
  // ---------------------------------------------------------------------

  /** The family each heavy-flavour type fills. */
  function HfFamily(hfee: HfeeType): string
  {
    if hfee == CeCe then CcbarCeCe
    else if hfee == BeBe then BbbarBeBe
    else if hfee == BCeBCe then BbbarBCeBCe
    else if hfee == BCeBeSameB then BbbarSameB
    else BbbarDiffB
  }

  lemma FamilyHistsUnderFamily(stage: Stage, family: string, sub: string, k: PairKinematics)
    ensures forall a :: a in FamilyHists(stage, family, sub, k) ==> Prefix(stage) + family + "/" <= a.fill.name
  {
    assert Prefix(stage) + (family + "/" + HadronHadron) + "/hs" == (Prefix(stage) + family + "/") + HadronHadron + "/hs";
    assert Prefix(stage) + (family + "/" + sub) + "/hs" == (Prefix(stage) + family + "/") + sub + "/hs";
    PrefixOfConcat(Prefix(stage) + family + "/", HadronHadron, "/hs");
    PrefixOfConcat(Prefix(stage) + family + "/", sub, "/hs");
  }

  /**
   * Corrected dispatch: every histogram an unlike-sign heavy-flavour pair of
   * an expected type fills lies under that type's own family, at both the
   * reconstructed and the generated level; likewise for a like-sign
   * different-b pair.
   */
  lemma HeavyFlavourFillsUnderOwnFamily(stage: Stage, anc: Ancestry, mp1: McParticle, mp2: McParticle, hfee: HfeeType, k: PairKinematics, signs: string)
    requires 0 <= hfee
    ensures hfee < BCeBeDiffB ==>
      forall a :: a in UlsHfActions(Intended, stage, anc, mp1, mp2, hfee, k) && a.Hist?
        ==> Prefix(stage) + HfFamily(hfee) + "/" <= a.fill.name
    ensures hfee == BCeBeDiffB ==>
      forall a :: a in LsHfActions(Intended, stage, anc, mp1, mp2, hfee, k, signs) && a.Hist?
        ==> Prefix(stage) + HfFamily(hfee) + "/" <= a.fill.name
  {
    if hfee == CeCe {
      FamilyHistsUnderFamily(stage, CcbarCeCe, CharmSub(anc, mp1, mp2), k);
    } else if hfee == BeBe {
      FamilyHistsUnderFamily(stage, BbbarBeBe, BeautySub(anc, mp1, mp2), k);
    } else if hfee == BCeBCe {
      FamilyHistsUnderFamily(stage, BbbarBCeBCe, CharmSub(anc, mp1, mp2), k);
    } else if hfee == BCeBeSameB {
      FamilyHistsUnderFamily(stage, BbbarSameB, MixedSub(anc, mp1, mp2), k);
    } else {
      FamilyHistsUnderFamily(stage, BbbarDiffB, MixedSub(anc, mp1, mp2), k);
    }
  }

  /**
   * As written, the species sub-bucket that the dispatch fills for a
   * generated b->c->e b->c->e pair lies outside its own family, for every
   * input: it is filled under b2e_b2e.
   */
  lemma GenBCeBCeAsWrittenLeavesFamily(anc: Ancestry, mp1: McParticle, mp2: McParticle, k: PairKinematics)
    ensures var acts := UlsHfActions(AsWritten, Gen, anc, mp1, mp2, BCeBCe, k);
      && |acts| == 2 && acts[1].Hist?
      && "Generated/bbbar/b2e_b2e/" <= acts[1].fill.name
      && !(Prefix(Gen) + HfFamily(BCeBCe) + "/" <= acts[1].fill.name)
  {
    assert UlsHfActions(AsWritten, Gen, anc, mp1, mp2, BCeBCe, k) == GenBCeBCeAsWritten(anc, mp1, mp2, k);
    var sub := CharmSub(anc, mp1, mp2);
    var name := GenBCeBCeAsWritten(anc, mp1, mp2, k)[1].fill.name;
    assert name == "Generated/bbbar/b2e_b2e/" + sub + "/hs";
    PrefixOfConcat("Generated/bbbar/b2e_b2e/", sub, "/hs");
    IntendedBCeBCeFamily();
    PrefixesDiffer("Generated/bbbar/b2e_b2e/", "Generated/bbbar/b2c2e_b2c2e/", name, 18);
  }

  lemma IntendedBCeBCeFamily()
    ensures Prefix(Gen) + HfFamily(BCeBCe) + "/" == "Generated/bbbar/b2c2e_b2c2e/"
  {
  }

  /** Two strings that differ at position `i` cannot both start `name`. */
  lemma PrefixesDiffer(a: string, b: string, name: string, i: nat)
    requires i < |a| && i < |b| && a[i] != b[i]
    requires a <= name
    ensures !(b <= name)
  {
  }

  predicate CharmOnly(anc: Ancestry, p: McParticle)
  {
    IsCharmHadron(anc, p) && !IsBeautyHadron(anc, p)
  }

  predicate BeautyOnly(anc: Ancestry, p: McParticle)
  {
    IsBeautyHadron(anc, p) && !IsCharmHadron(anc, p)
  }

  /** The label a leg should carry, by the flavour of its first mother. */
  predicate LabelMatchesMother(anc: Ancestry, mother: McParticle, source: SourceId)
  {
    (CharmOnly(anc, mother) ==> source == B2c2eSource) && (BeautyOnly(anc, mother) ==> source == B2eSource)
  }

  /** One first mother is a charm hadron and the other a beauty hadron, in either order. */
  predicate MixedMothers(anc: Ancestry, mp1: McParticle, mp2: McParticle)
  {
    (CharmOnly(anc, mp1) && BeautyOnly(anc, mp2)) || (BeautyOnly(anc, mp1) && CharmOnly(anc, mp2))
  }

  /** Corrected labels: in either order each leg is labelled by its own mother's flavour. */
  lemma MixedLegsLabelledByMother(anc: Ancestry, mp1: McParticle, mp2: McParticle)
    requires MixedMothers(anc, mp1, mp2)
    ensures var legs := MixedLegSources(anc, mp1, mp2);
      && |legs| == 2 && legs[0] == TrackInfo(legs[0].source, First) && legs[1] == TrackInfo(legs[1].source, Second)
      && LabelMatchesMother(anc, mp1, legs[0].source)
      && LabelMatchesMother(anc, mp2, legs[1].source)
  {
  }

  /** As written, both legs of such a pair carry the other leg's label, in either order. */
  lemma MixedLegsAsWrittenSwapped(anc: Ancestry, mp1: McParticle, mp2: McParticle)
    requires MixedMothers(anc, mp1, mp2)
    ensures var legs := MixedLegSourcesAsWritten(anc, mp1, mp2);
      && |legs| == 2
      && !LabelMatchesMother(anc, mp1, legs[0].source)
      && !LabelMatchesMother(anc, mp2, legs[1].source)
  {
  }

  /** `w` is `i` with the labels of the two legs exchanged, the histograms kept. */
  predicate LabelsExchanged(w: seq<Action>, i: seq<Action>)
  {
    && |w| == 4 && |i| == 4 && w[..2] == i[..2]
    && i[2].TrackInfo? && i[3].TrackInfo? && i[2].source != i[3].source
    && w[2] == TrackInfo(i[3].source, First) && w[3] == TrackInfo(i[2].source, Second)
  }

  /**
   * The dispatch as written and the corrected one differ in exactly two
   * places. A mixed b->c->e / b->e pair keeps its histograms but each leg
   * gets the other leg's label; a generated b->c->e b->c->e pair keeps its
   * hadron_hadron fill and the values of its species fill, but that fill
   * changes name. Every other case is the same in both.
   */
  lemma {:induction false} DispatchesDifferOnlyInSlips(stage: Stage, anc: Ancestry, mp1: McParticle, mp2: McParticle,
                                                       hfee: HfeeType, k: PairKinematics, signs: string)
    ensures hfee != BCeBeSameB && !(stage == Gen && hfee == BCeBCe) ==>
      UlsHfActions(AsWritten, stage, anc, mp1, mp2, hfee, k) == UlsHfActions(Intended, stage, anc, mp1, mp2, hfee, k)
    ensures hfee != BCeBeDiffB || stage == Gen ==>
      LsHfActions(AsWritten, stage, anc, mp1, mp2, hfee, k, signs) == LsHfActions(Intended, stage, anc, mp1, mp2, hfee, k, signs)
    ensures stage == Reco && hfee == BCeBeSameB ==>
      LabelsExchanged(UlsHfActions(AsWritten, stage, anc, mp1, mp2, hfee, k), UlsHfActions(Intended, stage, anc, mp1, mp2, hfee, k))
    ensures stage == Reco && hfee == BCeBeDiffB ==>
      LabelsExchanged(LsHfActions(AsWritten, stage, anc, mp1, mp2, hfee, k, signs), LsHfActions(Intended, stage, anc, mp1, mp2, hfee, k, signs))
    ensures stage == Gen && hfee == BCeBCe ==>
      var w := UlsHfActions(AsWritten, stage, anc, mp1, mp2, hfee, k);
      var i := UlsHfActions(Intended, stage, anc, mp1, mp2, hfee, k);
      && |w| == 2 && |i| == 2 && w[0] == i[0] && w[1].Hist? && i[1].Hist?
      && w[1].fill.values == i[1].fill.values && w[1].fill.name != i[1].fill.name
  {
    if stage == Gen && hfee == BCeBCe {
      GenBCeBCeAsWrittenLeavesFamily(anc, mp1, mp2, k);
      HeavyFlavourFillsUnderOwnFamily(Gen, anc, mp1, mp2, BCeBCe, k, signs);
      var i := UlsHfActions(Intended, stage, anc, mp1, mp2, hfee, k);
      assert i[1] in i;
    }
  }
}
