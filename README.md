# Selection and classification logic of three O2Physics analysis tasks

This project is a Dafny model of the selection and bookkeeping logic at the
heart of three ALICE O2Physics analysis tasks. It also proves properties of
that model.

- **dielectronQCMC** (`PWGEM/Dilepton/Tasks/dielectronQCMC.cxx`) covers these parts:
  - the light-flavour common-mother search `FindLF`;
  - the generator-level acceptance `isInAcceptance`;
  - the centrality gate of `processQCMC` and `processGen`;
  - the run-number cache of `initCCDB`;
  - the `used_trackIds` deduplication of `fillTrackInfo`;
  - the true-pair filler `fillTruePairInfo`, which is a chain of early rejections followed by a dispatch into histogram buckets. The bucket is chosen by resonance PDG code, or by heavy-flavour type together with the sign product.
  - the generated-pair loops and the omega/phi efficiency spectra of `processGen`.
- **jetShape** (`PWGJE/Tasks/jetShape.cxx`) covers these parts:
  - the jet acceptance `isAcceptedJet`, with its area switch and its leading-constituent switches;
  - the half-open radial binning of track pt in `processJetShape`, and the pt densities of the jet axis and the two background cones;
  - the track-quality cut chain of `processProductionRatio`.
- **taskSingleMuonReader** (`PWGHF/HFL/Tasks/taskSingleMuonReader.cxx`) covers the forward-muon cut chain and the fill that happens only when a matched MCH track exists.

Modules:

- `Histograms`: the histogram registry as the tasks see it. A `registry.fill(name, values...)` is one `Fill` appended to a sequence.
- `DielectronModel`: the pure part of the dielectron task. This module holds:
  - the ancestry helpers of `MCUtilities.h`, as uninterpreted function fields of `Ancestry`, with their result domains (an index or -1; an `EM_HFeeType` value or -1);
  - the selections;
  - the dispatch, as a function that returns the list of actions the filler performs. An action is a histogram fill, a track-info fill of one leg under a source label, or a log line.
- `DielectronTask`: the task state (`mRunNumber`, `d_bz`, the beam fields, `used_trackIds`, the registry and the log), the specification functions for each step, and the class `DielectronQcMc`, whose methods update that state in place.
- `JetShape`: the jet task. It has specification functions on values, loop methods proved against them, and the class `JetShapeTask` holding the registry.
- `SingleMuonReader`: the muon task. It has the cut chain, the fold of fills, and the class `HfTaskSingleMuonReader`.

Each process method has the same specification: the new state is a specification function of the old state and the input. The properties themselves are proved about those functions as lemmas.

Kinematics, such as the invariant mass, rapidity, Collins-Soper angles, phi_V, radial distances and the transverse DCA, enter as given reals.

The process methods run the dispatch as the code is written (`Variant.AsWritten`), including the two slips listed under "## Findings". The corrected dispatch (`Variant.Intended`) exists only so that the intended properties can be stated about it, and `DispatchesDifferOnlyInSlips` proves that the two differ in exactly those two places.

`used_trackIds` is cleared once, at the end of a whole `processQCMC` call (dielectronQCMC.cxx:831-832). It is not cleared per collision, so a track labelled in one collision of a call is not labelled again in a later collision of the same call.

## Model

| member | source | states |
|---|---|---|
| `DielectronModel.MaxElement` | PWGEM/Dilepton/Tasks/dielectronQCMC.cxx:450 | the maximum is one of the elements and no element exceeds it |
| `DielectronModel.FindLF` | PWGEM/Dilepton/Tasks/dielectronQCMC.cxx:432-452 | the result is one of the thirteen candidate common-mother indices, no candidate exceeds it, and it is negative exactly when every candidate search failed |
| `DielectronModel.AcceptanceEdgesRejected` | PWGEM/Dilepton/Tasks/dielectronQCMC.cxx:454-462 | a particle sitting on any edge of the pt or eta window is rejected, because both windows are open |
| `DielectronModel.DefaultAcceptance` | PWGEM/Dilepton/Tasks/dielectronQCMC.cxx:148-154 | with the default cuts, acceptance is exactly 0.05 < pt < 1e10 and \|eta\| < 0.9 |
| `DielectronModel.CentralityClosedWindow` | PWGEM/Dilepton/Tasks/dielectronQCMC.cxx:800-803 | a collision passes the gate iff the configured estimator's centrality lies in the closed window [centMin, centMax] |
| `DielectronModel.TruePairInfo` | PWGEM/Dilepton/Tasks/dielectronQCMC.cxx:508-779 | a pair is accepted iff all of these hold: both legs and the pair pass selection, both legs are true electrons of the same MC event, a light-flavour mother or a heavy-flavour type exists, and \|y\| <= maxY. Any other pair is rejected. An accepted pair carries the dispatch as written, including the mixed-leg labels of 725-731 and 763-769 |
| `DielectronModel.RapidityBoundKept` | PWGEM/Dilepton/Tasks/dielectronQCMC.cxx:546-548 | a pair whose \|y\| equals maxY exactly is accepted |
| `DielectronModel.ResonancePrecedence` | PWGEM/Dilepton/Tasks/dielectronQCMC.cxx:565-777 | with a light-flavour mother and unlike-sign truth, every action is a same-mother ("Pair/sm/") fill or label. In every other accepted case, every action is a ccbar/bbbar fill, a heavy-flavour label or a log line |
| `DielectronModel.UnexpectedHeavyFlavourOnlyLogs` | PWGEM/Dilepton/Tasks/dielectronQCMC.cxx:734-753 | an unlike-sign kBCe_Be_DiffB pair, or a like-sign pair of any other type, yields at most one log line and no fill |
| `DielectronModel.TruePairLegsBalanced` | PWGEM/Dilepton/Tasks/dielectronQCMC.cxx:565-777 | an accepted pair labels neither leg, or labels each leg exactly once |
| `DielectronModel.GenPairsFillNoTrackInfo` | PWGEM/Dilepton/Tasks/dielectronQCMC.cxx:859-1135 | the generator-level dispatch of unlike-sign and like-sign pairs never fills track information |
| `DielectronModel.GenUnexpectedHeavyFlavourOnlyLogs` | PWGEM/Dilepton/Tasks/dielectronQCMC.cxx:859-1135 | the generated "should not see" branches, unlike-sign DiffB and like-sign non-DiffB, yield at most one log line |
| `DielectronModel.HeavyFlavourFillsUnderOwnFamily` | PWGEM/Dilepton/Tasks/dielectronQCMC.cxx:663-771 | in the corrected dispatch, every histogram that an expected heavy-flavour pair fills lies under its own type's family directory, at the reconstructed and the generated level |
| `DielectronModel.GenBCeBCeAsWrittenLeavesFamily` | PWGEM/Dilepton/Tasks/dielectronQCMC.cxx:973-983 | in the dispatch the process methods run, the species sub-bucket of a generated b->c->e b->c->e pair is filled under b2e_b2e, outside its own family, for every input |
| `DielectronModel.DispatchesDifferOnlyInSlips` | PWGEM/Dilepton/Tasks/dielectronQCMC.cxx:659-1135 | the dispatch as written and the corrected one agree everywhere except in two places. A mixed b->c->e / b->e pair keeps its histograms, but each leg gets the other leg's label. A generated b->c->e b->c->e pair keeps its values, but its species fill changes name |
| `DielectronModel.MixedLegsLabelledByMother` | PWGEM/Dilepton/Tasks/dielectronQCMC.cxx:725-731 | with one charm-hadron mother and one beauty-hadron mother, in either order, the corrected labels give each leg the label of its own mother's flavour |
| `DielectronModel.MixedLegsAsWrittenSwapped` | PWGEM/Dilepton/Tasks/dielectronQCMC.cxx:763-769 | as written, both legs of such a pair carry the label that belongs to the other leg's mother |
| `DielectronTask.InitCcdbCache` | PWGEM/Dilepton/Tasks/dielectronQCMC.cxx:310-362 | after the lookup the cached run is the collision's run and a repeated call is a no-op. Fills, used ids and log are untouched, and under the field override d_bz is the configured value while the beams are kept |
| `DielectronTask.InitCcdbOverrideNeedsNoLookup` | PWGEM/Dilepton/Tasks/dielectronQCMC.cxx:318-327 | with d_bz_input > -990 the result does not depend on the condition database |
| `DielectronTask.TrackInfoFillsEachOnce` | PWGEM/Dilepton/Tasks/dielectronQCMC.cxx:471-503 | one track-info call fills each of the 33 track-QA histograms of the label's directory exactly once, and nothing outside `Track/<label>` |
| `DielectronTask.TrackInfoDedup` | PWGEM/Dilepton/Tasks/dielectronQCMC.cxx:464-506 | a present id changes nothing; an absent id is appended once. Ids stay distinct, state is only extended, and a second call for the track under any label is a no-op, so the first label wins |
| `DielectronTask.FindId` | PWGEM/Dilepton/Tasks/dielectronQCMC.cxx:468 | the linear search reports "found" iff the id is in the list |
| `DielectronTask.RejectedPairChangesNothing` | PWGEM/Dilepton/Tasks/dielectronQCMC.cxx:511-548 | a pair rejected by the gate leaves the whole task state unchanged |
| `DielectronTask.PairKeepsInvariant` | PWGEM/Dilepton/Tasks/dielectronQCMC.cxx:508-779 | one true-pair call keeps the used ids distinct, only appends to ids, fills and log, and keeps the cached run, field and beams |
| `DielectronTask.UnexpectedPairOnlyLogs` | PWGEM/Dilepton/Tasks/dielectronQCMC.cxx:734-753 | a "should not see" pair leaves fills and used ids unchanged and adds at most one log line |
| `DielectronTask.PairsKeepInvariant` | PWGEM/Dilepton/Tasks/dielectronQCMC.cxx:817-827 | a whole pair loop keeps the same invariant |
| `DielectronTask.CentralityGateFillsNothing` | PWGEM/Dilepton/Tasks/dielectronQCMC.cxx:799-804 | a collision outside the centrality window fills nothing, records no id, logs nothing, and only refreshes the run cache |
| `DielectronTask.CollisionKeepsInvariant` | PWGEM/Dilepton/Tasks/dielectronQCMC.cxx:798-829 | one collision keeps the used ids distinct, only extends the state, and leaves its run in the cache |
| `DielectronTask.CollisionsKeepInvariant` | PWGEM/Dilepton/Tasks/dielectronQCMC.cxx:794-834 | during processQCMC the ids stay distinct and fills and log are only appended; the call ends with the id list empty |
| `DielectronTask.HistFillsAppend` | PWGEM/Dilepton/Tasks/dielectronQCMC.cxx:845-1136 | the fills and log lines of concatenated action lists are the concatenation of each list's fills and log lines |
| `DielectronTask.EfficiencySpectraSelection` | PWGEM/Dilepton/Tasks/dielectronQCMC.cxx:1153-1168 | only primary (or generator) omega and phi mesons with \|y\| <= maxY enter the spectra, each with exactly a pt fill and a y fill |
| `DielectronTask.EfficiencyFillsNames` | PWGEM/Dilepton/Tasks/dielectronQCMC.cxx:1139-1172 | the efficiency pass fills only the four omega/phi pt and y histograms |
| `DielectronTask.DielectronQcMc.constructor` | PWGEM/Dilepton/Tasks/dielectronQCMC.cxx:291-292 | the task starts with run 0, field 0, no used ids, no fills |
| `DielectronTask.DielectronQcMc.InitCcdb` | PWGEM/Dilepton/Tasks/dielectronQCMC.cxx:310-362 | the new state is the cached-lookup specification applied to the old one |
| `DielectronTask.DielectronQcMc.FillTrackInfo` | PWGEM/Dilepton/Tasks/dielectronQCMC.cxx:464-506 | the new state is the deduplicating fill specification applied to the old one |
| `DielectronTask.DielectronQcMc.Perform` | PWGEM/Dilepton/Tasks/dielectronQCMC.cxx:565-777 | the actions of a dispatch are carried out in order |
| `DielectronTask.DielectronQcMc.FillTruePairInfo` | PWGEM/Dilepton/Tasks/dielectronQCMC.cxx:508-779 | returns whether the gate accepted the pair; the new state is the pair specification, which performs the dispatch as written |
| `DielectronTask.DielectronQcMc.ProcessPairs` | PWGEM/Dilepton/Tasks/dielectronQCMC.cxx:817-827 | the pair loop in the order the combination policy yields the pairs |
| `DielectronTask.DielectronQcMc.ProcessCollision` | PWGEM/Dilepton/Tasks/dielectronQCMC.cxx:798-829 | the lookup, centrality gate, event information, event cut, counters, then the ULS, LS++ and LS-- loops |
| `DielectronTask.DielectronQcMc.ProcessQcmc` | PWGEM/Dilepton/Tasks/dielectronQCMC.cxx:794-834 | all collisions, then `used_trackIds` is cleared |
| `DielectronTask.DielectronQcMc.RecordGen` | PWGEM/Dilepton/Tasks/dielectronQCMC.cxx:859-1002 | appends the fills and log lines of an action list and keeps the cached fields |
| `DielectronTask.DielectronQcMc.ProcessGenPairs` | PWGEM/Dilepton/Tasks/dielectronQCMC.cxx:859-1002 | one generated pair loop appends each pair's dispatch as written, in order, including the b2e_b2e sub-bucket of 976-980 |
| `DielectronTask.DielectronQcMc.ProcessGenCollision` | PWGEM/Dilepton/Tasks/dielectronQCMC.cxx:845-1136 | a generated collision appends nothing unless it passes the centrality gate and the event cut; otherwise the ULS, LS++ and LS-- loops, with the dispatch as written |
| `DielectronTask.DielectronQcMc.ProcessEfficiency` | PWGEM/Dilepton/Tasks/dielectronQCMC.cxx:1153-1168 | appends the omega/phi spectra of the particles of one collision |
| `DielectronTask.DielectronQcMc.ProcessGenEfficiency` | PWGEM/Dilepton/Tasks/dielectronQCMC.cxx:1140-1170 | the same, behind the centrality gate and the event cut |
| `DielectronTask.DielectronQcMc.ProcessGenPairPass` | PWGEM/Dilepton/Tasks/dielectronQCMC.cxx:845-1137 | the first collision loop of processGen, with the dispatch as written |
| `DielectronTask.DielectronQcMc.ProcessEfficiencyPass` | PWGEM/Dilepton/Tasks/dielectronQCMC.cxx:1139-1172 | the second collision loop of processGen |
| `DielectronTask.DielectronQcMc.ProcessGen` | PWGEM/Dilepton/Tasks/dielectronQCMC.cxx:840-1173 | processGen appends the pair-pass fills, then the efficiency spectra. It logs only the pair-pass lines and never touches the run cache or the used ids |
| `JetShape.IsAcceptedJet` | PWGJE/Tasks/jetShape.cxx:111-150 | the flag loop over the constituents decides exactly the acceptance predicate: area cut, then the min/max leading-constituent switches |
| `JetShape.AreaChecksSkipped` | PWGJE/Tasks/jetShape.cxx:114-115 | with jetAreaFractionMin <= -98 the jet area plays no part in acceptance |
| `JetShape.AreaCutThreshold` | PWGJE/Tasks/jetShape.cxx:115-122 | with the area cut on, the area is accepted iff it is at least max(fraction, 1/2) times pi (r/100)^2 |
| `JetShape.ConstituentChecksSkipped` | PWGJE/Tasks/jetShape.cxx:123-149 | unless the min cut (> 5) or the max cut (< 9998) is on, the constituents play no part and acceptance is the area test |
| `JetShape.ZeroDensities` | PWGJE/Tasks/jetShape.cxx:161-163 | the three density vectors have one entry per bin and start at zero |
| `JetShape.SortedMonotone` | PWGJE/Tasks/jetShape.cxx:201-208 | non-decreasing adjacent bin edges are ordered pairwise |
| `JetShape.AtMostOneBin` | PWGJE/Tasks/jetShape.cxx:201-208 | with non-decreasing edges a distance lies in at most one half-open bin |
| `JetShape.OutsideRangeAddsNothing` | PWGJE/Tasks/jetShape.cxx:201-208 | a distance below the first edge or at or beyond the last adds nothing to any bin |
| `JetShape.BinnedPtTotal` | PWGJE/Tasks/jetShape.cxx:201-208 | across all bins a track contributes its pt iff its distance lies in [first edge, last edge), and 0 otherwise |
| `JetShape.TrackPtSums` | PWGJE/Tasks/jetShape.cxx:201-208 | the bin loop computes the binned pt of the jet axis and of both background cones |
| `JetShape.AddDensities` | PWGJE/Tasks/jetShape.cxx:210-214 | the density loop adds, per bin, the binned pt over width times corrected pt, in all three cones |
| `JetShape.TrackUpdateAt` | PWGJE/Tasks/jetShape.cxx:201-214 | one track changes bin i of a cone by its pt over width times corrected pt when it falls in the bin, and not otherwise |
| `JetShape.TracksUpdateIncrement` | PWGJE/Tasks/jetShape.cxx:174-214 | after all tracks, bin i of each cone has grown by exactly the pt of the tracks in that bin over width times corrected pt, and by nothing else |
| `JetShape.SummaryPtCorr` | PWGJE/Tasks/jetShape.cxx:171 | the recorded corrected jet pt is pt - rho * area |
| `JetShape.RejectedJetChangesNothing` | PWGJE/Tasks/jetShape.cxx:165-168 | a rejected jet adds no fill and leaves the densities alone |
| `JetShape.AcceptedJetFills` | PWGJE/Tasks/jetShape.cxx:165-232 | an accepted jet keeps the earlier fills and adds 2 per track, 6 summary fills and 3 per bin; its sixth summary fill is the corrected pt |
| `JetShape.TracksShapeFillsLength` | PWGJE/Tasks/jetShape.cxx:181-182 | each track of an accepted jet adds two fills |
| `JetShape.ShapeFillsLength` | PWGJE/Tasks/jetShape.cxx:224-232 | the per-bin loop adds three fills per bin |
| `JetShape.ProductionTrackSelectedIff` | PWGJE/Tasks/jetShape.cxx:252-265 | a track passes iff these hold: \|eta\| <= etaTrUp, crossed rows >= minimum, \|dcaXY\| <= dcaxyMax, both chi2 within their maxima, and both cluster counts at least their minima |
| `JetShape.TrackFillsHoldOneMass` | PWGJE/Tasks/jetShape.cxx:268-287 | each selected track records exactly one TOF-mass entry |
| `JetShape.ProductionTracksMassCount` | PWGJE/Tasks/jetShape.cxx:250-288 | the track loop records one TOF-mass entry per selected track |
| `JetShape.ProductionJetsMassCount` | PWGJE/Tasks/jetShape.cxx:244-289 | the jet loop records accepted jets times selected tracks entries |
| `JetShape.ProductionMassCount` | PWGJE/Tasks/jetShape.cxx:237-291 | a selected event records one PID entry per pair of accepted jet and selected track; a rejected event records none |
| `JetShape.JetShapeTask.constructor` | PWGJE/Tasks/jetShape.cxx:82-96 | the task starts with its configuration and an empty registry |
| `JetShape.JetShapeTask.ProcessJetShape` | PWGJE/Tasks/jetShape.cxx:158-234 | the registry grows by exactly the jet-shape run's fills |
| `JetShape.JetShapeTask.ProcessAcceptedJet` | PWGJE/Tasks/jetShape.cxx:169-233 | one accepted jet: the densities become the track update of the old ones, and the registry grows by the jet's fills |
| `JetShape.JetShapeTask.AccumulateTracks` | PWGJE/Tasks/jetShape.cxx:174-215 | the track loop updates the densities and appends the two per-track fills |
| `JetShape.JetShapeTask.FillJetShape` | PWGJE/Tasks/jetShape.cxx:224-232 | the per-bin loop appends three fills per bin |
| `JetShape.JetShapeTask.ProcessProductionRatio` | PWGJE/Tasks/jetShape.cxx:237-291 | the registry grows by exactly the production-ratio fills |
| `JetShape.JetShapeTask.ProcessProductionJet` | PWGJE/Tasks/jetShape.cxx:250-289 | one accepted jet's track loop |
| `JetShape.JetShapeTask.FillProductionTrack` | PWGJE/Tasks/jetShape.cxx:252-288 | a track appends its ten fills iff it passes the cut chain, and nothing otherwise |
| `SingleMuonReader.MuonSelectedWindows` | PWGHF/HFL/Tasks/taskSingleMuonReader.cxx:72-91 | a muon passes iff its type matches, etaMin <= eta < etaMax, rAbsMin <= rAbs < rAbsMax and pDca < pDcaMax |
| `SingleMuonReader.MuonWindowEdges` | PWGHF/HFL/Tasks/taskSingleMuonReader.cxx:83-85 | the lower eta edge is inside the window and the upper edge outside |
| `SingleMuonReader.MuonFillsSound` | PWGHF/HFL/Tasks/taskSingleMuonReader.cxx:72-98 | every fill of the muon loop comes from a muon that passed every cut and has a matched MCH track, and records that track's pt minus the muon's pt |
| `SingleMuonReader.MuonFillsShape` | PWGHF/HFL/Tasks/taskSingleMuonReader.cxx:94-98 | the muon loop fills at most once per muon, only hMuAfterCuts, never hVtxZ |
| `SingleMuonReader.UnmatchedMuonsAddNothing` | PWGHF/HFL/Tasks/taskSingleMuonReader.cxx:94-98 | a muon without a matched MCH track adds nothing, whatever cuts it passes |
| `SingleMuonReader.VertexFilledOncePerEvent` | PWGHF/HFL/Tasks/taskSingleMuonReader.cxx:70 | the vertex-z histogram is filled exactly once per event, first, whatever the muons |
| `SingleMuonReader.HfTaskSingleMuonReader.constructor` | PWGHF/HFL/Tasks/taskSingleMuonReader.cxx:64-65 | the task starts with an empty registry |
| `SingleMuonReader.HfTaskSingleMuonReader.Process` | PWGHF/HFL/Tasks/taskSingleMuonReader.cxx:68-100 | the registry grows by exactly the event's fills: the vertex z, then the muon loop |
| `SingleMuonReader.HfTaskSingleMuonReader.ProcessMuon` | PWGHF/HFL/Tasks/taskSingleMuonReader.cxx:72-98 | one pass of the muon loop appends that muon's fill, or nothing when it is rejected or unmatched |

## Left out

- The condition-database lookups, `grpo`/`grpmag`, the `LOG(fatal)` path and the derivation of beam parameters with `sqrt` (dielectronQCMC.cxx:329-362) are left out. They are foreign I/O and floating point, so the lookup is a pair of given functions of the timestamp: the field and the beams.
- ONNX/ML PID model loading and scoring (dielectronQCMC.cxx:413-429) are left out. This is a foreign library; ML track selection is an uninterpreted predicate.
- The ancestry helpers of `PWGEM/Dilepton/Utils/MCUtilities.h` are uninterpreted functions with their result domains. That header is not part of this model.
- `DielectronCut`, `EMEventCut` and the `fillEventInfo` histograms are defined outside the modelled files. The model treats them as given predicates and a given list of fills.
- ROOT four-vector kinematics are given reals: mass, rapidity, Collins-Soper angles, phi_V, angle wrapping, and jet-track radial distances.
- Framework `Filter`s, `Partition`s, slicing and the `combinations` index policies are left out. This includes the any-estimator centrality `Filter` (dielectronQCMC.cxx:791) and the `jetPtMin`/`jetR` filters of jetShape. The process methods take the already filtered and combined tables as input.
- Histogram axis setup is left out; the registry is a list of named fills.
- The unused configurables are left out: `zVtx` in taskSingleMuonReader and `vertexZCut` in jetShape.
- The model works in exact reals. Single-precision rounding and the casts of integer cluster counts to float are not modelled.
- `JetShape.Ratio`: a density update whose denominator (bin width times corrected pt) is zero adds 0. The source divides floats there and would produce inf or NaN.
- `JetShape.JetShapeTask.ProcessJetShape` requires at least one distance category. With an empty category list the source computes a vector size of -1.
- The `LOGF` lines of the "should not see" branches are modelled as an appended log with their messages. Log levels and formatting are not modelled.
- `DielectronTask.DielectronQcMc.ProcessGen`: the processGen methods state the registry, the log and the cached fields field by field, rather than the whole state record as one equation.
- `DielectronTask.DielectronQcMc.ProcessQcmc`, `DielectronTask.DielectronQcMc.ProcessGen` and the collision specifications require `cfgCentEstimator` to be 0, 1 or 2 (`ValidSetup`). Any other value reads `centralities[]` out of bounds at dielectronQCMC.cxx:801, 847 and 1142, which is undefined behaviour and is not modelled.

## Findings

| source | as written | input that shows it | evidently intended | confidence | as-written member | corrected member |
|---|---|---|---|---|---|---|
| PWGEM/Dilepton/Tasks/dielectronQCMC.cxx:975-981 | the species sub-bucket of a generated kBCe_BCe pair is filled under `Generated/bbbar/b2e_b2e/` | any generated unlike-sign pair with no light-flavour mother and `IsHF` = kBCe_BCe inside acceptance | fill under `Generated/bbbar/b2c2e_b2c2e/`, as the reconstructed branch and the hadron-hadron fill of the same branch do | high; not executed | `DielectronModel.GenBCeBCeAsWrittenLeavesFamily` | `DielectronModel.HeavyFlavourFillsUnderOwnFamily` |
| PWGEM/Dilepton/Tasks/dielectronQCMC.cxx:725-731 | in a b->c->e / b->e pair the leg whose first mother is a charm hadron is labelled b2e, and the beauty-mother leg b2c2e (the same at 763-769) | a pair whose first leg's first mother is a D meson and whose second leg's first mother is a B meson | each leg labelled by its own mother: charm mother gives b2c2e, beauty mother gives b2e | medium; not executed | `DielectronModel.MixedLegsAsWrittenSwapped` | `DielectronModel.MixedLegsLabelledByMother` |
