# MLP-project scripts, modelled in Dafny

This project models the deterministic core of the scripts in the MLP-project
repository. The repository trains and tests machine-learned interatomic potentials for
hydrogen on platinum surfaces. It has four parts, each modelled here:

- **Ensemble calculators** (`scripts/nn_ensembles/Calculators/mixing_modified.py`):
  - `LinearCombinationCalculator` and its Average, Sum and Mixed presets, with their
    construction checks and the choice of force mode. It combines member energies and
    forces with weights, works out the weighted spread and the variance-gradient or
    metadynamics bias, and keeps its previous spread when no member was recomputed.
    Module `Ensemble`, class `LinearCombination`.
  - The bookkeeping side of `MultiProcessCalculator.calculate`: when to recompute,
    how the property list is edited, and the species and cell test, which as written
    can never refuse a call (see "## Findings"). Class `MultiProcess`.
- **Error analysis of aenet runs** (`scripts/mlp_training/ANN-aenet/error_analysis/`):
  - line and token scanners over `predict.out` and `train.out`, plus the path
    classification of structures (modules `PredictOut`, `EnergyErrors`, `ForceErrors`,
    `EadsErrors`, `TrainTestMae`);
  - the matching of combined systems with clean slabs;
  - the ME / MAE / MSE metrics and the per-structure force errors (module `Stats`).
- **Active learning** (`scripts/active_learning/`): spike detection in per-atom
  uncertainties, the sorted distinct spike steps and their first hundred (module
  `Spikes`), and the range-wise variant that draws a random sample (module
  `ShuffledSample`).
- **Data generation** (`scripts/data_generation/`):
  - strained slabs and bulks, hydrogen and H2 placed on fcc(111) sites, and randomly
    moved top layers (modules `Slab`, `SurfacesFromBulk`, `BulkSeed`, `AddH`, `AddH2`,
    `AddUnstructured`);
  - finite-displacement XSF structures (module `DisplacedXsf`);
  - conversion of a Quantum Espresso run into an XSF structure (module `QeToXsf`).

Shared modules:
- `Wrappers` has `Option` / `Result` / `Outcome`; a Python exception becomes an error value.
- `Text` has the Python string operations the scripts use.
- `Geometry` has 3-vectors and per-atom fields.
- `Units` has the conversion factors.

Modelling conventions:
- Floating-point numbers are exact `real`s.
- `sqrt`, `exp`, Python's `float` on a token, and every ASE call are function-typed
  parameters: building slabs, adding adsorbates, rescaling positions with the cell,
  rattling, the closeness test and reading structure files.
- Random draws are parameters, with the ranges NumPy and `random` guarantee.
- A file is its list of lines.
- Each script's loops are methods proved equal to a specification function. Lemmas
  about those functions state the source's promises: counts and order of the generated
  structures, masks, clamps and the "only this changes" facts of the in-place moves,
  the disjointness of the classifications, the bounds of the error metrics, and the
  prefix structure of the database write logs.

## Model

| member | source | states |
|---|---|---|
| Text.Tokens | scripts/mlp_training/ANN-aenet/error_analysis/force_errors.py:34 | `line.split()` of every line: one token list per line, each the whitespace-separated words of that line |
| Text.Words | scripts/mlp_training/ANN-aenet/error_analysis/force_errors.py:34 | `line.split()` has at most as many words as the line has characters |
| Text.WordsAreWords | scripts/mlp_training/ANN-aenet/error_analysis/force_errors.py:34 | every token of `line.split()` is non-empty and holds no whitespace |
| Text.WordsUnwords | scripts/mlp_training/ANN-aenet/error_analysis/test_train_mae.py:23 | splitting a space-joined list of words gives the words back |
| Text.Find | scripts/mlp_training/ANN-aenet/error_analysis/Eads_errors.py:58-64 | `s.find(sub)` is -1 exactly when `sub` occurs nowhere in `s`, and otherwise its first occurrence |
| Text.Split | scripts/mlp_training/ANN-aenet/error_analysis/Eads_errors.py:127-134 | `s.split(sep)` has at least one field and no field holds `sep` |
| Text.JoinSplit | scripts/mlp_training/ANN-aenet/error_analysis/Eads_errors.py:127-134 | joining the fields of a split with the separator gives the string back |
| Text.SplitJoin | scripts/mlp_training/ANN-aenet/error_analysis/Eads_errors.py:127-134 | splitting a join gives the fields back when no field holds the separator |
| Text.LastFieldIsSuffix | scripts/mlp_training/ANN-aenet/error_analysis/Eads_errors.py:60-64 | `s.split('/')[-1]` is the part of `s` after its last `/`, or all of `s` when it holds none |
| Text.ReplaceChar | scripts/data_generation/utilties/createxsffromqe.py:40-48 | `replace('d', 'e')` swaps the one character everywhere and keeps the length |
| Text.ReplaceSuffix | scripts/data_generation/utilties/generate_displaced_xsf.py:39 | `xsf.replace('.xsf', tail)` on a name ending in its only `.xsf` replaces just that ending |
| Text.Replace | scripts/data_generation/utilties/createxsffromqe.py:35 | `s.replace(pat, rep)` keeps the length when `pat` and `rep` are equally long, and never shortens `s` when `rep` is at least as long |
| Text.NatToString | scripts/data_generation/utilties/generate_displaced_xsf.py:39 | `'%d' % n` for `n >= 0` is a non-empty string of decimal digits |
| Text.DigitsOfNat | scripts/data_generation/utilties/generate_displaced_xsf.py:39 | the digits of `'%d' % n` have the value `n` |
| Text.IntToString | scripts/data_generation/utilties/generate_displaced_xsf.py:39 | `'%d' % i` is non-empty and starts with `-` exactly for a negative `i` |
| Text.ParseInt | scripts/data_generation/utilties/createxsffromqe.py:27 | `int(tok)` fails on the empty token (its values on `'%d'` strings are `ParseIntOfString`) |
| Text.ParseIntOfString | scripts/data_generation/utilties/createxsffromqe.py:27 | `int('%d' % i) == i` for every integer `i` |
| PredictOut.Header | scripts/mlp_training/ANN-aenet/error_analysis/energy_errors.py:39-40 | a `File name` line with a fourth token that is not a `.ann` potential names a structure (token 3); a `File name` line with at most three tokens is an IndexError; every other line names nothing |
| PredictOut.NextTotal | scripts/mlp_training/ANN-aenet/error_analysis/energy_errors.py:49-55 | the first `Total` line (more than two tokens) at or after the cursor, with no `Total` line skipped; `None` when none remains |
| PredictOut.Predicted | scripts/mlp_training/ANN-aenet/error_analysis/energy_errors.py:47-55 | the prediction is token 3 of the next `Total` line below the header; the IndexError of running off the end exactly when there is no such line, and a missing-token error naming that line when it has at most three tokens |
| PredictOut.ReferenceEnergy | scripts/mlp_training/ANN-aenet/error_analysis/energy_errors.py:42-45 | `float(lin[0].split()[-2])` succeeds exactly when the first line has at least two tokens and is then the last token but one; otherwise it is the IndexError of the header that named the file |
| PredictOut.PredictedValue | scripts/mlp_training/ANN-aenet/error_analysis/energy_errors.py:47-55 | the `while abort == False` search returns token 3 of the next `Total` line below the header, or the IndexError of running off the end |
| PredictOut.EntryAt | scripts/mlp_training/ANN-aenet/error_analysis/energy_errors.py:39-57 | a line yields no entry exactly when it is not a structure header; an entry's path is the header's, its prediction is the one below it and its reference is token -2 of the structure file's first line; a structure file whose first line has fewer than two tokens is the IndexError of that header, raised before the prediction is searched for |
| PredictOut.ReadEntry | scripts/mlp_training/ANN-aenet/error_analysis/energy_errors.py:39-57 | the header branch of the loop computes exactly `EntryAt` |
| PredictOut.Entries | scripts/mlp_training/ANN-aenet/error_analysis/energy_errors.py:33-57 | the scan of the first `n` lines has at most `n` entries (one per header, in order, by `EntriesAreHeaders`) |
| PredictOut.HeaderLines | scripts/mlp_training/ANN-aenet/error_analysis/energy_errors.py:33-39 | the indices of the structure-header lines among the first `n` are all below `n` |
| PredictOut.HeaderLinesAreTheHeaders | scripts/mlp_training/ANN-aenet/error_analysis/energy_errors.py:33-39 | the header indices increase strictly, and a line is among them exactly when it is a structure header |
| PredictOut.EntriesAreHeaders | scripts/mlp_training/ANN-aenet/error_analysis/energy_errors.py:33-57 | a successful scan has exactly one entry per structure header, in file order: entry `i` is the entry of the `i`-th header line; so every entry comes from a header and there are at most as many entries as lines |
| PredictOut.HeadersAreEntries | scripts/mlp_training/ANN-aenet/error_analysis/energy_errors.py:33-57 | conversely every structure header of a successful scan gives an entry, and that entry is in the result |
| Stats.CalcErrors | scripts/mlp_training/ANN-aenet/error_analysis/energy_errors.py:60-64 | ME, MAE and MSE exist exactly when the reference is non-empty (NumPy's division by `len(reference)`) |
| Stats.ErrorMetricsBounds | scripts/mlp_training/ANN-aenet/error_analysis/energy_errors.py:60-64 | \|ME\| <= MAE, and MAE and MSE are non-negative |
| Stats.ErrorMetricsOfExactPrediction | scripts/mlp_training/ANN-aenet/error_analysis/energy_errors.py:60-64 | a prediction equal to the reference has ME = MAE = MSE = 0 |
| Stats.Max | scripts/mlp_training/ANN-aenet/error_analysis/force_errors.py:76 | `numpy.max` of a non-empty array is an element of it and bounds every element |
| Stats.MeanAtMostMax | scripts/mlp_training/ANN-aenet/error_analysis/force_errors.py:76-78 | the mean of a non-empty array never exceeds its maximum |
| Stats.Mean | scripts/active_learning/first_100.py:15 | `numpy.mean` is defined exactly for a non-empty array |
| Stats.Variance | scripts/active_learning/first_100.py:16 | \`numpy.var\` (the square of \`numpy.std\`) is defined exactly for a non-empty array |
| Units.Converted | scripts/mlp_training/ANN-aenet/error_analysis/force_errors.py:43 | forces read through ASE are divided by the Hartree factor: multiplying each converted row by 27.211386245988 gives the row back |
| EnergyErrors.CountAt | scripts/mlp_training/ANN-aenet/error_analysis/energy_errors.py:35-38 | a line yields an atom count (token 4) exactly when it starts `Number of atoms` with more than four tokens; it raises the IndexError exactly when the test reads a missing token |
| EnergyErrors.Scanned | scripts/mlp_training/ANN-aenet/error_analysis/energy_errors.py:33-57 | the scan of the first `n` lines has at most `n` counts and at most `n` entries |
| EnergyErrors.CountLines | scripts/mlp_training/ANN-aenet/error_analysis/energy_errors.py:33-38 | the indices of the `Number of atoms` lines among the first `n` are all below `n` |
| EnergyErrors.CountLinesAreTheCounts | scripts/mlp_training/ANN-aenet/error_analysis/energy_errors.py:33-38 | those indices increase strictly, and a line is among them exactly when it is a `Number of atoms` line |
| EnergyErrors.ScannedEntries | scripts/mlp_training/ANN-aenet/error_analysis/energy_errors.py:33-57 | the structures this scan finds are those of the shared header scan, and the counts are one per `Number of atoms` line, in file order: count `i` is token 4 of the `i`-th such line, so every count comes from such a line and there are at most as many as lines |
| EnergyErrors.ScannedStep | scripts/mlp_training/ANN-aenet/error_analysis/energy_errors.py:34-57 | one line appends its atom count (if any) and then its entry (if any) |
| EnergyErrors.ScanErrorPersists | scripts/mlp_training/ANN-aenet/error_analysis/energy_errors.py:33-57 | the first IndexError ends the scan: longer prefixes fail with the same error |
| EnergyErrors.GetAllValues | scripts/mlp_training/ANN-aenet/error_analysis/energy_errors.py:20-58 | the loop over the lines computes exactly the scan function `Scanned` of the whole file |
| EnergyErrors.ScanLine | scripts/mlp_training/ANN-aenet/error_analysis/energy_errors.py:34-57 | one pass of the loop body extends the scan of lines `0..a-1` to lines `0..a` |
| EnergyErrors.BroadcastLength | scripts/mlp_training/ANN-aenet/error_analysis/energy_errors.py:81 | two 1-D arrays broadcast exactly when their lengths are equal or one is 1, and the result has the longer length |
| EnergyErrors.PerAtom | scripts/mlp_training/ANN-aenet/error_analysis/energy_errors.py:80-81 | `values / counts` fails with a shape error exactly when the lengths do not broadcast, and with a zero-count error only when some count is zero; on success every divisor is a non-zero count |
| EnergyErrors.PerAtomInverse | scripts/mlp_training/ANN-aenet/error_analysis/energy_errors.py:81 | multiplying each per-atom energy by the count it was divided by gives back the total energy |
| EnergyErrors.PerAtomOfMatchingShapes | scripts/mlp_training/ANN-aenet/error_analysis/energy_errors.py:80-81 | with one non-zero count per structure each energy is divided by its own count |
| EnergyErrors.EnergyErrors | scripts/mlp_training/ANN-aenet/error_analysis/energy_errors.py:78-85 | `main` gives as many per-atom predictions as per-atom references |
| EnergyErrors.ExactPotentialHasZeroErrors | scripts/mlp_training/ANN-aenet/error_analysis/energy_errors.py:60-85 | when every prediction equals its reference, the per-atom arrays coincide and ME = MAE = MSE = 0 |
| ForceErrors.NextContaining | scripts/mlp_training/ANN-aenet/error_analysis/force_errors.py:47-50 | the first line at or after the cursor that contains the pattern, with no earlier match skipped; `None` (the IndexError) when no line does |
| ForceErrors.SkipUntil | scripts/mlp_training/ANN-aenet/error_analysis/force_errors.py:47-50 | the cursor-advancing `while ... find(pat) < 0` loop stops exactly where `NextContaining` says |
| ForceErrors.ForceRow | scripts/mlp_training/ANN-aenet/error_analysis/force_errors.py:53 | a row is accepted exactly when it has at least three tokens or exactly one (broadcast); other rows are a `BadRow` error for that line |
| ForceErrors.Rows | scripts/mlp_training/ANN-aenet/error_analysis/force_errors.py:52-54 | a successful block has exactly `n` rows and lies inside the file |
| ForceErrors.RowsAreLines | scripts/mlp_training/ANN-aenet/error_analysis/force_errors.py:52-54 | row `j` of the block is the force row of line `start + j` |
| ForceErrors.RowsFailure | scripts/mlp_training/ANN-aenet/error_analysis/force_errors.py:52-54 | the block fails exactly by running past the end of the file or at a line inside the block that is not a force row |
| ForceErrors.RowsStep | scripts/mlp_training/ANN-aenet/error_analysis/force_errors.py:52-54 | reading one more row appends that line's row, or stops with its error |
| ForceErrors.RowsErrorPersists | scripts/mlp_training/ANN-aenet/error_analysis/force_errors.py:52-54 | once the block has failed, reading further rows keeps the same error |
| ForceErrors.ReadRows | scripts/mlp_training/ANN-aenet/error_analysis/force_errors.py:44-54 | the `for j in range(len(pred_forces))` loop computes exactly `Rows` |
| ForceErrors.ForceBlock | scripts/mlp_training/ANN-aenet/error_analysis/force_errors.py:44-57 | once the reference is known, a parsed block has one predicted row per reference atom, and keeps the reference forces and energy it was given |
| ForceErrors.ReadForceBlock | scripts/mlp_training/ANN-aenet/error_analysis/force_errors.py:44-57 | the cursor-advancing loops below the header compute exactly `ForceBlock` |
| ForceErrors.ParseStructure | scripts/mlp_training/ANN-aenet/error_analysis/force_errors.py:36-57 | a parsed structure has as many predicted rows as the structure file has atoms; its reference forces are the file's forces divided by the Hartree factor and its reference energy is token -2 of the file's first line; a first line with fewer than two tokens is the IndexError of the header, raised before anything else is read |
| ForceErrors.ReadStructure | scripts/mlp_training/ANN-aenet/error_analysis/force_errors.py:42-57 | the cursor-advancing parser body for one structure computes exactly `ParseStructure` |
| ForceErrors.OneStructurePerHeader | scripts/mlp_training/ANN-aenet/error_analysis/force_errors.py:33-62 | a successful scan yields one structure per structure header, each with as many predicted as reference force rows |
| ForceErrors.StructuresErrorPersists | scripts/mlp_training/ANN-aenet/error_analysis/force_errors.py:33-62 | the first error ends the scan: longer prefixes fail with the same error |
| ForceErrors.StructuresStep | scripts/mlp_training/ANN-aenet/error_analysis/force_errors.py:33-62 | a non-header line adds nothing; a header line appends its parsed structure or stops with its error |
| ForceErrors.Structures | scripts/mlp_training/ANN-aenet/error_analysis/force_errors.py:33-62 | the scan of the first `n` lines has at most `n` structures (one per header, by `OneStructurePerHeader`) |
| ForceErrors.AllValues | scripts/mlp_training/ANN-aenet/error_analysis/force_errors.py:19-63 | a successful `get_all_values` has one structure per structure header, each with as many predicted as reference force rows |
| ForceErrors.GetAllValues | scripts/mlp_training/ANN-aenet/error_analysis/force_errors.py:19-63 | `get_all_values` computes exactly `AllValues` of the file |
| ForceErrors.ScanStructures | scripts/mlp_training/ANN-aenet/error_analysis/force_errors.py:33-62 | the `for a, line in enumerate(lines)` loop computes exactly `Structures` of the whole file |
| ForceErrors.ScanLine | scripts/mlp_training/ANN-aenet/error_analysis/force_errors.py:34-62 | one pass of the loop body extends the scan of lines `0..a-1` to lines `0..a` |
| ForceErrors.ErrorNorms | scripts/mlp_training/ANN-aenet/error_analysis/force_errors.py:73-75 | one error norm per atom: the square root of the squared length of its force difference |
| ForceErrors.ErrorsOf | scripts/mlp_training/ANN-aenet/error_analysis/force_errors.py:73-78 | a structure has errors exactly when it has atoms (`numpy.max` of an empty array raises) |
| ForceErrors.NormErrors | scripts/mlp_training/ANN-aenet/error_analysis/force_errors.py:76-78 | the max error is the error norm of some atom and bounds every atom's, and the MAE is at most the max |
| ForceErrors.ErrorBounds | scripts/mlp_training/ANN-aenet/error_analysis/force_errors.py:73-78 | 0 <= MAE <= max error and RMS >= 0; the max error is the error of some atom and bounds the error of every atom |
| ForceErrors.ExactForcesHaveZeroErrors | scripts/mlp_training/ANN-aenet/error_analysis/force_errors.py:73-78 | predicted forces equal to the reference give zero max, RMS and MAE errors |
| ForceErrors.GetForceErrors | scripts/mlp_training/ANN-aenet/error_analysis/force_errors.py:65-79 | three fresh arrays of one entry per structure; success exactly when every structure has atoms, and then entry `i` of each array is that error of structure `i`; failure names the first structure without atoms |
| ForceErrors.FillErrors | scripts/mlp_training/ANN-aenet/error_analysis/force_errors.py:72-78 | the loop writes into the three arrays by index, with the same success condition, first failure and per-entry results as `GetForceErrors` |
| ForceErrors.Averages | scripts/mlp_training/ANN-aenet/error_analysis/force_errors.py:85-87 | `numpy.average` of each error column is defined exactly when there are structures |
| ForceErrors.AverageMaeAtMostAverageMax | scripts/mlp_training/ANN-aenet/error_analysis/force_errors.py:85-87 | the average MAE never exceeds the average max error |
| Spikes.Threshold | scripts/active_learning/first_100.py:15-17 | `mean + 3 * std` of the whole array exists exactly when the array has values |
| Spikes.RowSpikes | scripts/active_learning/first_100.py:25-27 | an occurrence is recorded for a row exactly when it is at that step, its atom was already scanned and its value is above the threshold |
| Spikes.Occurrences | scripts/active_learning/first_100.py:24-27 | every recorded `(atom, step)` is an existing cell of the array whose value is above the threshold (the converse is `OccurrencesIff`) |
| Spikes.OccurrencesIff | scripts/active_learning/first_100.py:24-27 | `(atom, step)` is among the occurrences exactly when `node_sd[step, atom]` exceeds the threshold |
| Spikes.RowSpikesInOrder | scripts/active_learning/first_100.py:25-27 | the spikes of one step are listed by increasing atom |
| Spikes.OccurrencesInOrder | scripts/active_learning/first_100.py:24-27 | all occurrences are listed in step-major, atom-minor order |
| Spikes.FindSpikes | scripts/active_learning/first_100.py:22-27 | the nested `for` loops compute exactly `Occurrences` of all steps |
| Spikes.ScanRow | scripts/active_learning/first_100.py:25-27 | the inner loop appends exactly the spikes of its step |
| Spikes.RowSpikesStep | scripts/active_learning/first_100.py:25-27 | scanning one more atom appends it exactly when its value is above the threshold |
| Spikes.Insert | scripts/active_learning/first_100.py:30 | inserting into a strictly increasing list keeps it strictly increasing and adds exactly the new element |
| Spikes.UniqueSteps | scripts/active_learning/first_100.py:30 | the unique steps are strictly increasing and are exactly the steps of the occurrences |
| Spikes.IncreasingIsUnique | scripts/active_learning/first_100.py:30 | two strictly increasing lists with the same elements are equal, so `UniqueSteps` is what `sorted` of the set returns |
| Spikes.IncreasingCount | scripts/active_learning/first_100.py:31 | a strictly increasing list has as many elements as distinct values, so `unique_step_count` is the number of distinct spike steps |
| Spikes.FirstHundred | scripts/active_learning/first_100.py:37 | `unique_steps[:100]` is the prefix of length `min(100, len)` |
| Spikes.AnalyseFacts | scripts/active_learning/first_100.py:14-37 | the reported count is the number of distinct spike steps, the unique steps are exactly those steps, and the first `min(100, count)` are in increasing order |
| Spikes.Analyse | scripts/active_learning/first_100.py:29-37 | the reported count is the length of the unique steps, and the printed sample is their prefix of at most 100 |
| ShuffledSample.RangeOf | scripts/active_learning/100_from_shuffled.py:43-61 | the `if/elif` chain picks a range that holds the atom, and none only when no range does |
| ShuffledSample.RangesPartition | scripts/active_learning/100_from_shuffled.py:25-28 | the four ranges are pairwise disjoint and together cover exactly the atoms 0..143, so the chain picks the unique range of an atom |
| ShuffledSample.Members | scripts/active_learning/100_from_shuffled.py:25-28 | the index list of each range holds exactly its atoms |
| ShuffledSample.BoundIsTight | scripts/active_learning/100_from_shuffled.py:25-28 | every index of a range is below its bound, and the bound minus one is an index of the range |
| ShuffledSample.Threshold | scripts/active_learning/100_from_shuffled.py:17-22 | `calculate_average_threshold` fails exactly when some index of the range is past the last atom (IndexError) or there are no steps |
| ShuffledSample.Thresholds | scripts/active_learning/100_from_shuffled.py:43-62 | the script computes one threshold per range, four in all |
| ShuffledSample.AboveFacts | scripts/active_learning/100_from_shuffled.py:45-48 | the recorded steps of one atom are exactly the steps at which it is above the threshold, in increasing order |
| ShuffledSample.DictOtherRange | scripts/active_learning/100_from_shuffled.py:43-66 | checking an atom leaves the dictionaries of the other ranges unchanged |
| ShuffledSample.DictOwnRange | scripts/active_learning/100_from_shuffled.py:43-48 | checking an atom of a range above its threshold appends the step to its entry, creating the entry; otherwise the dictionary is unchanged |
| ShuffledSample.Dict | scripts/active_learning/100_from_shuffled.py:31-66 | a range's dictionary only has entries for atoms of that range below the atom count, each a non-empty list; a range without a threshold has an empty dictionary |
| ShuffledSample.NextStep | scripts/active_learning/100_from_shuffled.py:40-41 | finishing the atoms of a step is starting the next step, and cleanliness carries over |
| ShuffledSample.Start | scripts/active_learning/100_from_shuffled.py:31-34 | the loops start with four empty dictionaries |
| ShuffledSample.CleanEnd | scripts/active_learning/100_from_shuffled.py:40-66 | after every step has been checked without an IndexError, no range reaches past the last atom |
| ShuffledSample.FailsExactly | scripts/active_learning/100_from_shuffled.py:25-28 | the loops raise the IndexError exactly for 1-63, 65-95 and 97-143 atoms |
| ShuffledSample.CollectOccurrences | scripts/active_learning/100_from_shuffled.py:40-66 | the nested loops, recomputing the range threshold for every atom, compute exactly `Collected` |
| ShuffledSample.Collected | scripts/active_learning/100_from_shuffled.py:31-66 | the loops give four dictionaries, or the IndexError, which needs steps; with an atom count that cuts no range short they always succeed |
| ShuffledSample.CheckStep | scripts/active_learning/100_from_shuffled.py:41-66 | the inner loop for one step either raises the IndexError (which only happens when a range is cut short) or advances the dictionaries to the next step |
| ShuffledSample.CheckAtom | scripts/active_learning/100_from_shuffled.py:43-66 | one pass of the `if/elif` chain either raises the IndexError or advances the dictionaries past that atom |
| ShuffledSample.StepsInStep | scripts/active_learning/100_from_shuffled.py:71-72 | updating with one more list adds exactly its steps |
| ShuffledSample.UnionSteps | scripts/active_learning/100_from_shuffled.py:69-72 | the `all_steps.update` loops compute exactly the union of every recorded list |
| ShuffledSample.DictSteps | scripts/active_learning/100_from_shuffled.py:71-72 | the loop over one dictionary's values computes the union of its lists, in any order |
| ShuffledSample.DictFacts | scripts/active_learning/100_from_shuffled.py:40-66 | a range's final dictionary has an entry exactly for its atoms that exceed its threshold at some step, and that entry lists exactly those steps in increasing order |
| ShuffledSample.StepsUpToMembers | scripts/active_learning/100_from_shuffled.py:69-72 | a step is in the union exactly when some recorded list holds it |
| ShuffledSample.AllStepsAreSpikes | scripts/active_learning/100_from_shuffled.py:40-72 | a step is in `all_steps` exactly when some atom of a range is above its range's threshold at that step |
| ShuffledSample.OutsideNeverRecorded | scripts/active_learning/100_from_shuffled.py:40-66 | an atom outside all four ranges is never recorded |
| ShuffledSample.SampleFacts | scripts/active_learning/100_from_shuffled.py:75-79 | when the shuffled list holds each step once, the sample has `min(100, \|all_steps\|)` distinct steps of `all_steps` |
| ShuffledSample.DistinctCount | scripts/active_learning/100_from_shuffled.py:75-76 | a list without repeats has as many elements as distinct values |
| ShuffledSample.SampledSteps | scripts/active_learning/100_from_shuffled.py:40-79 | the script fails exactly when there are steps and a range is cut short by the atom count |
| ShuffledSample.SampledStepsAreSpikes | scripts/active_learning/100_from_shuffled.py:40-79 | the sample holds `min(100, \|all_steps\|)` distinct steps, each a step at which some atom of a range is above its range's threshold |
| EadsErrors.UnrelaxedContainsRelaxed | scripts/mlp_training/ANN-aenet/error_analysis/Eads_errors.py:104-105 | every path containing "unrelaxed" contains "relaxed", so the relaxed reader must exclude "unrelaxed" first |
| EadsErrors.PhasesPartition | scripts/mlp_training/ANN-aenet/error_analysis/Eads_errors.py:58-66 | a structure is kept by at most one of the two readers; it is kept by one exactly when its path contains "relaxed" and "combined" or "clean", and it is filed as combined exactly when it contains "relaxed" and "combined" |
| EadsErrors.Classify | scripts/mlp_training/ANN-aenet/error_analysis/Eads_errors.py:58-66 | a structure is kept exactly when its path has the phase's `unrelaxed`/`relaxed` test and contains `combined` or `clean`; a combined system's path contains `combined`, and a clean one's contains `clean` but not `combined` (the `elif`) |
| EadsErrors.File | scripts/mlp_training/ANN-aenet/error_analysis/Eads_errors.py:58-66 | filing one structure appends its system to the list it is classified into and leaves the other list unchanged; a dropped structure changes nothing |
| EadsErrors.Sort | scripts/mlp_training/ANN-aenet/error_analysis/Eads_errors.py:35-66 | a reader stores at most one system per scanned structure (the lists themselves are given by `SortIsFilter`) |
| EadsErrors.SortStep | scripts/mlp_training/ANN-aenet/error_analysis/Eads_errors.py:58-66 | filing one more structure extends the lists by what that structure gives |
| EadsErrors.FiledAsStep | scripts/mlp_training/ANN-aenet/error_analysis/Eads_errors.py:58-66 | a system is filed under a list after one more structure exactly when it was before or that structure is classified into that list and gives that system |
| EadsErrors.SortMembership | scripts/mlp_training/ANN-aenet/error_analysis/Eads_errors.py:58-66 | the combined list holds exactly the systems of the structures classified as combined, and the clean list exactly those classified as clean |
| EadsErrors.Filed | scripts/mlp_training/ANN-aenet/error_analysis/Eads_errors.py:58-66 | the systems of the structures classified into one list, in file order, are at most as many as the structures |
| EadsErrors.FiledAppend | scripts/mlp_training/ANN-aenet/error_analysis/Eads_errors.py:58-66 | one more structure extends that filter by its system exactly when it is classified into the list |
| EadsErrors.SortIsFilter | scripts/mlp_training/ANN-aenet/error_analysis/Eads_errors.py:35-66 | the combined list is the filter of the structures classified as combined and the clean list that of those classified as clean, each in file order with every such structure once |
| EadsErrors.EntriesErrorPersists | scripts/mlp_training/ANN-aenet/error_analysis/Eads_errors.py:35-56 | the first IndexError of the scan is the error of the whole file |
| EadsErrors.ReadValues | scripts/mlp_training/ANN-aenet/error_analysis/Eads_errors.py:23-114 | `get_all_unrelaxed_values` / `get_all_relaxed_values` compute exactly `Values` for their phase |
| EadsErrors.Values | scripts/mlp_training/ANN-aenet/error_analysis/Eads_errors.py:23-114 | a reader succeeds exactly when the scan does, fails with the scan's error, and otherwise returns the two filters of the scanned entries for its phase |
| EadsErrors.FileEntry | scripts/mlp_training/ANN-aenet/error_analysis/Eads_errors.py:58-66 | the `if/elif` appends the structure's system to the list `File` says, and to no other |
| EadsErrors.Key | scripts/mlp_training/ANN-aenet/error_analysis/Eads_errors.py:127-128 | a name has a metal pair exactly when it has at least two `_`-separated fields |
| EadsErrors.KeyOfName | scripts/mlp_training/ANN-aenet/error_analysis/Eads_errors.py:127-128 | a name `m1_m2_...` built from fields without `_` has the key `(m1, m2)` |
| EadsErrors.SearchSlab | scripts/mlp_training/ANN-aenet/error_analysis/Eads_errors.py:132-137 | the inner loop finds the first slab with the combined system's metals with every earlier slab a non-match; it finds none only when no remaining slab matches; it fails with the IndexError of a slab name with fewer than two fields |
| EadsErrors.Adsorption | scripts/mlp_training/ANN-aenet/error_analysis/Eads_errors.py:116-142 | the corrected pairing gives one predicted and one reference value per combined system |
| EadsErrors.AdsorptionAsWritten | scripts/mlp_training/ANN-aenet/error_analysis/Eads_errors.py:116-142 | the loop as written, with `idx_slab` never reset, gives one predicted and one reference value per combined system when it succeeds |
| EadsErrors.AdsorptionPairsWithOwnSlab | scripts/mlp_training/ANN-aenet/error_analysis/Eads_errors.py:125-141 | each value is the difference of the combined system's energy and that of the first clean slab of the same two metals, with the same slab for the predicted and the reference value |
| EadsErrors.NoSlabMeansNoMatch | scripts/mlp_training/ANN-aenet/error_analysis/Eads_errors.py:125-141 | a missing-slab error names a combined system none of whose slabs share its metals |
| EadsErrors.LastMatch | scripts/mlp_training/ANN-aenet/error_analysis/Eads_errors.py:129-137 | the stale `idx_slab` of the script is an index into the slabs |
| EadsErrors.AsWrittenAgreesWhenSlabsComplete | scripts/mlp_training/ANN-aenet/error_analysis/Eads_errors.py:125-141 | when every combined system has a slab of its own, the script as written computes the intended values |
| EadsErrors.StaleSlabIndex | scripts/mlp_training/ANN-aenet/error_analysis/Eads_errors.py:125-141 | a concrete input where the script as written pairs a combined system with the slab of the previous one, while the corrected pairing reports the missing slab |
| EadsErrors.AdsorptionEnergies | scripts/mlp_training/ANN-aenet/error_analysis/Eads_errors.py:116-142 | the nested loop with the inner `for ... break`, with the corrected pairing, computes exactly the corrected `Adsorption` |
| EadsErrors.AdsorptionErrorPersists | scripts/mlp_training/ANN-aenet/error_analysis/Eads_errors.py:125-141 | an error on a prefix of the combined systems is the error of the whole list |
| EadsErrors.PhaseAdsorption | scripts/mlp_training/ANN-aenet/error_analysis/Eads_errors.py:167-170 | one phase yields as many predicted as reference adsorption energies |
| EadsErrors.EadsErrors | scripts/mlp_training/ANN-aenet/error_analysis/Eads_errors.py:164-176 | `main` with the corrected pairing yields as many predicted as reference adsorption energies over both phases |
| EadsErrors.ExactPotentialHasZeroErrors | scripts/mlp_training/ANN-aenet/error_analysis/Eads_errors.py:164-176 | when every scanned structure has equal predicted and reference energies, the adsorption energies coincide and ME = MAE = MSE = 0 |
| EadsErrors.PhaseExact | scripts/mlp_training/ANN-aenet/error_analysis/Eads_errors.py:167-170 | for an exact scan each phase's predicted and reference adsorption energies coincide |
| EadsErrors.SortKeepsExact | scripts/mlp_training/ANN-aenet/error_analysis/Eads_errors.py:58-66 | filing exact structures gives exact systems |
| EadsErrors.AdsorptionOfExact | scripts/mlp_training/ANN-aenet/error_analysis/Eads_errors.py:140-141 | pairing exact systems gives equal predicted and reference adsorption energies |
| TrainTestMae.Then | scripts/mlp_training/ANN-aenet/error_analysis/test_train_mae.py:34-36 | appending to the three arrays keeps them the same length |
| TrainTestMae.Block | scripts/mlp_training/ANN-aenet/error_analysis/test_train_mae.py:26-36 | a block read below a banner stops at the first blank line, which exists, and every step is the offset of its row, counting up from the first offset |
| TrainTestMae.BlockRows | scripts/mlp_training/ANN-aenet/error_analysis/test_train_mae.py:29-36 | row `k` of a block is read from the non-blank line `a + i + k`: its token 1 is the training MAE and its token 3 the test MAE |
| TrainTestMae.PrefixedNothing | scripts/mlp_training/ANN-aenet/error_analysis/test_train_mae.py:18-20 | appending a block to the empty arrays gives the block |
| TrainTestMae.BlockStep | scripts/mlp_training/ANN-aenet/error_analysis/test_train_mae.py:29-36 | a non-blank row with at least four tokens appends its two MAEs and its offset and continues on the next line |
| TrainTestMae.ReadBlock | scripts/mlp_training/ANN-aenet/error_analysis/test_train_mae.py:26-36 | the `while not stop` loop from `i = 252` computes exactly `Block` from offset 253 |
| TrainTestMae.Scanned | scripts/mlp_training/ANN-aenet/error_analysis/test_train_mae.py:22-36 | the three arrays are aligned and every step is at least 253 |
| TrainTestMae.NoBannerNoCurves | scripts/mlp_training/ANN-aenet/error_analysis/test_train_mae.py:24-25 | a file without a `TRAIN`/`TEST` banner line gives empty curves |
| TrainTestMae.ScannedStep | scripts/mlp_training/ANN-aenet/error_analysis/test_train_mae.py:22-36 | a banner line appends its block (or stops with its error), any other line changes nothing |
| TrainTestMae.ScanErrorPersists | scripts/mlp_training/ANN-aenet/error_analysis/test_train_mae.py:22-36 | the first IndexError of the scan is the error of the whole file |
| TrainTestMae.GetTrainTestMae | scripts/mlp_training/ANN-aenet/error_analysis/test_train_mae.py:9-37 | `get_train_test_MAE` computes exactly `TrainTest` of the file |
| TrainTestMae.TrainTest | scripts/mlp_training/ANN-aenet/error_analysis/test_train_mae.py:9-37 | a file with no `TRAIN`/`TEST` banner line gives three empty arrays (its contents are given by `Scanned` and `Block`) |
| TrainTestMae.ScanLines | scripts/mlp_training/ANN-aenet/error_analysis/test_train_mae.py:22-36 | the `for a, line in enumerate(lines)` loop computes exactly `Scanned` of all lines |
| DisplacedXsf.AtomTriples | scripts/data_generation/utilties/generate_displaced_xsf.py:29-33 | the triples of one atom name that atom and one of the axes scanned so far |
| DisplacedXsf.Triples | scripts/data_generation/utilties/generate_displaced_xsf.py:28-33 | every triple names an existing atom and an axis below 3 |
| DisplacedXsf.AtomTriplesMembers | scripts/data_generation/utilties/generate_displaced_xsf.py:29-33 | a triple of one atom is written exactly when its axis is trained (`z`, or an in-plane force of at least 0.001) and its sign is -1 or +1 |
| DisplacedXsf.TriplesMembers | scripts/data_generation/utilties/generate_displaced_xsf.py:28-33 | a triple is written exactly when `Written` holds: atom in range, trained axis, sign -1 or +1 |
| DisplacedXsf.ConcatInOrder | scripts/data_generation/utilties/generate_displaced_xsf.py:28-33 | joining two ordered lists, the first wholly before the second, keeps the order |
| DisplacedXsf.AtomTriplesInOrder | scripts/data_generation/utilties/generate_displaced_xsf.py:29-33 | one atom's triples are in axis-then-sign order |
| DisplacedXsf.TriplesInOrder | scripts/data_generation/utilties/generate_displaced_xsf.py:28-33 | the files are written in strictly increasing `(iatom, j, k)` order, so no file is written twice |
| DisplacedXsf.Displacement | scripts/data_generation/utilties/generate_displaced_xsf.py:34-35 | `displace` is zero except for `delta * k` at `[iatom][j]` |
| DisplacedXsf.DotOfDisplacementPrefix | scripts/data_generation/utilties/generate_displaced_xsf.py:37 | the dot product over a prefix of the atoms picks the displaced component when the atom is in the prefix |
| DisplacedXsf.DotOfDisplacement | scripts/data_generation/utilties/generate_displaced_xsf.py:37 | `np.dot(displace.flat, forces.flat)` is the displaced component times the force on it |
| DisplacedXsf.OutputName | scripts/data_generation/utilties/generate_displaced_xsf.py:39 | the output name is at least as long as the input name (its exact form is `OutputNameOfStem`) |
| DisplacedXsf.OutputNameOfStem | scripts/data_generation/utilties/generate_displaced_xsf.py:16-39 | the output name of `<stem>.xsf` is `<stem>_FFF_i_j_k.xsf`, which a later run skips as generated |
| DisplacedXsf.ShiftedEnergy | scripts/data_generation/utilties/generate_displaced_xsf.py:37 | the new energy is the old one minus `0.05 k F[iatom][j]`, the work of the move |
| DisplacedXsf.MovedPositions | scripts/data_generation/utilties/generate_displaced_xsf.py:36 | atom `iatom` moves by `0.05 k` along axis `j` and no other atom moves |
| DisplacedXsf.Displaced | scripts/data_generation/utilties/generate_displaced_xsf.py:34-47 | a written file has the output name and the original cell, moves one atom by `0.05 k` and no other, lowers the energy by the work of that move and has zero forces |
| DisplacedXsf.FirstEnergy | scripts/data_generation/utilties/generate_displaced_xsf.py:25 | the energy of the first line exists exactly when it has at least two tokens |
| DisplacedXsf.Files | scripts/data_generation/utilties/generate_displaced_xsf.py:20-48 | a structure fails exactly when its first line has no energy token |
| DisplacedXsf.FilesAreWrittenTriples | scripts/data_generation/utilties/generate_displaced_xsf.py:23-48 | one file per written triple, in loop order, each the displaced structure of its triple with the Hartree-scaled forces |
| DisplacedXsf.ZAlwaysDisplaced | scripts/data_generation/utilties/generate_displaced_xsf.py:30-33 | axis `z` is displaced both ways for every atom, whatever its force |
| DisplacedXsf.FilesOfAppend | scripts/data_generation/utilties/generate_displaced_xsf.py:33-48 | writing one more file extends the files by that triple's file |
| DisplacedXsf.GenerateFrom | scripts/data_generation/utilties/generate_displaced_xsf.py:20-48 | the triple loops of one structure compute exactly `Files` |
| DisplacedXsf.AtomFiles | scripts/data_generation/utilties/generate_displaced_xsf.py:29-48 | the axis loop of one atom appends the files of that atom's triples |
| DisplacedXsf.AxisFiles | scripts/data_generation/utilties/generate_displaced_xsf.py:33-48 | the `for k in (-1, 1)` loop of one trained axis appends its two files |
| DisplacedXsf.AllFiles | scripts/data_generation/utilties/generate_displaced_xsf.py:14-48 | a glob of generated names only writes no file |
| DisplacedXsf.AllFilesErrorPersists | scripts/data_generation/utilties/generate_displaced_xsf.py:15-25 | the first failing structure is the failure of the whole run |
| DisplacedXsf.GenerateAll | scripts/data_generation/utilties/generate_displaced_xsf.py:14-48 | the loop over the globbed names, skipping generated ones, computes exactly `AllFiles` |
| QeToXsf.LastFour | scripts/data_generation/utilties/createxsffromqe.py:10 | `s[-4:]` is the suffix of length `min(4, len(s))` |
| QeToXsf.UsageOk | scripts/data_generation/utilties/createxsffromqe.py:10-12 | the script goes on exactly when it has two arguments and the first does not end in `.inp` |
| QeToXsf.AtomicReference | scripts/data_generation/utilties/createxsffromqe.py:17-21 | a reference energy exists exactly for H and Pt (any other species is the KeyError) |
| QeToXsf.ReferenceTotal | scripts/data_generation/utilties/createxsffromqe.py:74-75 | the only failure of summing references is an unknown species |
| QeToXsf.ReferenceTotalCounts | scripts/data_generation/utilties/createxsffromqe.py:74-75 | the references sum exactly when every species is H or Pt, to one H reference per H and one Pt reference per Pt; otherwise the error names an atom that is neither |
| QeToXsf.Referenced | scripts/data_generation/utilties/createxsffromqe.py:74-75 | subtracting the references succeeds exactly when every species is H or Pt, and then removes one H reference per H and one Pt reference per Pt |
| QeToXsf.SubtractReferences | scripts/data_generation/utilties/createxsffromqe.py:74-75 | the loop `energy -= atomic_reference(s)` computes exactly `Referenced` |
| QeToXsf.ReferenceErrorPersists | scripts/data_generation/utilties/createxsffromqe.py:74-75 | the first missing reference is the error of the whole loop |
| QeToXsf.NextContaining | scripts/data_generation/utilties/createxsffromqe.py:68-78 | the first line at or after the cursor containing the marker, with no earlier match skipped; `None` when none does |
| QeToXsf.Seek | scripts/data_generation/utilties/createxsffromqe.py:68-78 | the cursor loop `while output[j].find(sub) < 0: j += 1` stops exactly where `NextContaining` says |
| QeToXsf.LastContaining | scripts/data_generation/utilties/createxsffromqe.py:63-66 | the last line containing the marker, with no later match; `None` when no line does |
| QeToXsf.LastEnergyLine | scripts/data_generation/utilties/createxsffromqe.py:63-66 | the `for i, s in enumerate(output)` loop leaves `j` at the last `!    total energy` line, or 0 |
| QeToXsf.AtomCount | scripts/data_generation/utilties/createxsffromqe.py:23-29 | the count is `int` of the last token of the first `number of atoms/cell` line and reading resumes after it; with no such line there is no count and the whole output is consumed; a malformed count is `BadAtomCount` |
| QeToXsf.FindAtomCount | scripts/data_generation/utilties/createxsffromqe.py:23-29 | the `readline` loop computes exactly `AtomCount` |
| QeToXsf.FixExponentFacts | scripts/data_generation/utilties/createxsffromqe.py:40-48 | `.replace('d', 'e')` keeps the length, turns every `d` into `e`, changes nothing else and leaves no `d` |
| QeToXsf.FixExponent | scripts/data_generation/utilties/createxsffromqe.py:40-48 | `.replace('d', 'e')` keeps the length |
| QeToXsf.Reals | scripts/data_generation/utilties/createxsffromqe.py:40 | `[float(x) for x in tokens]` reads each token in place |
| QeToXsf.CellRows | scripts/data_generation/utilties/createxsffromqe.py:39-40 | the three cell rows are read from the three lines after the header |
| QeToXsf.ReadCell | scripts/data_generation/utilties/createxsffromqe.py:39-40 | `for i in range(3): cell.append(...)` computes exactly `CellRows` |
| QeToXsf.Species | scripts/data_generation/utilties/createxsffromqe.py:45-46 | stripping trailing digits leaves a non-empty prefix not ending in a digit, with only digits removed; an all-digit label is the IndexError |
| QeToXsf.StripDigits | scripts/data_generation/utilties/createxsffromqe.py:45-46 | the `while a[-1].isdigit()` loop computes exactly `Species` |
| QeToXsf.PositionAt | scripts/data_generation/utilties/createxsffromqe.py:44-48 | an atom line yields a stripped label, or fails only by not unpacking into four tokens or by an all-digit label |
| QeToXsf.ReadPosition | scripts/data_generation/utilties/createxsffromqe.py:44-48 | one pass of the atom loop computes exactly `PositionAt` |
| QeToXsf.Positions | scripts/data_generation/utilties/createxsffromqe.py:43-48 | `natoms` atom lines give `natoms` stripped labels and coordinate triples, or the first line's unpacking or label error |
| QeToXsf.PositionsErrorPersists | scripts/data_generation/utilties/createxsffromqe.py:43-48 | the first bad atom line is the error of the whole block |
| QeToXsf.ReadPositions | scripts/data_generation/utilties/createxsffromqe.py:43-48 | the `for i in range(natoms)` loop computes exactly `Positions` |
| QeToXsf.HeaderAt | scripts/data_generation/utilties/createxsffromqe.py:38-51 | one pass of the input loop moves past the line, adds three cell rows exactly for a CELL_PARAMETERS line and paired stripped atoms for a positions block; it stops with exit(2) exactly for a positions header not in crystal units |
| QeToXsf.AtomsBlock | scripts/data_generation/utilties/createxsffromqe.py:42-48 | a crystal block keeps the cell rows read before it and pairs labels with coordinates; it fails with NameError exactly when `natoms` was never assigned |
| QeToXsf.ReadHeader | scripts/data_generation/utilties/createxsffromqe.py:38-51 | the body of `while s != ''` computes exactly `HeaderAt` |
| QeToXsf.InputFrom | scripts/data_generation/utilties/createxsffromqe.py:36-52 | what the input loop reads from a line on only extends the cell rows, labels and coordinates read before it |
| QeToXsf.ReadAtoms | scripts/data_generation/utilties/createxsffromqe.py:42-48 | the crystal branch computes exactly `AtomsBlock` |
| QeToXsf.InputFacts | scripts/data_generation/utilties/createxsffromqe.py:36-52 | the input loop keeps labels and coordinates paired and every label stripped, never loses cell rows, and an exit(2) names a positions header not in crystal units |
| QeToXsf.ReadInput | scripts/data_generation/utilties/createxsffromqe.py:31-53 | the loop `while s != ''` computes exactly `InputFrom` from the first line |
| QeToXsf.RydbergToEvScales | scripts/data_generation/utilties/createxsffromqe.py:72-80 | the energy conversion multiplies by `rydberg` and the force conversion by `rydberg / bohr` |
| QeToXsf.RawEnergy | scripts/data_generation/utilties/createxsffromqe.py:63-72 | reading the raw energy fails only by running off the output or by a line with too few tokens |
| QeToXsf.RawEnergyRead | scripts/data_generation/utilties/createxsffromqe.py:63-72 | the raw energy is token -2 of the last energy line less half token -2 of the first smearing line after it, in eV, and the force search starts at that smearing line |
| QeToXsf.RawEnergyPastEnd | scripts/data_generation/utilties/createxsffromqe.py:63-69 | running off the output means the output is empty or no smearing line follows the energy line |
| QeToXsf.SmearedEnergy | scripts/data_generation/utilties/createxsffromqe.py:67-72 | subtracting half a non-negative smearing term never raises the energy, and a zero term leaves the converted total energy |
| QeToXsf.EnergyOf | scripts/data_generation/utilties/createxsffromqe.py:63-75 | the energy fails only by running off the output, a missing token or an unknown species |
| QeToXsf.EnergyOfHydrogenOnPlatinum | scripts/data_generation/utilties/createxsffromqe.py:63-75 | the energy exists exactly when every atom is H or Pt, and is then the raw energy less one H reference per H and one Pt reference per Pt |
| QeToXsf.ReadRawEnergy | scripts/data_generation/utilties/createxsffromqe.py:63-72 | the cursor loops before the force block compute exactly `RawEnergy` |
| QeToXsf.ReadEnergy | scripts/data_generation/utilties/createxsffromqe.py:63-75 | the energy statements compute exactly `EnergyOf` |
| QeToXsf.LastThree | scripts/data_generation/utilties/createxsffromqe.py:80 | `t[-3:]` has `min(3, len(t))` tokens |
| QeToXsf.ForceRow | scripts/data_generation/utilties/createxsffromqe.py:80 | `t[-3:]` of a force line gives at most three components |
| QeToXsf.ForcesFrom | scripts/data_generation/utilties/createxsffromqe.py:77-80 | the force rows exist exactly when a `force =` line follows the smearing line and `natoms` lines fit from it; row `i` is read from the `i`-th line from it; otherwise the IndexError |
| QeToXsf.RowsFrom | scripts/data_generation/utilties/createxsffromqe.py:79-80 | `n` rows from line `f` exist exactly when they fit in the output, and row `i` is read from line `f + i` |
| QeToXsf.Rows | scripts/data_generation/utilties/createxsffromqe.py:79-80 | one row per line |
| QeToXsf.RowsAt | scripts/data_generation/utilties/createxsffromqe.py:79-80 | row `i` is the row of line `i` |
| QeToXsf.ForceRowFacts | scripts/data_generation/utilties/createxsffromqe.py:80 | a force row holds the last three tokens of its line, each converted from Rydberg per Bohr to eV per Angstrom |
| QeToXsf.ReadForces | scripts/data_generation/utilties/createxsffromqe.py:77-80 | the force search and the row loop compute exactly `ForcesFrom` |
| QeToXsf.RowsStep | scripts/data_generation/utilties/createxsffromqe.py:79-80 | one more line gives one more row, that line's |
| QeToXsf.ReadRows | scripts/data_generation/utilties/createxsffromqe.py:79-80 | the `for i in range(j, j+natoms)` loop computes exactly `RowsFrom` |
| QeToXsf.CartesianAll | scripts/data_generation/utilties/createxsffromqe.py:55-57 | `set_cell(cell, scale_atoms=True)` puts every atom at its crystal coordinates times the cell |
| QeToXsf.FirstUnprintable | scripts/data_generation/utilties/createxsffromqe.py:89-90 | the first atom whose line would index past its force row (fewer than three entries, or no row at all), with every earlier atom printable; none exactly when every atom is printable |
| QeToXsf.WriteAtoms | scripts/data_generation/utilties/createxsffromqe.py:89-90 | the `for i,a in enumerate(at)` loop finds exactly `FirstUnprintable` |
| QeToXsf.Written | scripts/data_generation/utilties/createxsffromqe.py:82-91 | the write loop fails exactly when some atom cannot be printed, naming one that cannot; on success the record holds the energy, cell, atoms, Cartesian positions and forces |
| QeToXsf.Finish | scripts/data_generation/utilties/createxsffromqe.py:55-91 | a finished conversion keeps the input's cell and atoms, has a cell of three rows of three and one force row per counted atom, every atom printable, and positions from `set_cell`; any other cell is the ValueError of `set_cell` |
| QeToXsf.Conversion | scripts/data_generation/utilties/createxsffromqe.py:10-91 | bad arguments are the usage exit; a converted run has a three-by-three cell, one force row per counted atom and no more atoms than force rows |
| QeToXsf.ConversionFacts | scripts/data_generation/utilties/createxsffromqe.py:10-91 | a converted run had valid arguments, pairs every stripped label with a coordinate triple, has one force row per counted atom and its count is that of the first atom-count line; its cell has three rows of three, every atom has a three-entry force row (so `|symbols| <= natoms`), and the printed positions are the crystal coordinates times the cell |
| QeToXsf.NotCrystalNamesHeader | scripts/data_generation/utilties/createxsffromqe.py:41-51 | an exit(2) names a positions header of the input not in crystal units |
| QeToXsf.CreateXsf | scripts/data_generation/utilties/createxsffromqe.py:10-91 | the script from the argument check to the write loop computes exactly `Conversion` |
| Ensemble.ModeIndex | scripts/nn_ensembles/Calculators/mixing_modified.py:147-150 | `list.index` of the force mode: the first position holding the name, and the ValueError exactly for a name not in the list |
| Ensemble.CommonProperties | scripts/nn_ensembles/Calculators/mixing_modified.py:136 | `set.intersection` holds exactly the properties every member implements |
| Ensemble.Configure | scripts/nn_ensembles/Calculators/mixing_modified.py:129-150 | the constructor's checks in order: no members, no common property, a weight count unlike the member count, an unknown force mode; on success the common properties and the mode's index |
| Ensemble.AverageWeights | scripts/nn_ensembles/Calculators/mixing_modified.py:333 | `[1 / n] * n`: n weights of `1/n` |
| Ensemble.UnitWeights | scripts/nn_ensembles/Calculators/mixing_modified.py:310 | `[1.] * n`: n weights of 1 |
| Ensemble.WSumF | scripts/nn_ensembles/Calculators/mixing_modified.py:179-184 | the weighted force sum has one row per atom |
| Ensemble.SpreadPrefix | scripts/nn_ensembles/Calculators/mixing_modified.py:191-193 | adding a member adds its weighted squared deviations to the energy and force spreads |
| Ensemble.WCovF | scripts/nn_ensembles/Calculators/mixing_modified.py:200-202 | the covariance field has one row per atom |
| Ensemble.CovTerm | scripts/nn_ensembles/Calculators/mixing_modified.py:202 | one member's covariance term has one row per atom |
| Ensemble.CovarianceStep | scripts/nn_ensembles/Calculators/mixing_modified.py:201-202 | the covariance over all members is that over all but the last plus the last member's term |
| Ensemble.CovariancePrefix | scripts/nn_ensembles/Calculators/mixing_modified.py:201-202 | adding a member adds its covariance term |
| Ensemble.Bias | scripts/nn_ensembles/Calculators/mixing_modified.py:204-217 | the bias modes keep one force row per atom |
| Ensemble.StaleMembers | scripts/nn_ensembles/Calculators/mixing_modified.py:169-171 | the members waited for are exactly those whose `calculation_required` answered True, in member order |
| Ensemble.SyncAll | scripts/nn_ensembles/Calculators/mixing_modified.py:174-175 | the `multiprocsync` loop succeeds exactly when every waited member's worker replied, and otherwise is the RuntimeError of the first that did not |
| Ensemble.AccumulateEnergy | scripts/nn_ensembles/Calculators/mixing_modified.py:179-184 | the first member's term is stored where there was no result and later terms are added: the previous energy (or nothing) plus Σ wᵢ·Eᵢ |
| Ensemble.CombinedEnergy | scripts/nn_ensembles/Calculators/mixing_modified.py:179-184 | with unit weights the combined energy adds the members' energies to the previous one, and with weights `1/n` it adds their mean |
| Ensemble.AccumulateForces | scripts/nn_ensembles/Calculators/mixing_modified.py:179-184 | the same for the forces: the previous forces (or zeros) plus Σ wᵢ·Fᵢ |
| Ensemble.Spreads | scripts/nn_ensembles/Calculators/mixing_modified.py:187-193 | the loop computes exactly the weighted squared spreads of the energies and of the force fields about the combined result |
| Ensemble.Covariance | scripts/nn_ensembles/Calculators/mixing_modified.py:200-202 | the loop from `np.zeros_like(Fave)` computes exactly the weighted energy-force covariance |
| Ensemble.CombinedForces | scripts/nn_ensembles/Calculators/mixing_modified.py:179-184 | the combined forces have one row per atom |
| Ensemble.LinearCombination.Calculate | scripts/nn_ensembles/Calculators/mixing_modified.py:157-217 | an unsupported property raises and changes nothing; otherwise the waited members are those needing a calculation; a waited member whose worker fails its `multiprocsync` raises the RuntimeError and changes nothing; otherwise the results are the previous ones plus the weighted sums, the spreads are recomputed only when some member was waited for, and in modes 1-3 the mean is kept aside and the results become the bias, with no atoms raising the ZeroDivisionError |
| Ensemble.LinearCombination.Disperse | scripts/nn_ensembles/Calculators/mixing_modified.py:186-217 | the spreads about the combined result; mode 0 keeps the results; modes 1-3 keep the mean aside and replace the results by the bias, or raise for no atoms |
| Ensemble.LinearCombination.ResetVarscale | scripts/nn_ensembles/Calculators/mixing_modified.py:219-222 | outside the metadynamics modes the RuntimeError and no change; in them the new `varscale` |
| Ensemble.LinearCombination.Reset | scripts/nn_ensembles/Calculators/mixing_modified.py:224-226 | the combined results are cleared |
| Ensemble.LinearCombination.SetWeights | scripts/nn_ensembles/Calculators/mixing_modified.py:272-274 | the two weights become `[w1, w2]` |
| Ensemble.NewLinearCombination | scripts/nn_ensembles/Calculators/mixing_modified.py:116-155 | the constructor fails exactly as `Configure` does; on success a fresh calculator with the given weights, the common properties, the mode index, the given scales and no results or spreads |
| Ensemble.NewAverage | scripts/nn_ensembles/Calculators/mixing_modified.py:318-334 | no members is the ValueError; otherwise it fails as `Configure` with weights `1/n`, and on success has those weights and no results |
| Ensemble.NewSum | scripts/nn_ensembles/Calculators/mixing_modified.py:301-311 | fails as `Configure` with unit weights and mode "average", and on success has unit weights, mode 0 and no results |
| Ensemble.NewMixed | scripts/nn_ensembles/Calculators/mixing_modified.py:269-270 | a two-member mix fails exactly when the members share no property |
| Ensemble.WSumOfEqualWeights | scripts/nn_ensembles/Calculators/mixing_modified.py:179-184 | equal weights c give c times the plain sum |
| Ensemble.SumCalculatorSums | scripts/nn_ensembles/Calculators/mixing_modified.py:301-311 | a `SumCalculator` adds its members' energies |
| Ensemble.AverageCalculatorAverages | scripts/nn_ensembles/Calculators/mixing_modified.py:318-334 | an `AverageCalculator` returns the mean of its members' energies |
| Ensemble.AverageWeightsScale | scripts/nn_ensembles/Calculators/mixing_modified.py:333 | weighting by `1/n` is dividing the sum by n |
| Ensemble.WSumOfAgreement | scripts/nn_ensembles/Calculators/mixing_modified.py:179-184 | members reporting the same value give that value times the total weight |
| Ensemble.AverageOfAgreeingMembers | scripts/nn_ensembles/Calculators/mixing_modified.py:318-334 | averaging members that agree on the energy gives that energy |
| Ensemble.SpreadNonNegative | scripts/nn_ensembles/Calculators/mixing_modified.py:191-192 | with non-negative weights the energy spread is non-negative, so `std_energy` is real |
| Ensemble.SpreadFNonNegative | scripts/nn_ensembles/Calculators/mixing_modified.py:191-193 | with non-negative weights the force spread is non-negative |
| Ensemble.SpreadOfAgreement | scripts/nn_ensembles/Calculators/mixing_modified.py:191-192 | members agreeing with the combined energy have no energy spread |
| Ensemble.SpreadFOfAgreement | scripts/nn_ensembles/Calculators/mixing_modified.py:191-193 | members agreeing with the combined forces have no force spread |
| Ensemble.CovarianceOfAgreement | scripts/nn_ensembles/Calculators/mixing_modified.py:200-204 | members agreeing on the energy give a zero covariance, so the vargrad force vanishes |
| Ensemble.CovTermOfAgreement | scripts/nn_ensembles/Calculators/mixing_modified.py:202 | a member at the mean energy contributes a zero covariance term |
| Ensemble.VargradEnergyNonNegative | scripts/nn_ensembles/Calculators/mixing_modified.py:205-209 | in vargrad mode the reported energy, the per-atom variance, is never negative |
| Ensemble.MetamixIsMeanPlusMeta | scripts/nn_ensembles/Calculators/mixing_modified.py:210-217 | metamix reports the ensemble mean plus exactly the energy and forces of the metadynamics mode |
| Ensemble.ThreeMemberExample | scripts/nn_ensembles/Calculators/mixing_modified.py:179-195 | weights 0.2, 0.3, 0.5 and energies 1, 2, 3 combine to 2.3 with squared spread 0.61 |
| Ensemble.FirstIndex | scripts/nn_ensembles/Calculators/mixing_modified.py:89 | `s.index(x)` is the first position holding `x` |
| Ensemble.RemoveFirst | scripts/nn_ensembles/Calculators/mixing_modified.py:89 | `del s[s.index(x)]` removes exactly one `x` |
| Ensemble.FirstUnknown | scripts/nn_ensembles/Calculators/mixing_modified.py:90-95 | the first property the worker front end does not implement, with every earlier one implemented |
| Ensemble.Broadcast | scripts/nn_ensembles/Calculators/mixing_modified.py:87 | `self.spos[:][:] = atoms.positions` succeeds exactly when the positions have one row per buffer row or a single row, which is then copied to every row |
| Ensemble.MultiProcess.constructor | scripts/nn_ensembles/Calculators/mixing_modified.py:40-66 | the calculator keeps the configuration the worker is started with, the starting species, cell and positions, and has no results and no requests |
| Ensemble.MultiProcess.Calculate | scripts/nn_ensembles/Calculators/mixing_modified.py:78-95 | as written: the call's species and cell become `self.atoms` (the base `calculate` of line 81), so the test of line 85 never raises; nothing is done when no change is reported and every property has a result; otherwise the positions are copied to the shared buffer (the ValueError of NumPy, changing nothing, when they do not broadcast), `energy` is dropped when `forces` is also asked for, and one request is sent per implemented property before the first unknown one, which raises NotImplementedError |
| Ensemble.MultiProcess.CalculateChecked | scripts/nn_ensembles/Calculators/mixing_modified.py:78-95 | with the test of line 85 made against the worker's configuration: as `Calculate`, except that a species or cell change raises the ValueError and changes nothing |
| Ensemble.MultiProcess.Send | scripts/nn_ensembles/Calculators/mixing_modified.py:87-95 | the copy of the positions and the requests: a shape mismatch changes nothing, and otherwise one request per implemented property before the first unknown one |
| Ensemble.SpeciesChangeGoesUnnoticed | scripts/nn_ensembles/Calculators/mixing_modified.py:78-95 | a worker started on hydrogen, asked for platinum in the same cell: as written the call passes and one request is sent, while the checked version raises the ValueError |
| Ensemble.MultiProcess.Sync | scripts/nn_ensembles/Calculators/mixing_modified.py:106-109 | a failed reply raises the RuntimeError and keeps the energy; otherwise the energy is the one in shared memory |
| Slab.StrainedCell | scripts/data_generation/structured_seed/surfaces_from_bulk.py:18-22 | straining keeps three cell rows |
| Slab.StrainInverse | scripts/data_generation/structured_seed/bulk.py:18-31 | straining the same rows by `1/s` undoes a strain by `s` |
| Slab.StrainCompose | scripts/data_generation/structured_seed/bulk.py:18-31 | two strains of the same rows are one strain by the product |
| Slab.Strained | scripts/data_generation/structured_seed/bulk.py:18-31 | a strained structure has the strained cell, still three rows, and keeps its atoms when the rescaling does |
| Slab.TopLayerMoved | scripts/data_generation/structured_seed/surfaces_from_bulk.py:25-33 | `move_top_layer(atoms, disp)` changes only heights: every atom within 0.01 of the last atom's height, the last atom included, is raised by `disp`, and no other atom moves |
| Slab.SurfaceShift | scripts/data_generation/unstructured_seed/add_unstructured_fcc111.py:42-43 | `surfvec` lies in [-0.2, 0.2) per component, with the height at least -0.08 |
| Slab.AdsorbateShift | scripts/data_generation/unstructured_seed/add_unstructured_fcc111.py:45-47 | `adsvec` lies in [-1.5, 1.5) per component, with the height at least -0.2 |
| Slab.Jiggled | scripts/data_generation/unstructured_seed/add_unstructured_fcc111.py:33-53 | the layer of the second-to-last atom moves by `surfvec`, that atom included, and atoms below that layer stay |
| Slab.JiggledBounds | scripts/data_generation/unstructured_seed/add_unstructured_fcc111.py:33-53 | with the random draws in range no atom moves more than 1.5 along x or y or down by more than 0.2; the reference layer moves at most 0.2 along x and y and at most 0.08 down; atoms outside the layer and not more than 0.2 above it stay |
| Slab.JiggleDeltaNext | scripts/data_generation/unstructured_seed/add_unstructured_fcc111.py:48-52 | handling atom `i` changes only its own displacement: `surfvec` in the layer, `adsvec` more than 0.2 above it, else zero |
| Slab.JiggledByDelta | scripts/data_generation/unstructured_seed/add_unstructured_fcc111.py:53 | adding the completed displacement array gives the jiggled positions |
| Slab.RowMinFacts | scripts/data_generation/structured_seed/surfaces_from_bulk.py:47-50 | the inner loop's minimum is at most the start, at most every later pair distance of the atom, and is the start or one of them |
| Slab.PairMinFacts | scripts/data_generation/structured_seed/surfaces_from_bulk.py:46-50 | the double loop's minimum is at most the start, at most every pair distance, and is the start or one of them |
| Slab.MinSquaredIsMinimum | scripts/data_generation/structured_seed/surfaces_from_bulk.py:45-50 | the search from `1e80` finds the least squared pair distance (or `1e80` when no pair is closer) |
| Slab.MinimumUnique | scripts/data_generation/structured_seed/surfaces_from_bulk.py:45-50 | that minimum is unique |
| Slab.RowMinimum | scripts/data_generation/structured_seed/surfaces_from_bulk.py:47-50 | the inner `for j` loop computes exactly `RowMin` |
| Slab.MinSquaredDistance | scripts/data_generation/structured_seed/surfaces_from_bulk.py:45-50 | the double loop computes exactly `MinSquared` |
| Slab.SymbolSetSize | scripts/data_generation/structured_seed/surfaces_from_bulk.py:38-39 | the symbol set has more than one element exactly when some symbol differs from the first |
| Slab.Element | scripts/data_generation/structured_seed/surfaces_from_bulk.py:36-40 | the element is found exactly for a non-empty structure of one element, and is the first atom's symbol; an empty structure is the IndexError |
| Slab.SeededFacts | scripts/data_generation/structured_seed/surfaces_from_bulk.py:36-53 | a seed exists exactly when the element check passes, and holds the element, the least squared pair distance and the lattice constant `sqrt(2) * mindist` |
| Slab.Seeded | scripts/data_generation/structured_seed/surfaces_from_bulk.py:36-53 | a seed fails exactly when the element check does, and otherwise holds that element |
| Slab.FindSeed | scripts/data_generation/structured_seed/surfaces_from_bulk.py:36-53 | the common start of the generation scripts computes exactly `Seeded` |
| Slab.Kept | scripts/data_generation/unstructured_seed/add_unstructured_fcc111.py:88-89 | filtering keeps at most the listed structures |
| Slab.KeptMembers | scripts/data_generation/unstructured_seed/add_unstructured_fcc111.py:88-89 | the kept structures are exactly the listed ones the test accepts |
| Slab.KeptAppend | scripts/data_generation/unstructured_seed/add_unstructured_fcc111.py:88-89 | filtering a concatenation filters each part |
| Slab.KeptSnoc | scripts/data_generation/unstructured_seed/add_unstructured_fcc111.py:88-89 | filtering one more structure appends it exactly when the test accepts it |
| Slab.RewritesPrefix | scripts/data_generation/unstructured_seed/add_unstructured_fcc111.py:115-116 | the database log of the per-strain rewrites only grows |
| Slab.Rewrites | scripts/data_generation/unstructured_seed/add_unstructured_fcc111.py:115-116 | the log of the per-strain rewrites is at least as long as every list written into it |
| Slab.RewritesEnd | scripts/data_generation/unstructured_seed/add_unstructured_fcc111.py:115-116 | after a step the log ends with the whole list as it then stands |
| Slab.RewritesRepeat | scripts/data_generation/unstructured_seed/add_unstructured_fcc111.py:115-116 | when a step's list starts the next step's list, the log holds it twice in a row |
| Slab.RepeatInLog | scripts/data_generation/unstructured_seed/add_unstructured_fcc111.py:115-116 | a log starting with `prior + kept + next`, with `kept` a prefix of `next`, starts with `prior + kept + kept` |
| Slab.WriteAll | scripts/data_generation/structured_seed/surfaces_from_bulk.py:73-74 | `for inp in inp_structs: db.write(inp)` appends the list to the log in order |
| Slab.JiggleDeltas | scripts/data_generation/unstructured_seed/add_unstructured_fcc111.py:37-52 | the displacement loop gives each atom exactly its `JiggleDelta` |
| Slab.Atoms.constructor | scripts/data_generation/structured_seed/surfaces_from_bulk.py:60 | a new structure has the given cell and positions |
| Slab.Atoms.StrainXY | scripts/data_generation/structured_seed/surfaces_from_bulk.py:18-22 | rows 0 and 1 of the cell are scaled, row 2 kept, and the positions rescaled with the cell |
| Slab.Atoms.StrainAll | scripts/data_generation/structured_seed/bulk.py:26-31 | all three cell rows are scaled and the positions rescaled with the cell |
| Slab.Rattled | scripts/data_generation/structured_seed/bulk.py:78 | rattling keeps the cell |
| Slab.Atoms.AddAdsorbate | scripts/data_generation/structured_seed/add_H_fcc111.py:55 | the adsorbate is added by ASE and the cell is kept |
| Slab.Atoms.Rattle | scripts/data_generation/structured_seed/bulk.py:78 | the positions are rattled with the given seed and the cell is kept |
| Slab.Atoms.MoveTopLayer | scripts/data_generation/structured_seed/surfaces_from_bulk.py:25-33 | the positions become `TopLayerMoved`, or stay for a structure without atoms (the IndexError); the cell is kept |
| Slab.Atoms.JiggleTopLayer | scripts/data_generation/unstructured_seed/add_unstructured_fcc111.py:33-53 | the positions become `Jiggled` with the two draws, or stay for a structure with fewer than two atoms (the IndexError); the cell is kept |
| SurfacesFromBulk.MovedUpToAt | scripts/data_generation/structured_seed/surfaces_from_bulk.py:64-71 | the second phase over `n` strains has `6 n` slabs, slab `6 i + j` being move `j` of strain `i` |
| SurfacesFromBulk.Unmoved | scripts/data_generation/structured_seed/surfaces_from_bulk.py:55-62 | every slab of the first loop has three cell rows, and the template's atoms when the rescaling keeps them |
| SurfacesFromBulk.MovedFor | scripts/data_generation/structured_seed/surfaces_from_bulk.py:64-71 | every slab made for one strain is a slab with the template's atoms |
| SurfacesFromBulk.MovedUpTo | scripts/data_generation/structured_seed/surfaces_from_bulk.py:64-71 | every slab of the second phase is a slab with the template's atoms |
| SurfacesFromBulk.Slabs | scripts/data_generation/structured_seed/surfaces_from_bulk.py:55-71 | `inp_structs` holds 41 slabs, each with three cell rows and the template's atoms |
| SurfacesFromBulk.SlabsInOrder | scripts/data_generation/structured_seed/surfaces_from_bulk.py:12-71 | `inp_structs` holds 41 slabs: the 11 strained ones in order of `strains`, then for each of the 5 `fewerstrains` the slab strained and raised by each of the 6 `toplayermoves` |
| SurfacesFromBulk.SlabsStrainInPlane | scripts/data_generation/structured_seed/surfaces_from_bulk.py:55-71 | every slab's cell is the template's with its first two rows scaled by one listed strain and its third row kept |
| SurfacesFromBulk.StrainedSlab | scripts/data_generation/structured_seed/surfaces_from_bulk.py:60-61 | one slab of the first loop is the built slab strained in the plane |
| SurfacesFromBulk.MovedSlab | scripts/data_generation/structured_seed/surfaces_from_bulk.py:68-70 | one slab of the second loop is the built slab strained in the plane, then its top layer raised |
| SurfacesFromBulk.StrainLoop | scripts/data_generation/structured_seed/surfaces_from_bulk.py:55-62 | the first loop builds exactly the strained slabs, in order |
| SurfacesFromBulk.MoveLoop | scripts/data_generation/structured_seed/surfaces_from_bulk.py:64-71 | the second loop appends exactly the (strain, move) slabs in strain-major order |
| SurfacesFromBulk.GenerateSlabs | scripts/data_generation/structured_seed/surfaces_from_bulk.py:35-74 | `generate_slabs` either fails with the seed's error (empty structure, several elements) or yields exactly `Slabs` of the slab built for the seed's element and lattice constant |
| BulkSeed.RattledUpToAt | scripts/data_generation/structured_seed/bulk.py:70-79 | a rattle phase over `n` strains has `7 n` supercells, supercell `7 i + j` being strain `i` rattled with the `j`-th seed of draw `i` |
| BulkSeed.StrainedFor | scripts/data_generation/structured_seed/bulk.py:54-68 | every supercell of the first or second loop has three cell rows |
| BulkSeed.RattledFor | scripts/data_generation/structured_seed/bulk.py:75-89 | every supercell made for one strain and draw has three cell rows |
| BulkSeed.RattledUpTo | scripts/data_generation/structured_seed/bulk.py:70-90 | every supercell of a rattle phase has three cell rows |
| BulkSeed.Bulks | scripts/data_generation/structured_seed/bulk.py:54-90 | `inp_structs` holds 92 supercells, each with three cell rows |
| BulkSeed.BulksInOrder | scripts/data_generation/structured_seed/bulk.py:13-90 | `inp_structs` holds 92 supercells: 11 strained in the plane, 11 strained in all directions, then 5 x 7 strained in the plane and 5 x 7 strained in all directions, each rattled with its own strain's draw |
| BulkSeed.RattleSeedsDistinct | scripts/data_generation/structured_seed/bulk.py:71-82 | the seven seeds of one strain are distinct and below 50 |
| BulkSeed.StrainedBulk | scripts/data_generation/structured_seed/bulk.py:57-67 | one supercell of the first two loops is the built supercell strained by the chosen kind |
| BulkSeed.RattledBulk | scripts/data_generation/structured_seed/bulk.py:75-89 | one supercell of the last two loops is the built supercell strained and then rattled with the seed |
| BulkSeed.StrainLoop | scripts/data_generation/structured_seed/bulk.py:54-68 | the first or second loop appends exactly one strained supercell per strain, in order |
| BulkSeed.RattleLoop | scripts/data_generation/structured_seed/bulk.py:70-90 | the third or fourth loop appends exactly the (strain, seed) supercells in strain-major order |
| BulkSeed.GenerateBulk | scripts/data_generation/structured_seed/bulk.py:33-93 | `generate_bulk` either fails with the seed's error or yields exactly `Bulks` of the supercell built for the seed's element and lattice constant |
| AddH.Heights | scripts/data_generation/structured_seed/add_H_fcc111.py:50-69 | the on-top site uses `ontoph`, the bridge site `bridgeh`, and both hollow sites `hollowh` |
| AddH.SitesUpTo | scripts/data_generation/structured_seed/add_H_fcc111.py:50-69 | the site loop over the first `n` sites makes as many structures as those sites' height tables hold |
| AddH.StrainsUpTo | scripts/data_generation/structured_seed/add_H_fcc111.py:49-69 | each strain makes 27 structures |
| AddH.Slabs | scripts/data_generation/structured_seed/add_H_fcc111.py:49-69 | `inp_structs` holds 27 structures per strain |
| AddH.SitesInOrder | scripts/data_generation/structured_seed/add_H_fcc111.py:50-69 | one strain's structures are the on-top, bridge, fcc and hcp height loops in that order |
| AddH.SitesUpToAt | scripts/data_generation/structured_seed/add_H_fcc111.py:50-69 | the structure at a site's offset plus `k` is the slab with H at that site and its `k`-th height, strained |
| AddH.StrainsUpToAt | scripts/data_generation/structured_seed/add_H_fcc111.py:49-69 | structure `27 i + m` is the `m`-th structure of strain `i` |
| AddH.SlabsInOrder | scripts/data_generation/structured_seed/add_H_fcc111.py:13-69 | `inp_structs` holds 9 x 27 = 243 structures, strain-major, then site in `fcc111sites` order, then height, one per combination |
| AddH.AdsorbedSlab | scripts/data_generation/structured_seed/add_H_fcc111.py:54-56 | one structure is the built slab with H added at the site and height, then strained in the plane |
| AddH.HeightLoop | scripts/data_generation/structured_seed/add_H_fcc111.py:52-69 | the height loop of a site appends exactly its structures, in order of its table |
| AddH.SiteLoop | scripts/data_generation/structured_seed/add_H_fcc111.py:50-69 | the site loop appends exactly the strain's structures, in site order |
| AddH.GenerateSlabs | scripts/data_generation/structured_seed/add_H_fcc111.py:28-72 | `generate_slabs` either fails with the seed's error or yields exactly `Slabs` of the slab built for the seed's element and lattice constant |
| AddH2.Heights | scripts/data_generation/structured_seed/add_H2_fcc111.py:20-22 | every site's height table has six heights |
| AddH2.ScriptShaped | scripts/data_generation/structured_seed/add_H2_fcc111.py:18-22 | the script's tables are 7 strains, 4 sites and 6 heights per site |
| AddH2.BondShift | scripts/data_generation/structured_seed/add_H2_fcc111.py:64 | for a draw in [0, 1) the bond is stretched by an amount in [-1.75, 0.25) |
| AddH2.Stretched | scripts/data_generation/structured_seed/add_H2_fcc111.py:62-64 | stretching moves only the second atom's height, by that amount |
| AddH2.CandidateHasMolecule | scripts/data_generation/structured_seed/add_H2_fcc111.py:61-74 | every attempt has the slab's atoms and the two H atoms, so the three atoms the test reads exist |
| AddH2.AttemptsUpTo | scripts/data_generation/structured_seed/add_H2_fcc111.py:59 | one height makes five attempts |
| AddH2.HeightsUpTo | scripts/data_generation/structured_seed/add_H2_fcc111.py:57-59 | a site's first `n` heights make `5 n` attempts |
| AddH2.SitesUpTo | scripts/data_generation/structured_seed/add_H2_fcc111.py:55-127 | a strain's first `n` sites make `30 n` attempts |
| AddH2.StrainsUpTo | scripts/data_generation/structured_seed/add_H2_fcc111.py:54-127 | the first `n` strains make `120 n` attempts |
| AddH2.AttemptsUpToAt | scripts/data_generation/structured_seed/add_H2_fcc111.py:59-71 | attempt `a` at one height is the attempt numbered `base + a` |
| AddH2.HeightsUpToAt | scripts/data_generation/structured_seed/add_H2_fcc111.py:57-71 | attempt `a` at height `k` sits at `Slot(k, a)` and uses that height |
| AddH2.SitesUpToAt | scripts/data_generation/structured_seed/add_H2_fcc111.py:55-127 | attempt `a` at height `k` of site `j` sits at `SiteSlot(j, k, a)` and uses that site's `k`-th height |
| AddH2.StrainsUpToAt | scripts/data_generation/structured_seed/add_H2_fcc111.py:54-127 | attempt `AttemptNo(i, j, k, a)` is made with strain `i`, site `j` and that site's height `k` |
| AddH2.AttemptsInOrder | scripts/data_generation/structured_seed/add_H2_fcc111.py:54-127 | the script makes 7 x 4 x 6 x 5 = 840 attempts, strain-major, then site, height and attempt, each with the random draws of its own number |
| AddH2.AcceptedAreThosePassing | scripts/data_generation/structured_seed/add_H2_fcc111.py:72-83 | `inp_structs` holds at most the attempts made, and a structure is in it exactly when it is an attempt with both H atoms more than 0.2 above the third-to-last atom and no atoms too close |
| AddH2.Accepted | scripts/data_generation/structured_seed/add_H2_fcc111.py:53-127 | after `n` strains `inp_structs` holds at most 120 attempts per strain, each of which passes the acceptance test `keep` |
| AddH2.AcceptedGrows | scripts/data_generation/structured_seed/add_H2_fcc111.py:53-127 | what was kept after `m` strains starts the list after any later strain |
| AddH2.SnapshotsGrow | scripts/data_generation/structured_seed/add_H2_fcc111.py:129-130 | each strain's write holds the previous strain's write as a prefix |
| AddH2.WritesEndWithAccepted | scripts/data_generation/structured_seed/add_H2_fcc111.py:129-130 | the database ends with the list as it stands after the last strain |
| AddH2.WritesRepeat | scripts/data_generation/structured_seed/add_H2_fcc111.py:129-130 | because the whole list is written after every strain, what was kept by strain `m` is stored at least twice |
| AddH2.Writes | scripts/data_generation/structured_seed/add_H2_fcc111.py:129-130 | after at least one strain the database holds at least as many structures as `inp_structs` |
| AddH2.Attempt | scripts/data_generation/structured_seed/add_H2_fcc111.py:61-83 | one pass appends the attempt exactly when it passes the height and closeness test |
| AddH2.KeptNextAttempt | scripts/data_generation/structured_seed/add_H2_fcc111.py:59-83 | one more attempt extends the kept list of a height by exactly that attempt when it passes |
| AddH2.AttemptLoop | scripts/data_generation/structured_seed/add_H2_fcc111.py:59-83 | the five attempts at one height append exactly those that pass, in order |
| AddH2.KeptNextHeight | scripts/data_generation/structured_seed/add_H2_fcc111.py:57-83 | one more height extends the kept list by its kept attempts |
| AddH2.HeightLoop | scripts/data_generation/structured_seed/add_H2_fcc111.py:57-83 | a site's height loop appends exactly its passing attempts, in order |
| AddH2.KeptNextSite | scripts/data_generation/structured_seed/add_H2_fcc111.py:55-127 | one more site extends the kept list by its kept attempts |
| AddH2.SiteLoop | scripts/data_generation/structured_seed/add_H2_fcc111.py:55-127 | a strain's site loop appends exactly its passing attempts, in order |
| AddH2.KeptNextStrain | scripts/data_generation/structured_seed/add_H2_fcc111.py:54-130 | one more strain gives the next `Accepted` list and appends it whole to the write log |
| AddH2.StrainLoop | scripts/data_generation/structured_seed/add_H2_fcc111.py:54-130 | the strain loop ends with exactly the passing attempts of all strains, and the database log is the list after each strain, written in turn |
| AddH2.GenerateSlabs | scripts/data_generation/structured_seed/add_H2_fcc111.py:33-130 | `generate_slabs` either fails with the seed's error or yields the accepted structures and the database log of the script's tables |
| AddUnstructured.Heights | scripts/data_generation/unstructured_seed/add_unstructured_fcc111.py:19-21 | the on-top table has six heights, the bridge and hollow tables seven |
| AddUnstructured.PlacedSize | scripts/data_generation/unstructured_seed/add_unstructured_fcc111.py:82-84 | the placed structure has the slab's atoms and the adsorbate's |
| AddUnstructured.ShapedOffset | scripts/data_generation/unstructured_seed/add_unstructured_fcc111.py:79-113 | one repetition of the site loop makes 27 structures |
| AddUnstructured.At | scripts/data_generation/unstructured_seed/add_unstructured_fcc111.py:80-104 | each site runs over its own height table |
| AddUnstructured.ScriptShaped | scripts/data_generation/unstructured_seed/add_unstructured_fcc111.py:17-21 | the script's tables are 5 strains and the four sites with 6 + 7 + 7 + 7 = 27 heights |
| AddUnstructured.HeightsUpTo | scripts/data_generation/unstructured_seed/add_unstructured_fcc111.py:81-104 | a site's first `n` heights make `n` structures |
| AddUnstructured.SitesUpTo | scripts/data_generation/unstructured_seed/add_unstructured_fcc111.py:79-113 | a repetition's first `n` sites make as many structures as their tables hold |
| AddUnstructured.RepeatsUpTo | scripts/data_generation/unstructured_seed/add_unstructured_fcc111.py:78-113 | `n` repetitions make `27 n` structures |
| AddUnstructured.StrainsUpTo | scripts/data_generation/unstructured_seed/add_unstructured_fcc111.py:77-113 | `n` strains make `270 n` structures |
| AddUnstructured.OffsetBelow | scripts/data_generation/unstructured_seed/add_unstructured_fcc111.py:79-113 | the sites before site `m` end where it starts |
| AddUnstructured.SlotsBelow | scripts/data_generation/unstructured_seed/add_unstructured_fcc111.py:79-113 | every slot of the earlier sites lies before site `m` |
| AddUnstructured.HeightsUpToAt | scripts/data_generation/unstructured_seed/add_unstructured_fcc111.py:81-85 | structure `k` at a site uses its `k`-th height and draw `base + k` |
| AddUnstructured.SitesUpToAt | scripts/data_generation/unstructured_seed/add_unstructured_fcc111.py:79-113 | the structure at `SiteSlot(j, k)` uses site `j` and its height `k` |
| AddUnstructured.RepeatsUpToAt | scripts/data_generation/unstructured_seed/add_unstructured_fcc111.py:78-113 | the structure at `RepSlot(r, j, k)` uses site `j` and its height `k` |
| AddUnstructured.StrainsUpToAt | scripts/data_generation/unstructured_seed/add_unstructured_fcc111.py:77-113 | the structure at `DrawNo(i, r, j, k)` uses strain `i`, site `j` and its height `k` |
| AddUnstructured.StructuresInOrder | scripts/data_generation/unstructured_seed/add_unstructured_fcc111.py:77-113 | the script makes 5 x 10 x 27 = 1350 structures, strain-major, then repetition, site and height, each moved with the draws of its own number |
| AddUnstructured.AcceptedAreThosePassing | scripts/data_generation/unstructured_seed/add_unstructured_fcc111.py:86-89 | `inp_structs` holds at most the structures made, and a structure is in it exactly when it is one of them with no atoms too close |
| AddUnstructured.Accepted | scripts/data_generation/unstructured_seed/add_unstructured_fcc111.py:75-113 | after `n` strains `inp_structs` holds at most 270 structures per strain, each of which passes the acceptance test `keep` |
| AddUnstructured.AcceptedGrows | scripts/data_generation/unstructured_seed/add_unstructured_fcc111.py:75-113 | what was kept after `m` strains starts the list after any later strain |
| AddUnstructured.SnapshotsGrow | scripts/data_generation/unstructured_seed/add_unstructured_fcc111.py:115-116 | each strain's write holds the previous strain's write as a prefix |
| AddUnstructured.WritesEndWithAccepted | scripts/data_generation/unstructured_seed/add_unstructured_fcc111.py:115-116 | the database ends with the list as it stands after the last strain |
| AddUnstructured.WritesRepeat | scripts/data_generation/unstructured_seed/add_unstructured_fcc111.py:115-116 | because the whole list is written after every strain, what was kept by strain `m` is stored at least twice |
| AddUnstructured.Writes | scripts/data_generation/unstructured_seed/add_unstructured_fcc111.py:115-116 | after at least one strain the database holds at least as many structures as `inp_structs` |
| AddUnstructured.Attempt | scripts/data_generation/unstructured_seed/add_unstructured_fcc111.py:82-90 | one structure is built, placed, strained and moved, and appended exactly when no atoms are too close |
| AddUnstructured.KeptNextHeight | scripts/data_generation/unstructured_seed/add_unstructured_fcc111.py:81-90 | one more height extends the kept list by its structure exactly when it passes |
| AddUnstructured.HeightLoop | scripts/data_generation/unstructured_seed/add_unstructured_fcc111.py:81-113 | a site's height loop appends exactly its passing structures, in order |
| AddUnstructured.KeptNextSite | scripts/data_generation/unstructured_seed/add_unstructured_fcc111.py:79-113 | one more site extends the kept list by its kept structures |
| AddUnstructured.SiteLoop | scripts/data_generation/unstructured_seed/add_unstructured_fcc111.py:79-113 | a repetition's site loop appends exactly its passing structures, in order |
| AddUnstructured.KeptNextRepeat | scripts/data_generation/unstructured_seed/add_unstructured_fcc111.py:78-113 | one more repetition extends the kept list by its kept structures |
| AddUnstructured.RepeatLoop | scripts/data_generation/unstructured_seed/add_unstructured_fcc111.py:78-113 | the ten repetitions of a strain append exactly their passing structures, in order |
| AddUnstructured.KeptNextStrain | scripts/data_generation/unstructured_seed/add_unstructured_fcc111.py:77-116 | one more strain gives the next `Accepted` list and appends it whole to the write log |
| AddUnstructured.StrainLoop | scripts/data_generation/unstructured_seed/add_unstructured_fcc111.py:75-116 | the strain loop ends with exactly the passing structures of all strains, and the log is the list after each strain, written in turn |
| AddUnstructured.GenerateSlabs | scripts/data_generation/unstructured_seed/add_unstructured_fcc111.py:55-116 | `generate_slabs` either fails with the seed's error or yields the accepted structures and the database log of the script's tables |

## Left out

- The worker process, `Pipe`, `shared_memory`, `Process.start/join`, `stop` and `__del__` of `MultiProcessCalculator`. The worker function `__multiproccalc__` is not modelled either: these are operating-system concurrency and interprocess communication. `MultiProcess.Sync` keeps only the reply check of `multiprocsync`, with the reply and the shared energy as parameters.
- ASE's base `Calculator.calculate`, `calculation_required`, `get_property` and the members' own `calculate`. These are foreign calls: the members' results, their `calculation_required` answers and their workers' replies are parameters of `LinearCombination.Calculate`. Of the base `calculate` only what `MultiProcess.Calculate` depends on is modelled: it stores the call's species and cell as `self.atoms`.
- `LinearCombination.Reset`: models only the clearing of the combined results. The `reset` of every member calculator is a foreign call.
- `MixedCalculator.calculate` and `get_energy_contributions`: these only copy member results into `results['energy_contributions']`, and are not modelled.
- The getters `get_std_energy`, `get_std_forces` and `get_ensemble_avg_energy`, and `__str__`: plain field reads and formatting.
- Ensemble.LinearCombination.Calculate: `std_energy` and `std_forces` are kept squared (`varEnergy`, `varForces`). The square root the source takes afterwards is not modelled.
- Stats.CalcErrors: the RMSE is kept as the mean squared error, without the final square root.
- Square roots (force error norms, the standard deviations of the spike thresholds) and `np.exp` of the metadynamics bias are function parameters. Their values are not modelled, only the properties stated in the requirements (such as non-negativity).
- Floating point in general: every number is an exact real. Rounding, NaN and infinities are not modelled.
- Python's `float()` on a token is the parameter `num`. Malformed numbers, which raise `ValueError` in the source, are not modelled; `int()` is modelled by `Text.ParseInt`.
- File and database I/O. Files are given as lists of lines, and the reading of `md_data.h5` with h5py is an input array. `db.write` is modelled as an append to a write log.
- QeToXsf.CartesianAll: ASE's `set_cell(..., scale_atoms=True)` first completes a cell with an all-zero row by a unit vector; here such a row is used as it is.
- QeToXsf.Conversion: `Atom(a, b)` (createxsffromqe.py line 56) raises for a label that is no chemical symbol; labels are not checked against the periodic table, so such a run reaches `set_cell` here.
- QeToXsf.Written: an IndexError in the write loop leaves a partly written XSF file behind; here the run is only the error.
- DisplacedXsf.OutputName: its own contract only bounds the length; the exact name `<stem>_FFF_i_j_k.xsf` is stated by `OutputNameOfStem` for names ending in their only `.xsf`.
- Writing the XSF text. `QeToXsf` and `DisplacedXsf` produce the record that goes into the file (energy, cell, species, positions, forces, file name), but not its `%.14f` / `%.12f` text formatting.
- Plotting with matplotlib and all printing of metrics or lists.
- The ASE calls of the data-generation scripts are function parameters:
  - `build.fcc111` and `build.bulk(...).repeat(2)`;
  - `add_adsorbate`, `molecule('H2')`, `rotate` and `gather_atoms_by_tag`;
  - `set_cell(..., scale_atoms=True)` position rescaling;
  - `rattle`, `atoms_too_close` with `closest_distances_generator`, and `io.read`;
  - the slab size (`(1,1,3)` or `(2,1,3)`) and the vacuum belong to the `fcc111` parameter.
- Randomness (`np.random.random`, `random.sample`, `random.shuffle`). Draws are parameters, carrying the ranges the libraries guarantee; the shuffle is any listing of the steps, each once.
- The undefined names `Pt_Pt` (the seed structure file) and `a` (the adsorbate of `add_unstructured_fcc111.py`). They are modelled as the inputs they evidently stand for: the seed's symbols and repeated positions, and the parameter `mol`.
- The counter `i` of `add_unstructured_fcc111.py` and the `j += 1` of `add_H2_fcc111.py` affect nothing and are not modelled. That `j += 1` does not change the five attempts is stated by the attempt counts.
- `gas_H-H.py` and the molecular-dynamics drivers `MACE_energybias/dyn.py` and `ASE_multiproc_calc/nve_md.py`. They only call external calculators and format file names.
- EnergyErrors.EnergyErrors, EadsErrors.PhaseAdsorption and EadsErrors.EadsErrors: their own ensures state only the lengths of the result arrays. The values are stated by the lemmas listed beside them in the table.

## Findings

| source | as written | input that shows it | evidently intended | confidence | as-written member | corrected member |
|---|---|---|---|---|---|---|
| scripts/mlp_training/ANN-aenet/error_analysis/Eads_errors.py:132-141 | `idx_slab` is not reset for each combined system, so a combined system without a matching clean slab is paired with the slab of the previous combined system | combined systems `a_x` and `b_x`, and only the clean slab `a_x`: `b_x` is given the adsorption energy against the `a_x` slab | a combined system without a slab of the same two metals has no adsorption energy (an error) | not executed | EadsErrors.AdsorptionAsWritten, EadsErrors.StaleSlabIndex | EadsErrors.Adsorption, EadsErrors.AdsorptionPairsWithOwnSlab |
| scripts/nn_ensembles/Calculators/mixing_modified.py:81-85 | `super().calculate(atoms, ...)` stores a copy of the call's configuration as `self.atoms` before the species and cell test of line 85, so the test compares the configuration with its own copy and never raises | a worker started on one H atom, then called for one Pt atom in the same cell: the positions are copied and one request is sent to the worker, which still computes H | a change of species or cell against the configuration the worker was started with raises the ValueError before anything is sent | not executed | Ensemble.MultiProcess.Calculate, Ensemble.SpeciesChangeGoesUnnoticed | Ensemble.MultiProcess.CalculateChecked |
