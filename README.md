# refractiveIndex.py: a verified model of the material evaluators

`refractiveIndex.py` reads a material's DATA blocks and turns them into at
most one refractive-index (n) evaluator and at most one
extinction-coefficient (k) evaluator. It then answers queries for a
wavelength given in nanometres. This project models that core in Dafny:

- **The block loop of `Material.__init__`**, in `materials.dfy`.
  - `Material` is a class with the two optional evaluator fields.
  - `Material.Load` runs the loop over already-parsed blocks.
  - `SplitColumns` runs the row loop that fills the wavelength, n and k lists.
  - Both methods are proved against the functions `Route`, `Step` and `ParseRows`.
- **The evaluator factory `RefractiveIndexData.setupRefractiveIndex`**, in `evaluators.dfy`.
- **The formula evaluator `FormulaRefractiveIndexData`**, in `formula.dfy`.
  - The `Dispersion` function specifies it.
  - A method accumulates the pair sum in a loop, as the source does.
- **The tabulated n evaluator `TabulatedRefractiveIndexData` and the `ExtinctionCoefficientData` evaluator**, in `tabulated.dfy`.
  - scipy's `interp1d` is replaced by an explicit piecewise-linear interpolant, in `interpolation.dfy`.
  - That file also holds `numpy.min`, `numpy.max` and `numpy.searchsorted`.
- **Failures** are values of one `Error` datatype, in `outcomes.dfy`. Each constructor stands for one exception the source raises.

`numpy.sqrt` and `**` with a real exponent are floating-point primitives. The
model does not interpret them: every evaluation takes them as a `Numerics`
parameter, so each result holds for any square root and any power function.
`w**2` and `w**(-2)` are written out as products and a quotient.

### Quirks of the code the model keeps

- **A second refractive-index block replaces the first.** At lines 84-85,
  96-97 and 105-106 the code builds an Exception and never raises it, so the
  later block wins (`Materials.FormulaBlockReplaces`,
  `Materials.LaterDefinitionWins`).
- **Unknown blocks are ignored.** A block of unknown kind, or a tabulated
  block of unknown subkind, changes nothing (`Materials.UnknownBlockIgnored`).
- **Ids 4, 7, 8 and 9 always fail.** These formula ids raise
  `FormulaNotImplemented` for every in-range wavelength.
- **Id 0 is accepted, then refused.** The factory accepts formula id 0, and
  every in-range query then fails as a bad formula type.
- **A `k` block reads the second column.** The extinction coefficient of a
  `tabulated k` block comes from the list the row loop fills as n.

### Where each part of the source lives

The functions below are the model itself. The lemmas in the table state how
they behave.

| source | Dafny |
|---|---|
| `FormulaRefractiveIndexData.getRefractiveIndex` (lines 158-205) | `Formula.Dispersion`, computed by the loop `Formula.GetRefractiveIndex` |
| `TabulatedRefractiveIndexData.getRefractiveIndex` (lines 220-227) | `Tabulated.TabulatedNAt` |
| `ExtinctionCoefficientData.getExtinctionCoefficient` (lines 244-249) | `Tabulated.ExtinctionAt` |
| the interp1d call (line 218) | `Interpolation.Interp` |
| `int()` of the formula token (line 108) | `Materials.ParseInt` |
| the row loop (lines 75-80) | `Materials.ParseRows`, computed by the loop `Materials.SplitColumns` |
| `self.refractiveIndex.getRefractiveIndex(wavelength)` (line 122) | `Evaluators.RefractiveIndexAt` |
| one pass and the whole of the block loop (lines 68-116) | `Materials.Step` and `Materials.Route`, run by `Materials.Material.LoadBlock` and `Materials.Material.Load` |

## Model

| member | source | states |
|---|---|---|
| Interpolation.Min | refractiveIndex.py:212 | numpy.min returns one of the samples, and no sample is below it |
| Interpolation.Max | refractiveIndex.py:213 | numpy.max returns one of the samples, and no sample is above it |
| Interpolation.IncreasingRange | refractiveIndex.py:212-213 | over strictly increasing samples the range runs from the first to the last sample |
| Interpolation.DegenerateRange | refractiveIndex.py:215 | min equals max exactly when every sample is at the same wavelength |
| Interpolation.SearchSorted | refractiveIndex.py:218 | the insertion index interp1d uses: every sample before it is below the query, and the sample at it is not |
| Interpolation.InterpOnSegment | refractiveIndex.py:218 | inside the samples, the interpolant equals the line through any neighbouring pair that brackets the query |
| Interpolation.InterpAtSample | refractiveIndex.py:218 | at a sample wavelength the interpolant returns that sample's value |
| Interpolation.InterpBetween | refractiveIndex.py:218 | between two neighbouring samples the interpolant lies between their two values |
| Formula.SeriesSum | refractiveIndex.py:167-168 | the pair sum fails only with IndexError (unpaired last coefficient) or ZeroDivision (a pole) |
| Formula.SeriesDefined | refractiveIndex.py:166-168 | the pair sum from i succeeds exactly when the remaining coefficients come in whole pairs and no pair hits a zero denominator |
| Formula.PowerSeriesParity | refractiveIndex.py:177-180 | the polynomial and Cauchy sums succeed exactly when the coefficient count is odd, and otherwise fail with IndexError |
| Formula.GetRefractiveIndex | refractiveIndex.py:158-205 | the loop that accumulates nsq or n pair by pair returns exactly the formula value: range check, dispatch, leading term, pair sum and sqrt for ids 1-3 |
| Formula.RangeCheck | refractiveIndex.py:159-160 | the out-of-bounds error comes exactly when wavelength/1000 lies outside [rangeMin, rangeMax], both ends included, whatever the id and coefficients |
| Formula.FormulaIdDispatch | refractiveIndex.py:182-201 | in range, ids 4, 7, 8 and 9 always raise FormulaNotImplemented, and any id outside 1..9 always raises bad formula type; ids 1, 2, 3, 5 and 6 never raise either |
| Formula.RootStructure | refractiveIndex.py:164-193 | ids 1-3 return sqrt of the sum they accumulate; ids 5 and 6 take no root, so their value does not depend on sqrt |
| Formula.SellmeierExamples | refractiveIndex.py:164-175 | Sellmeier squares the pole coefficient and Sellmeier-2 does not: [0, 1, 0.5] at 1000 nm gives sqrt(7/3) and sqrt(3) |
| Formula.PolynomialExample | refractiveIndex.py:176-181 | the polynomial starts from c0 with no leading 1 and takes the root: [2, 3, 2] at 1000 nm gives sqrt(5) when 1^2 = 1 |
| Formula.CauchyExample | refractiveIndex.py:184-188 | Cauchy takes c0 with no leading 1 and no root: [1.5, 0.01, -2] at 500 nm gives 1.54 |
| Formula.GasesExample | refractiveIndex.py:189-193 | Gases adds 1 + c0 and c1/(c2 - w^-2) with no root: [0, 1, 2] at 1000 nm gives 2 |
| Formula.GasesPole | refractiveIndex.py:191-193 | at a pole of the Gases formula, [0, 1, 1] at 1000 nm, the division by zero fails the query |
| Tabulated.SetupTabulatedN | refractiveIndex.py:211-218 | construction fails on no samples; it succeeds exactly when there are values and the samples are either degenerate or as many as the values; the range is numpy.min and numpy.max |
| Tabulated.DegenerateTabulatedN | refractiveIndex.py:215-216 | when all samples share one wavelength, values[0] is returned at exactly that wavelength and every other query is out of bounds |
| Tabulated.InterpolatedTabulatedN | refractiveIndex.py:218-227 | with increasing samples, queries inside [first, last] (inclusive) interpolate and queries outside raise out of bounds |
| Tabulated.TabulatedNAtSample | refractiveIndex.py:224-225 | a tabulated n queried at 1000 times a sample wavelength returns that sample's value |
| Tabulated.TabulatedNBetween | refractiveIndex.py:224-225 | a tabulated n queried between two samples answers a value between their two values |
| Tabulated.SetupExtinction | refractiveIndex.py:239-242 | construction succeeds exactly when there are at least two samples and as many values as samples, and otherwise interp1d rejects them; the range spans the samples |
| Tabulated.ExtinctionInterpolates | refractiveIndex.py:244-249 | the extinction coefficient interpolates inside [first, last] sample, both ends included, and never extrapolates |
| Tabulated.ExtinctionAtSample | refractiveIndex.py:246-247 | at a sample wavelength the extinction coefficient is that sample's value |
| Tabulated.ExtinctionBetween | refractiveIndex.py:246-247 | between two samples the extinction coefficient lies between their two values |
| Tabulated.TabulatedExample | refractiveIndex.py:224-225 | samples (0.4, 1.45), (0.5, 1.46), (0.6, 1.47): 450 nm is interpolated to 1.455 |
| Tabulated.TabulatedOutOfRangeExample | refractiveIndex.py:226-227 | the same samples at 700 nm raise out of bounds with wavelength 0.7 and range (0.4, 0.6) |
| Evaluators.SetupRefractiveIndex | refractiveIndex.py:137-143 | any evaluator the factory builds is well formed |
| Evaluators.EvaluatorSelection | refractiveIndex.py:137-143 | a formula evaluator comes exactly from id >= 0 with formula arguments and keeps id, range and coefficients; a tabulated one comes only from -1 with samples; ids below -1 are refused |
| Evaluators.FormulaZeroAcceptedThenRefused | refractiveIndex.py:138-139 | id 0 passes the factory, and then every in-range query fails as a bad formula type |
| Evaluators.GetRefractiveIndex | refractiveIndex.py:122 | forwarding a query returns what the chosen evaluator returns |
| Materials.ParseIntAccepts | refractiveIndex.py:108 | int() of the formula-id token succeeds exactly on an optionally signed, non-empty run of ASCII digits |
| Materials.ParseIntValue | refractiveIndex.py:108 | an unsigned digit string reads as its decimal value, and a leading - or + applies to the value of the digits after it |
| Materials.ParseIntRoundTrip | refractiveIndex.py:108 | reading back the decimal rendering of any integer, negative ones included, gives that integer |
| Materials.ParseRowsColumns | refractiveIndex.py:75-80 | rows parse exactly when no row holds a single token, and otherwise fail with IndexError; the lists are columns 1, 2 and 3 of the non-blank rows, so len(wavelengths) = len(n) >= len(k) |
| Materials.SplitColumns | refractiveIndex.py:72-80 | the append loop builds exactly the columns the row parse gives, failing where it fails |
| Materials.LoadTabulated | refractiveIndex.py:82-102 | the n, k and nk branches of a tabulated block leave well-formed evaluators when they load |
| Materials.TabulatedStep | refractiveIndex.py:69-81 | a tabulated block whose rows parse splits into columns 1, 2 and 3 of its non-blank rows (len(wavelengths) = len(n) >= len(k)) and then dispatches on its subkind |
| Materials.Step | refractiveIndex.py:69-116 | a block that loads leaves well-formed evaluators |
| Materials.Route | refractiveIndex.py:68 | blocks are read in order, and a sequence that loads leaves well-formed evaluators |
| Materials.TabulatedNBlock | refractiveIndex.py:82-89 | a tabulated n block loads exactly when it has a non-blank row; otherwise it fails with no samples; it replaces n with the evaluator over columns 1 and 2 |
| Materials.DegenerateNBlockExample | refractiveIndex.py:82-89 | a tabulated n block with rows (0.5, 1.5) and (0.5, 1.6) loads as the constant 1.5 over the single-point range 0.5, and sets no k |
| Materials.DegenerateNQueryExample | refractiveIndex.py:215-216 | that evaluator answers 1.5 at exactly 500 nm, and 600 nm is out of bounds with range (0.5, 0.5) |
| Materials.TabulatedKBlock | refractiveIndex.py:90-92 | a tabulated k block takes k from the second column; it loads exactly when there are at least two non-blank rows, and leaves n alone |
| Materials.TabulatedNKBlock | refractiveIndex.py:94-102 | an nk block loads exactly when there are at least two non-blank rows, each with a third number; it builds n from column 2 and k from column 3 over the same wavelengths |
| Materials.FormulaBlockReplaces | refractiveIndex.py:103-116 | a formula block with id >= 0 replaces the refractive index whatever was there; the duplicate-definition exception is never raised |
| Materials.FormulaBlockRefused | refractiveIndex.py:108-116 | a formula block with id -1 fails with a type error, and one with a lower id fails as a bad data type |
| Materials.UnknownBlockIgnored | refractiveIndex.py:69-103 | a block of unknown kind changes nothing whatever its data, which is never read; a tabulated block of unknown subkind whose rows parse changes nothing |
| Materials.RouteSnoc | refractiveIndex.py:68 | loading one more block runs one more step on what the earlier blocks left |
| Materials.LaterDefinitionWins | refractiveIndex.py:105-116 | after any blocks that load, a later formula block's evaluator is the refractive index, and k is untouched |
| Materials.ExtinctionOnlyFromKBlocks | refractiveIndex.py:90-102 | without a k or nk block the extinction coefficient keeps its value |
| Materials.Material.constructor | refractiveIndex.py:61-62 | both evaluator fields start as None |
| Materials.Material.Load | refractiveIndex.py:68-116 | the block loop succeeds exactly when the block sequence loads; it then leaves the fields as computed, and otherwise reports the first block's error |
| Materials.Material.LoadBlock | refractiveIndex.py:69-116 | one pass of the loop body leaves the fields as Step computes from the fields before, or reports Step's error |
| Materials.Material.GetRefractiveIndex | refractiveIndex.py:118-122 | with no n defined the query raises; otherwise it returns exactly the evaluator's answer |
| Materials.Material.GetExtinctionCoefficient | refractiveIndex.py:124-128 | with no k defined the query raises NoExtinctionCoefficient; otherwise it returns exactly the evaluator's answer |
| Materials.OpenMaterial | refractiveIndex.py:60-116 | opening a material gives a fresh object whose fields are what its blocks compute, or the error of the first failing block |

## Left out

- YAML loading and file I/O in `RefractiveIndex.__init__` and `Material.__init__` (lines 15-18, 64-66). A material is given as a sequence of blocks whose text has already been split into tokens and numbers.
- `float()` conversion of rows, coefficients and range (lines 77-80, 109-111). These are given as reals, so a token that is not a number is not modelled.
- A missing YAML key (`KeyError`) is not modelled. Every block carries its type, rows, coefficients and range.
- The catalog search `getMaterialFilename` (lines 38-52). It looks up a YAML catalog and builds a file path.
- The command-line entry point (lines 281-292). It is argument parsing and printing.
- Exception messages and the custom exception classes (lines 255-268). Each failure is one `Error` constructor.
- Floating-point rounding, NaN and infinities. Arithmetic is over exact reals, and `numpy.sqrt` and `**` are uninterpreted parameters. So `sqrt` of a negative sum, and `**` raising `ZeroDivisionError` for `0.0` to a negative power in the polynomial and Cauchy formulas, are not modelled.
- Materials.ParseInt: accepts an optional sign and ASCII digits. It leaves out the other literals `int()` accepts: underscores between digits and non-ASCII digits. Tokens come from `split()`, so they never hold whitespace.
- Materials.Material.Load: requires `AllSorted`. The wavelengths of a `tabulated n` block must be strictly increasing or all equal, and those of a `k` or `nk` block strictly increasing. scipy's `interp1d` sorts unsorted samples, and that sorting is not modelled. An n block whose rows all share one wavelength is covered, because the code never builds an interpolant for it. Formula blocks and blocks of unknown kind or subkind are unconstrained.
- Materials.Material.LoadBlock: has the same sortedness requirement as Load, for one block.
- Materials.OpenMaterial: has the same sortedness requirement as Load.
- Materials.Step: has the same sortedness requirement as Load, for one block.
- Materials.Route: has the same sortedness requirement as Load.
- Materials.LoadTabulated: has the same sortedness requirement, on the columns of one tabulated block.
- Tabulated.SetupTabulatedN: requires samples that are increasing or all equal. This is the same sortedness requirement.
- Tabulated.SetupExtinction: requires increasing samples. This is the same sortedness requirement.
- Evaluators.SetupRefractiveIndex: requires interpolable samples. This is the same sortedness requirement.
- The evaluators are immutable values rather than objects. The source never changes their fields after construction.
