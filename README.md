# GeoGebra optimizer: glue, penalty helpers and export dispatch, in Dafny

This project models the code that the GeoGebra solver repository owns around
its constrained CMA-ES optimizer, and proves properties of that model. There
are three parts.

- **Optimizer glue** (`optimizer.dfy`, module `Optimizer`). It covers:
  - the options handed to `cma.CMAEvolutionStrategy`;
  - the module-level "stored value" objective and constraints, which an
    external (JavaScript) writer sets and two callbacks return whatever
    their argument;
  - the order of calls in one tell step;
  - the feasibility test over the constraint handler's history `G`;
  - the extraction of the best feasible point.

  The library objects `es` (the evolution strategy) and `cfun`
  (`ConstrainedFitnessAL`) are the classes `Strategy` and
  `ConstrainedFitness`. Their operations record the calls made to them.
  What the library computes in a call enters as a parameter: the drawn
  population, and the new `G` and `best_feas` after an update.
  The module globals are the class `StoredValues`, whose setters stand in for
  the external writer.
- **Penalty helpers** (`fitness.dfy`, module `Fitness`). These are the two
  accumulator loops, the sum of squared deviations and the sum of absolute
  deviations. Each is written as a method with a loop and proved equal to a
  recursive sum over `real` taken in index order.
- **Export server** (`export_server.dfy`, module `ExportServer`). It covers:
  - validation and routing of a request by (source format, output format);
  - the option defaults;
  - the `$INSUNITS` table;
  - the scale-and-flip point transform;
  - the "at least two points" polyline filter and its counter;
  - the naming of the optimized temporary file.

`py_strings.dfy` (module `PyStrings`) holds the Python string methods the
server uses, `lower()` and `replace()`, and the prefix and suffix
predicates used to state facts about `replace()`.
`wrappers.dfy` holds `Option`.

Three further points about the model:
- Feasibility is read from the last row of the handler's history `G`. It is
  not computed per evaluation.
- The stored objective and constraints are module-level state. They are
  modelled as the fields of `StoredValues`.
- No error for calling ask and tell out of order is modelled, because the
  code raises none.

## Model

| member | source | states |
|---|---|---|
| `Fitness.SquaredDeviationSum` | packages/geogebra-optimizer/python/fitness.py:17-21 | the squared-deviation sum over the indices of `current`, in index order, is never negative |
| `Fitness.AbsoluteDeviationSum` | packages/geogebra-optimizer/python/fitness.py:35-38 | the absolute-deviation sum over the indices of `current`, in index order, is never negative |
| `Fitness.Square` | packages/geogebra-optimizer/python/fitness.py:19-20 | one `diff * diff` term is never negative |
| `Fitness.RegularizationPenalty` | packages/geogebra-optimizer/python/fitness.py:6-21 | the loop returns exactly the squared-deviation sum; `initial` must be at least as long as `current` |
| `Fitness.TotalDelta` | packages/geogebra-optimizer/python/fitness.py:24-38 | the loop returns exactly the absolute-deviation sum; `initial` must be at least as long as `current` |
| `Fitness.SquaredDeviationSumZeroWhenAgree` | packages/geogebra-optimizer/python/fitness.py:18-20 | the penalty is 0 when the lists agree at every index of `current` |
| `Fitness.AbsoluteDeviationSumZeroIff` | packages/geogebra-optimizer/python/fitness.py:36-37 | the total delta is 0 exactly when the lists agree at every index of `current` |
| `Fitness.EmptyCurrentGivesZero` | packages/geogebra-optimizer/python/fitness.py:17-18 | both helpers give 0.0 for an empty `current` |
| `Fitness.OnlyPrefixOfInitialRead` | packages/geogebra-optimizer/python/fitness.py:18-19 | entries of `initial` past the length of `current` never change either result |
| `Fitness.DeviationSumsSymmetric` | packages/geogebra-optimizer/python/fitness.py:19-20 | for lists of equal length, swapping the arguments changes neither result |
| `Optimizer.BuildOptions` | packages/geogebra-optimizer/python/optimizer.py:29-38 | bounds are the two-element list [min, max]; `maxiter`, `popsize` and `tolfun` are passed unchanged; display is 1, logging 0 |
| `Optimizer.BuildOptionsInjective` | packages/geogebra-optimizer/python/optimizer.py:29-38 | different bounds or budget arguments always give different options, so nothing is dropped |
| `Optimizer.StoredValues.constructor` | packages/geogebra-optimizer/python/optimizer.py:9-10 | at module load the stored objective is `None` and the stored constraints are empty |
| `Optimizer.StoredValues.SetObjective` | packages/geogebra-optimizer/python/optimizer.py:8-9 | after a write, the objective callback returns the written value for every argument |
| `Optimizer.StoredValues.SetConstraints` | packages/geogebra-optimizer/python/optimizer.py:8-10 | after a write, the constraints callback returns the written list for every argument |
| `Optimizer.StoredValues.ObjectiveWrapper` | packages/geogebra-optimizer/python/optimizer.py:43-45 | `objective_wrapper(x)` returns the stored objective |
| `Optimizer.StoredValues.ConstraintsWrapper` | packages/geogebra-optimizer/python/optimizer.py:47-51 | `constraints_wrapper(x)` returns the stored constraint list |
| `Optimizer.WrappersIgnoreArgument` | packages/geogebra-optimizer/python/optimizer.py:43-51 | between writes, both callbacks return the stored values whatever their argument |
| `Optimizer.Strategy.constructor` | packages/geogebra-optimizer/python/optimizer.py:40 | the strategy keeps the initial point, step size and options; nothing has been asked or told yet |
| `Optimizer.Strategy.Ask` | packages/geogebra-optimizer/python/optimizer.py:74 | the library call returns the drawn population and is counted |
| `Optimizer.Strategy.Tell` | packages/geogebra-optimizer/python/optimizer.py:91 | the library call appends (solutions, fitnesses) to what the strategy was told |
| `Optimizer.ConstrainedFitness.constructor` | packages/geogebra-optimizer/python/optimizer.py:55-59 | the handler is built over the stored-value callbacks with the given `find_feasible_first` flag |
| `Optimizer.ConstrainedFitness.Update` | packages/geogebra-optimizer/python/optimizer.py:92 | the library call records how many tells `es` had received when the update ran; it leaves in `G` and `best_feas` whatever the library computes (passed in) |
| `Optimizer.InitializeOptimizer` | packages/geogebra-optimizer/python/optimizer.py:13-61 | builds a fresh strategy with the built options and a fresh handler, always with `find_feasible_first=True`; the defaults are sigma 0.5, maxiter 100, popsize 10, tolfun 1e-6 |
| `Optimizer.AskSolutions` | packages/geogebra-optimizer/python/optimizer.py:64-75 | exactly one ask; the population count and order are kept, solution by solution |
| `Optimizer.TellResults` | packages/geogebra-optimizer/python/optimizer.py:78-93 | the strategy is told first; the handler update then sees that tell; `G` and `best_feas` are what the library update leaves; the reply is always "ok" |
| `Optimizer.AllNonPositive` | packages/geogebra-optimizer/python/optimizer.py:131 | the front-to-back `all(g <= 0 ...)` holds exactly when no entry is positive |
| `Optimizer.IsFeasible` | packages/geogebra-optimizer/python/optimizer.py:116-131 | false without a history or with an empty one; otherwise true exactly when every entry of the last row is at most 0 |
| `Optimizer.OnlyLastRowDecides` | packages/geogebra-optimizer/python/optimizer.py:130-131 | rows before the last never change the result |
| `Optimizer.PositiveEntryInfeasible` | packages/geogebra-optimizer/python/optimizer.py:131 | any strictly positive entry in the last row gives False |
| `Optimizer.EmptyLastVectorFeasible` | packages/geogebra-optimizer/python/optimizer.py:131 | an empty last row counts as feasible |
| `Optimizer.GetBestFeasible` | packages/geogebra-optimizer/python/optimizer.py:96-113 | null exactly when `best_feas` or its point is missing; otherwise the same point (length and order), its objective, and `feasible` true |
| `PyStrings.Lower` | packages/geogebra-optimizer-ui/webhook_export_server/server.py:149 | `lower()` keeps the length and lowers each ASCII capital |
| `PyStrings.ReplaceAll` | packages/geogebra-optimizer-ui/webhook_export_server/server.py:207 | `str.replace` never shortens the text when the replacement is at least as long as the pattern, and never lengthens it when the replacement is no longer |
| `PyStrings.ReplaceAllGrows` | packages/geogebra-optimizer-ui/webhook_export_server/server.py:207 | a replacement longer than the pattern makes the text strictly longer as soon as the pattern occurs |
| `PyStrings.ReplaceAllOnlySuffix` | packages/geogebra-optimizer-ui/webhook_export_server/server.py:207 | when the pattern occurs only at the end, `replace` changes only that suffix |
| `ExportServer.ProcessExport` | packages/geogebra-optimizer-ui/webhook_export_server/server.py:126-169 | an unknown source format gives 400 before the output format is looked at; an output other than dxf gives 400; svg→dxf converts with the request's data and options; png/json→dxf give 501; both checks ignore case |
| `ExportServer.ProcessExportIgnoresCase` | packages/geogebra-optimizer-ui/webhook_export_server/server.py:149-163 | requests whose formats differ only in case are routed alike |
| `ExportServer.ResolveSettings` | packages/geogebra-optimizer-ui/webhook_export_server/server.py:192-195 | each present option is used; each missing one falls back to its default |
| `ExportServer.GetOrDefault` | packages/geogebra-optimizer-ui/webhook_export_server/server.py:192-195 | `options.get(key, default)` gives the present value, otherwise the default |
| `ExportServer.DefaultSettings` | packages/geogebra-optimizer-ui/webhook_export_server/server.py:192-195 | no options means tolerance "0.01mm", optimize on, scale 1.0, units "mm" |
| `ExportServer.InsUnitsCode` | packages/geogebra-optimizer-ui/webhook_export_server/server.py:246-253 | ignoring case, mm→4, cm→5, inch→1 and m→6; any other unit leaves `$INSUNITS` unset |
| `ExportServer.InsUnitsCodeInjective` | packages/geogebra-optimizer-ui/webhook_export_server/server.py:246-251 | two units share a code only when they are the same name up to case |
| `ExportServer.TransformPoint` | packages/geogebra-optimizer-ui/webhook_export_server/server.py:266-267 | at scale 1 a point is only flipped in Y |
| `ExportServer.TransformPointRoundTrip` | packages/geogebra-optimizer-ui/webhook_export_server/server.py:266-267 | for a non-zero scale, unscaling and unflipping gives back the coordinate |
| `ExportServer.TransformLine` | packages/geogebra-optimizer-ui/webhook_export_server/server.py:263-268 | one point per coordinate, in the same order, each mapped by the transform |
| `ExportServer.LayerPolylines` | packages/geogebra-optimizer-ui/webhook_export_server/server.py:260-273 | a layer yields as many polylines as it has lines of at least two coordinates |
| `ExportServer.DocumentPolylines` | packages/geogebra-optimizer-ui/webhook_export_server/server.py:256-273 | the document yields as many polylines as it has lines of at least two coordinates |
| `ExportServer.LayerPolylinesAreLongLines` | packages/geogebra-optimizer-ui/webhook_export_server/server.py:260-273 | every polyline of a layer is the transform of one of its lines with at least two coordinates, and every such line's transform is a polyline |
| `ExportServer.DocumentPolylinesAreLongLines` | packages/geogebra-optimizer-ui/webhook_export_server/server.py:256-273 | every polyline of the document is the transform of a line, in some layer, with at least two coordinates, and every such line's transform is a polyline |
| `ExportServer.LayerPolylinesHaveTwoPoints` | packages/geogebra-optimizer-ui/webhook_export_server/server.py:271 | every polyline of a layer has at least two points |
| `ExportServer.DocumentPolylinesHaveTwoPoints` | packages/geogebra-optimizer-ui/webhook_export_server/server.py:271 | every polyline of the document has at least two points |
| `ExportServer.LinePoints` | packages/geogebra-optimizer-ui/webhook_export_server/server.py:263-268 | the inner loop collects exactly the transformed line |
| `ExportServer.AddLayer` | packages/geogebra-optimizer-ui/webhook_export_server/server.py:260-273 | the loop over one layer appends exactly that layer's polylines, and the counter stays equal to the number added |
| `ExportServer.ConvertPaths` | packages/geogebra-optimizer-ui/webhook_export_server/server.py:256-273 | the nested loops produce exactly the document's polylines, in layer and line order, and `path_count` is their number |
| `ExportServer.BuildDrawing` | packages/geogebra-optimizer-ui/webhook_export_server/server.py:245-275 | `$INSUNITS` comes from the units option; the polylines come from the scaled document; `path_count` is the number of lines with at least two coordinates |
| `ExportServer.OptimizedPathAsWritten` | packages/geogebra-optimizer-ui/webhook_export_server/server.py:207 | the server's `replace` name is never shorter than the temporary path, and strictly longer (so different) when the path ends in `.svg` |
| `ExportServer.OptimizedPath` | packages/geogebra-optimizer-ui/webhook_export_server/server.py:207 | the trailing `.svg` becomes `_optimized.svg`; the rest of the path is kept; the result differs from the temporary path |
| `ExportServer.OptimizedPathInjective` | packages/geogebra-optimizer-ui/webhook_export_server/server.py:207 | distinct temporary files get distinct optimized files |
| `ExportServer.AsWrittenAgreesWithoutInnerSvg` | packages/geogebra-optimizer-ui/webhook_export_server/server.py:207 | when `.svg` occurs only at the end of the path, the server's `replace` gives the intended name |
| `ExportServer.AsWrittenRenamesDirectory` | packages/geogebra-optimizer-ui/webhook_export_server/server.py:207 | a `.svg` in the directory name is also replaced, so the optimized file leaves the temporary directory |
| `ExportServer.NestedTemporaryDirectoryExample` | packages/geogebra-optimizer-ui/webhook_export_server/server.py:199-207 | the temporary path `/x.svg/t.svg` splits as directory `/x` + `.svg` and name `/t` + `.svg`, meets the conditions of the lemma above, and has the intended name `/x.svg/t_optimized.svg` |
| `ExportServer.PlanFiles` | packages/geogebra-optimizer-ui/webhook_export_server/server.py:203-236 | with optimize on, vpype writes the file named by the server's `replace` (`OptimizedPathAsWritten`) and it is read back, otherwise the temporary file is read; cleanup removes both created files, and the two names differ |
| `ExportServer.PlanFilesIntendedWithoutInnerSvg` | packages/geogebra-optimizer-ui/webhook_export_server/server.py:207 | when `.svg` occurs only at the end of the temporary path, the plan's optimized file has the intended name |

## Left out

- CMA-ES sampling is left out because it is library code that is not shown. `Strategy.Ask` receives the drawn population as a parameter.
- The CMA-ES mean, step-size and covariance updates are left out for the same reason.
- The CMA-ES stop criteria are library code and are left out.
- The augmented-Lagrangian merit function, the multiplier and penalty adaptation, and the maintenance of `G` and `best_feas` are inside `ConstrainedFitnessAL` and are left out. `IsFeasible` and `GetBestFeasible` take the handler's `G` and `best_feas` as given values.
- `ConstrainedFitness.constructor`: the library's initial `G` and `best_feas` are not shown. The model starts both as absent and promises nothing about them.
- `check_convergence` returns `str(es.stop())`. Both the stop test and the rendering belong to the library, so this function is left out.
- JSON encoding is left out. `AskSolutions` returns the list of solutions rather than its JSON text, and `GetBestFeasible` returns `None` for JSON `null`.
- Numpy-to-list conversion (`list(sol)`) is treated as the identity on values.
- All numbers are `real`, so IEEE-754 rounding, infinities and NaN are not modelled.
- `PyStrings.Lower` lowers only ASCII letters. Python's full Unicode case mapping is not modelled.
- `ExportServer.ResolveSettings` models each option with the type the converter uses. Values of other JSON types are not modelled: Python would accept them dynamically, and later fail with a 500 or use their truthiness.
- The tolerance option is only forwarded to the vpype command line, which is not modelled. It is resolved but not used.
- The server's I/O is left out: FastAPI routing, CORS, the root and health endpoints, the health-check subprocess, the vpype command and its failure path (500), `read_multilayer_svg`, ezdxf document creation and saving, writing, reading and deleting temporary files, the `Response`, the wrapping of every exception into a 500, `print`, and uvicorn startup.
- What vpype reads from the SVG enters `ConvertPaths` as a parameter. The document's layers are a sequence in the dictionary's iteration order.
- `Fitness.SquaredDeviationSumZeroWhenAgree`: only one direction is proved (lists that agree give 0). The converse, that a zero penalty means the lists agree, needs the nonlinear fact that `d * d == 0` forces `d == 0`, which the solver does not settle. Both directions are proved for the total delta.
- `ExportServer.LayerPolylinesAreLongLines` and `ExportServer.DocumentPolylinesAreLongLines` state which polylines there are, but not their order. That order, layer by layer and line by line, is stated only by the recursive definitions that `ConvertPaths` is proved equal to.
- The manual HTTP test client `test_client.py` is I/O only and is left out.

## Findings

| source | as written | input that shows it | evidently intended | confidence | as-written member | corrected member |
|---|---|---|---|---|---|---|
| packages/geogebra-optimizer-ui/webhook_export_server/server.py:207 | `tmp_svg_path.replace('.svg', '_optimized.svg')` replaces every `.svg` in the path, including one inside the temporary directory's name | a temporary directory `/x.svg`, so `tmp_svg_path` is `/x.svg/t.svg`; vpype is then asked to write `/x_optimized.svg/t_optimized.svg`, in a directory that need not exist | replace only the trailing `.svg` of the file name, giving `/x.svg/t_optimized.svg` | low: only temporary directories whose names contain `.svg` are affected; not executed | `ExportServer.AsWrittenRenamesDirectory` | `ExportServer.OptimizedPath` |
