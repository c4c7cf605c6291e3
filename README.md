# Summary-statistics munging, modelled in Dafny

This project models the part of ldsc that turns a GWAS summary-statistics
file into the regression's input. There are two converters.

- **The newer converter**, `munge_sumstats` (src/ldsc/munge_sumstats/munge_sumstats.py), works in four phases:
  - **Column naming.** It cleans the raw header names and resolves each column to an internal field through three layers: the ignore list, the column flags and the built-in dictionary.
  - **Column checks.** It checks that exactly one signed statistic is present, that the required columns are there, that no header repeats and that no field is claimed twice.
  - **Reading (`parse_dat`).** It reads the file chunk by chunk, dropping rows for missing values, the `--merge-alleles` panel, INFO, FRQ, P and the alleles, and counts every drop.
  - **After reading.** It removes duplicated SNPs and works out the sample size (`process_n`). It converts P to Z, orients Z by the signed statistic and merges with an allele list.
- **The legacy converter** (sumstats_to_chisq.py) follows its own path through the same ground:
  - its `CNAMES` dictionary, flag map, column selection and pruning of signed-statistic columns;
  - `filter_na` / `filter_snps` with their `drops` counters in a chunk loop;
  - the NSTUDY check, the choice of N and the N filter;
  - CHISQ, the allele filters, the flip to increasing/decreasing alleles and the `--merge-alleles` merge;
  - the `.chisq` columns.

How the model represents the data:

- A table is a set of fields and a sequence of rows.
- A row maps fields to cells. A cell is missing (pandas' NaN) or holds a number or text.
- Row filters are boolean masks. `Select` keeps the rows a mask marks.

The two converters' state is modelled as follows:

- Their straight-line steps are methods returning `Result` values. Every `raise` of the source is a `Failure` constructor.
- The chunk loops are `while` loops whose invariants tie the running totals to specification functions:
  - `FirstFailed`, the stage at which each row is dropped, for the newer converter;
  - `KeptLists`, what each chunk contributes, for the legacy one.
- The legacy `drops` dictionary, which `filter_na` and `filter_snps` update in place, is a class with one field per counter.
- Each converter is also given end to end, from the command-line settings, the header and the chunks read (`MungeConvert.MungeSumstats`, `LegacyConvert.ConvertFile`). Every setting is read once and passed to the stage that reads it; the counts and null value fixed while the columns are resolved flow on to the later steps.

## Model

| member | source | states |
|---|---|---|
| `Text.Upper` | src/ldsc/munge_sumstats/munge_sumstats.py:169 | `upper()` on ASCII text: the same length, and each character upper-cased, so no lower-case letter remains. |
| `Text.Replace` | src/ldsc/munge_sumstats/munge_sumstats.py:169 | `replace(a, b)` for single characters: every `a` becomes `b` and every other character stays. |
| `Text.Remove` | src/ldsc/munge_sumstats/munge_sumstats.py:169 | `replace(c, "")`: no `c` remains, the text does not grow, and text without `c` is unchanged. |
| `Text.RemoveCounts` | src/ldsc/munge_sumstats/munge_sumstats.py:169 | Removal takes out every `c` and nothing else: every other character occurs as often as before, and the length drops by the number of `c`s. |
| `Text.RemoveAppend` | src/ldsc/munge_sumstats/munge_sumstats.py:169 | Removing from a concatenation is removing from each part. |
| `Text.Split` | src/ldsc/munge_sumstats/munge_sumstats.py:417 | `split(sep)`: at least one piece, and no piece holds the separator. |
| `Text.SplitJoin` | src/ldsc/munge_sumstats/munge_sumstats.py:417 | Joining the pieces with the separator gives the text back, so splitting loses nothing. |
| `Schema.NullValue` | src/ldsc/munge_sumstats/munge_sumstats.py:23 | The "no effect" value of a directional statistic is 1 for OR and 0 for LOG_ODDS, BETA and Z. |
| `MungeHeader.CleanHeader` | src/ldsc/munge_sumstats/munge_sumstats.py:161-169 | A cleaned header has no lower-case letter, no `-`, no `.` and no newline. |
| `MungeHeader.CleanHeaderFixes` | src/ldsc/munge_sumstats/munge_sumstats.py:161-169 | A header that is already upper-case and free of `-`, `.` and newlines is left unchanged. |
| `MungeHeader.CleanHeaderIdempotent` | src/ldsc/munge_sumstats/munge_sumstats.py:161-169 | Cleaning twice gives the same result as cleaning once. |
| `MungeHeader.Canonical` | src/ldsc/munge_sumstats/munge_sumstats.py:161-169 | Upper-casing and turning `-` and `.` into `_` keep the length; `clean_header` is that text with its newlines removed. |
| `MungeHeader.CleanHeaderDots` | src/ldsc/munge_sumstats/munge_sumstats.py:161-169 | `.` and `-` are interchangeable: any header with its dots written as dashes cleans to the same label. |
| `MungeHeader.CleanHeaderCase` | src/ldsc/munge_sumstats/munge_sumstats.py:161-169 | Case is ignored: any header and its upper-cased form clean to the same label. |
| `MungeHeader.DefaultZScoreKeyUnreachable` | src/ldsc/munge_sumstats/munge_sumstats.py:78 | The `default_cnames` key `Z-SCORE` never matches: cleaning turns `-` into `_`, so no cleaned header equals it and a `Z-SCORE` column stays unresolved. |
| `MungeHeader.GetCnameMap` | src/ldsc/munge_sumstats/munge_sumstats.py:140-158 | Ignored names never appear. A flag name keeps its flag's field. A default name that no flag overrides keeps its default field. No other name is present. |
| `MungeHeader.OptionMap` | src/ldsc/munge_sumstats/munge_sumstats.py:402 | The keys are exactly the cleaned names of the flags given. When two flags clean to the same name, the later one decides the field. |
| `MungeHeader.FlagLayers` | src/ldsc/munge_sumstats/munge_sumstats.py:403-419 | The `--signed-sumstats` name means SIGNED_SUMSTAT whatever else claims it. `--info-list` names mean INFO over the column flags. Every other flag keeps its field. |
| `MungeHeader.ParseFlagCnames` | src/ldsc/munge_sumstats/munge_sumstats.py:384-426 | Fails exactly when `--signed-sumstats` is given and is not "name,number". Otherwise returns the layered flag map. The null value is parsed when the flag is given and is absent otherwise. |
| `MungeHeader.CleanAll` | src/ldsc/munge_sumstats/munge_sumstats.py:466 | Cleans each name of a list, position by position. |
| `MungeResolve.FirstWithPrefix` | src/ldsc/munge_sumstats/munge_sumstats.py:482 | Absent exactly when no header starts with the prefix; otherwise the first header that does. |
| `MungeResolve.ModDefault` | src/ldsc/munge_sumstats/munge_sumstats.py:470-478 | The result is a sub-dictionary of the defaults. With `--signed-sumstats` (even empty) or `--a1-inc` it maps nothing to a signed kind. Every other default entry is kept. |
| `MungeResolve.DanerLoopDeletesNothing` | src/ldsc/munge_sumstats/munge_sumstats.py:494-496 | The `--daner` loop deletes entries whose field is the literal "c". No field has that label, so the map is unchanged. |
| `MungeResolve.DanerSetup` | src/ldsc/munge_sumstats/munge_sumstats.py:481-498 | Fails exactly when an FRQ_A_/FRQ_U_ header is missing or its suffix does not parse. Otherwise the case/control counts are those suffixes and the raw FRQ_U_ header is mapped to FRQ. |
| `MungeResolve.DanerNSetup` | src/ldsc/munge_sumstats/munge_sumstats.py:500-514 | Fails exactly when there is no FRQ_U_ header or no column named exactly `Nca` or `Nco`. Otherwise FRQ_U_ maps to FRQ, NCA to N_CAS and NCO to N_CON; the lemmas `CleanHeaderNca` and `CleanHeaderNco` give the cleaning of `Nca` and `Nco` to those keys. |
| `MungeResolve.CnameSetupFor` | src/ldsc/munge_sumstats/munge_sumstats.py:463-514 | A malformed signed flag fails. Without the daner formats, the map is `get_cname_map` of the flag map, the (modified) defaults and the ignore list, and the command-line counts pass through. |
| `MungeResolve.TranslationFrom` | src/ldsc/munge_sumstats/munge_sumstats.py:516-520 | `cname_translation`: exactly the headers whose cleaned form the name map knows, each with the field of its cleaned form. |
| `MungeResolve.SpellingsCollide` | src/ldsc/munge_sumstats/munge_sumstats.py:516-565 | Two distinct headers that clean to one known name (`rs-id` and `RS.ID`) both translate, to one field, so the translation is not injective and the field check has a duplicate to report. |
| `MungeResolve.Renamed` | src/ldsc/munge_sumstats/munge_sumstats.py:524-539 | The translation after the signed check: the same headers. With the check on, a directional header reads SIGNED_SUMSTAT; every other header keeps its field, and with the check off nothing changes. |
| `MungeResolve.CheckOf` | src/ldsc/munge_sumstats/munge_sumstats.py:524-584 | Tells which check raised a resolution failure: each failure kind belongs to exactly one of the six checks. |
| `MungeResolve.SignColumn` | src/ldsc/munge_sumstats/munge_sumstats.py:524-539 | Without `--signed-sumstats` and `--a1-inc`: several signed headers fail one way and none fails another. Exactly one is renamed SIGNED_SUMSTAT and gets its kind's null value. With either flag nothing changes. The translation returned is `Renamed`. |
| `MungeResolve.CheckRequired` | src/ldsc/munge_sumstats/munge_sumstats.py:542-549 | No failure exactly when every required field is resolved. Otherwise the failure names the first missing field in the order checked. |
| `MungeResolve.CheckRawDuplicates` | src/ldsc/munge_sumstats/munge_sumstats.py:552-557 | No failure exactly when every translated header occurs once in the file. A failure names a repeated header. |
| `MungeResolve.CheckFieldDuplicates` | src/ldsc/munge_sumstats/munge_sumstats.py:560-565 | No failure exactly when no two headers resolve to the same field. |
| `MungeResolve.DropNStudy` | src/ldsc/munge_sumstats/munge_sumstats.py:574-580 | When N or both count columns are resolved, exactly the NSTUDY headers go; otherwise nothing changes. |
| `MungeResolve.CheckMapping` | src/ldsc/munge_sumstats/munge_sumstats.py:541-565 | No failure exactly when the required fields are present, no translated header repeats and the translation is injective. A missing required field is reported exactly when one is missing; a repeated header exactly when the required fields are there and a header repeats; otherwise a field claimed twice. |
| `MungeResolve.CheckColumns` | src/ldsc/munge_sumstats/munge_sumstats.py:567-584 | Succeeds exactly when N can be determined and, unless `--no-alleles`, both alleles are resolved. "Cannot determine N" is the failure exactly when N cannot be; otherwise the failure is the missing alleles. Success drops NSTUDY (`DropNStudy`) and keeps every other field. |
| `MungeResolve.CheckTranslation` | src/ldsc/munge_sumstats/munge_sumstats.py:541-584 | On the translation after a passing signed-column check: succeeds exactly when no check fails (`FailedCheck`), and a failure is the first check that fails (`CheckOf`), never a signed-column failure. Success drops NSTUDY, every translated header occurs once in the raw header, and the fields are resolved: one field per header, the required fields, a determinable N and alleles unless `--no-alleles`. |
| `MungeResolve.ValidateTranslation` | src/ldsc/munge_sumstats/munge_sumstats.py:516-584 | Succeeds exactly when no check fails (`FailedCheck`), and a failure comes from the first check that fails (`CheckOf`), in the order signed column, required fields, repeated headers, fields claimed twice, N, alleles. Both signed-column failures are exact. Success gives unique headers, only NSTUDY removed, one field per header, the required fields, a determinable N and alleles unless `--no-alleles`. Its value is exactly `ResolutionOf`: the renamed translation without NSTUDY, the null value of the one signed column's kind (or the flag's), and the setup's case and control counts. |
| `MungeResolve.ResolveColumns` | src/ldsc/munge_sumstats/munge_sumstats.py:463-584 | A failed name map propagates. Otherwise, on the translation `TranslationFrom` builds, it succeeds exactly when no check fails, and a failure comes from the first check that fails. Success gives headers that occur once, that the name map knows and that claim distinct fields, with the required fields, no NSTUDY when N is known, and alleles unless `--no-alleles`. Its value is exactly `ResolutionOf` of that translation and setup. |
| `MungeFilters.FilterPvals` | src/ldsc/munge_sumstats/munge_sumstats.py:172-181 | A P-value passes exactly when it is present and in (0, 1]. |
| `MungeFilters.InfoSingle` | src/ldsc/munge_sumstats/munge_sumstats.py:186-188 | With one INFO column, `InfoPasses` lets a row through exactly when INFO is present and at least `info_min`. |
| `MungeFilters.InfoSeveralUniform` | src/ldsc/munge_sumstats/munge_sumstats.py:189-193 | With several INFO columns, `InfoPasses` tests their mean: columns all holding `v` pass exactly when `v >= info_min`. |
| `MungeFilters.InfoOutOfRangeKept` | src/ldsc/munge_sumstats/munge_sumstats.py:184-204 | An INFO above 2 is reported as out of range but still kept when it clears the threshold. |
| `MungeFilters.FrqPasses` | src/ldsc/munge_sumstats/munge_sumstats.py:207-220 | A frequency passes exactly when it lies in [0, 1] and both it and its complement exceed `maf_min`. |
| `MungeFilters.FrqSymmetric` | src/ldsc/munge_sumstats/munge_sumstats.py:218-220 | A frequency and its complement get the same verdict. |
| `MungeFilters.AllelesPass` | src/ldsc/munge_sumstats/munge_sumstats.py:223-225 | A row passes exactly when both alleles are present and their concatenation is a valid SNP. |
| `MungeParse.UpperAlleles` | src/ldsc/munge_sumstats/munge_sumstats.py:292-293 | Only A1 and A2 change, each to its upper-cased cell. |
| `MungeParse.NaExempt` | src/ldsc/munge_sumstats/munge_sumstats.py:241-243 | The field exempt from `dropna` is the one the raw header `INFO` translates to, and there is one exactly when that raw header is present. |
| `MungeParse.InfoSpellingDecidesExemption` | src/ldsc/munge_sumstats/munge_sumstats.py:241-244 | A header spelt other than `INFO` (say `info`) that resolves to INFO is not exempt: a row missing its value fails the NA drop. A header spelt `INFO` exempts the INFO field and only it. |
| `MungeParse.ChunkError` | src/ldsc/munge_sumstats/munge_sumstats.py:247-293 | A chunk raises "not numeric" exactly when a numeric field was read as text. Its only other failure is non-text alleles, which needs allele checking on and some row past the panel. |
| `MungeParse.PastStages` | src/ldsc/munge_sumstats/munge_sumstats.py:237-302 | A row gets past stage `k` exactly when it passes every test up to `k`. Tests are taken in `parse_dat`'s order: NA, panel, INFO, FRQ, P, alleles. |
| `MungeParse.DropCols` | src/ldsc/munge_sumstats/munge_sumstats.py:280-286 | INFO is removed, and FRQ too unless `--keep-maf`. Every other cell is unchanged. |
| `MungeParse.TallyFields` | src/ldsc/munge_sumstats/munge_sumstats.py:236 | Each `drops` counter is the number of rows whose fate is that stage. The SNP counter is never incremented. |
| `MungeParse.SurvivorsAppend` | src/ldsc/munge_sumstats/munge_sumstats.py:302 | Rows keep their input order: `Survivors` of two runs of rows are those of the first, then those of the second. |
| `MungeParse.CountsAppend` | src/ldsc/munge_sumstats/munge_sumstats.py:237-297 | The counters of two runs of rows (`FateCounts`) add up. |
| `MungeParse.FateAccounting` | src/ldsc/munge_sumstats/munge_sumstats.py:236-302 | Every row read is either kept (`Survivors`) or counted under exactly one reason (`FateCounts`). |
| `MungeParse.SurvivorOrigin` | src/ldsc/munge_sumstats/munge_sumstats.py:302 | Every row of `Survivors` is the output of a row read that passed every test. |
| `MungeParse.Survivors` | src/ldsc/munge_sumstats/munge_sumstats.py:298-302 | One row kept per row read that passed every stage. |
| `MungeParse.KeptOut` | src/ldsc/munge_sumstats/munge_sumstats.py:280-297 | A kept row is returned with P in (0, 1] and no INFO. It has no FRQ unless `--keep-maf`, and a valid upper-case allele pair unless `--no-alleles`. |
| `MungeParse.OutCells` | src/ldsc/munge_sumstats/munge_sumstats.py:280-293 | A returned row keeps its P value, loses INFO (and FRQ unless `--keep-maf`) and carries the upper-cased alleles. |
| `MungeParse.SurvivorRows` | src/ldsc/munge_sumstats/munge_sumstats.py:299-302 | Every row `parse_dat` returns satisfies the P, INFO, FRQ and allele properties of `KeptOut`. |
| `MungeParse.NaMaskRanks` | src/ldsc/munge_sumstats/munge_sumstats.py:240-244 | The `dropna` mask keeps exactly the rows that pass stage 0. |
| `MungeParse.MergeMaskRanks` | src/ldsc/munge_sumstats/munge_sumstats.py:256-264 | The panel mask keeps exactly the rows that pass stage 1. Without `--merge-alleles` every row passes it. |
| `MungeParse.InfoMaskRanks` | src/ldsc/munge_sumstats/munge_sumstats.py:266-271 | After the INFO test the mask marks exactly the rows that pass stage 2. |
| `MungeParse.FrqMaskRanks` | src/ldsc/munge_sumstats/munge_sumstats.py:273-278 | After the FRQ test the mask marks exactly the rows that pass stage 3. |
| `MungeParse.PMaskRanks` | src/ldsc/munge_sumstats/munge_sumstats.py:280-290 | The P test on the frame with INFO/FRQ dropped marks exactly the rows that pass stage 4. |
| `MungeParse.AlleleMaskRanks` | src/ldsc/munge_sumstats/munge_sumstats.py:291-297 | The upper-cased rows are the returned rows. The allele test on them marks exactly the rows that pass stage 5. |
| `MungeParse.NoAlleleStage` | src/ldsc/munge_sumstats/munge_sumstats.py:291 | With `--no-alleles` the allele stage drops nothing and leaves the rows as the P stage left them. |
| `MungeParse.NaStep` | src/ldsc/munge_sumstats/munge_sumstats.py:240-244 | Keeps the rows that pass stage 0 and counts exactly those that fail it. |
| `MungeParse.PanelStep` | src/ldsc/munge_sumstats/munge_sumstats.py:256-264 | Keeps the rows that pass stage 1 and counts exactly those that fail it. |
| `MungeParse.InfoStage` | src/ldsc/munge_sumstats/munge_sumstats.py:266-271 | The mask marks the rows past stage 2 and the counter counts exactly those that fail INFO. |
| `MungeParse.FrqStage` | src/ldsc/munge_sumstats/munge_sumstats.py:273-278 | The mask marks the rows past stage 3 and the counter counts exactly those that fail FRQ. |
| `MungeParse.PStage` | src/ldsc/munge_sumstats/munge_sumstats.py:280-290 | Drops INFO/FRQ. The mask marks the rows past stage 4 and the counter counts exactly those that fail P. |
| `MungeParse.AlleleStage` | src/ldsc/munge_sumstats/munge_sumstats.py:291-297 | Upper-cases the alleles. The mask marks the rows past stage 5 and the counter counts exactly those that fail the allele test. |
| `MungeParse.MergeLeftNone` | src/ldsc/munge_sumstats/munge_sumstats.py:260-261 | When the panel leaves no row, the chunk keeps nothing and contributes only its NA and MERGE counts. |
| `MungeParse.ChunkCounts` | src/ldsc/munge_sumstats/munge_sumstats.py:244-297 | A chunk's `FateCounts`: NA and MERGE counted on all its rows, INFO, FRQ, P and A counted on the rows past the panel, as the source counts them after the merge. |
| `MungeParse.ProcessChunk` | src/ldsc/munge_sumstats/munge_sumstats.py:239-302 | Fails exactly when a numeric column was read as text, or when the panel leaves rows whose alleles are not text. Otherwise it keeps exactly the rows that pass every stage, in order, with exactly the per-stage counts. |
| `MungeParse.ChunksErrorFirst` | src/ldsc/munge_sumstats/munge_sumstats.py:237-253 | A list of chunks fails exactly when some chunk fails, and then with the failure of the first one. |
| `MungeParse.ParseNext` | src/ldsc/munge_sumstats/munge_sumstats.py:237-302 | One loop turn either raises the failure of the whole list or extends the row count, the counters and the kept rows by one chunk. |
| `MungeParse.ParseChunks` | src/ldsc/munge_sumstats/munge_sumstats.py:237-302 | The loop raises the first chunk failure. Otherwise the row count, the counters and the kept rows are those of all rows read. |
| `MungeParse.ParseDat` | src/ldsc/munge_sumstats/munge_sumstats.py:228-318 | Fails exactly when a chunk fails or no row survives, because `pd.concat` of nothing raises. Otherwise returns exactly the surviving rows in order, the number of rows read and the per-reason counts. Its result is `ParseResult`. |
| `MungeParse.FirstFailed` | src/ldsc/munge_sumstats/munge_sumstats.py:237-302 | The stage that drops a row, counted from a given stage; 6 means it survives every stage. |
| `MungeN.MaxPresent` | src/ldsc/munge_sumstats/munge_sumstats.py:338 | `max()` skipping NaN: absent exactly when no value is present. Otherwise it is a present value and no present value is larger. |
| `MungeN.MeanPresent` | src/ldsc/munge_sumstats/munge_sumstats.py:326 | `mean()` skipping NaN: absent exactly when no value is present. |
| `MungeN.MeanUniform` | src/ldsc/munge_sumstats/munge_sumstats.py:326 | The NaN-skipping mean of values that all equal `v` is `v`. |
| `MungeN.TotalN` | src/ldsc/munge_sumstats/munge_sumstats.py:324 | N_CAS + N_CON is present exactly when both counts are. |
| `MungeN.CaseFraction` | src/ldsc/munge_sumstats/munge_sumstats.py:325 | A case fraction exists only where the total is present and non-zero. |
| `MungeN.FractionsAtMax` | src/ldsc/munge_sumstats/munge_sumstats.py:326 | `P[N == N.max()]`: a row's case fraction on the rows of largest total, missing elsewhere. |
| `MungeN.RescaledIsCases` | src/ldsc/munge_sumstats/munge_sumstats.py:323-327 | A rescaled N is the row's case count divided by the mean case fraction of the rows of largest total. |
| `MungeN.ScaledN` | src/ldsc/munge_sumstats/munge_sumstats.py:326 | `N * P / mean` on one row: present exactly when the row has a case fraction and the mean is present and non-zero, and then it times the mean is the row's N_CAS. |
| `MungeN.ScaledIsCases` | src/ldsc/munge_sumstats/munge_sumstats.py:326 | A rescaled N, when present, is the row's case count divided by the mean case fraction, and that mean is non-zero. |
| `MungeN.ScaledUnit` | src/ldsc/munge_sumstats/munge_sumstats.py:326 | A row whose case fraction equals the mean keeps N = N_CAS + N_CON. |
| `MungeN.RescaleAtMax` | src/ldsc/munge_sumstats/munge_sumstats.py:323-327 | When the rows of largest total share one case fraction, each of them gets N = N_CAS + N_CON back. |
| `MungeN.AtLeast` | src/ldsc/munge_sumstats/munge_sumstats.py:333 | `xs >= t`: a row passes exactly when its value and the threshold are present and the value reaches the threshold. |
| `MungeN.NThreshold` | src/ldsc/munge_sumstats/munge_sumstats.py:331 | The threshold is `--n-min` when it is truthy. Otherwise it is the 0.9 quantile of the given N column divided by 1.5, and exists exactly when that quantile does. |
| `MungeN.QuantileRowKept` | src/ldsc/munge_sumstats/munge_sumstats.py:331-333 | Without a truthy `--n-min`, a row whose N reaches the column's non-negative 0.9 quantile is among the rows kept. |
| `MungeN.NStudyThreshold` | src/ldsc/munge_sumstats/munge_sumstats.py:338 | The threshold is `--nstudy-min` when it is truthy, else the largest NSTUDY. |
| `MungeN.NStudyMaxSurvivors` | src/ldsc/munge_sumstats/munge_sumstats.py:337-344 | Without a truthy `--nstudy-min`, the NSTUDY filter keeps exactly the rows whose NSTUDY is the maximum. |
| `MungeN.KeptReach` | src/ldsc/munge_sumstats/munge_sumstats.py:333 | Every row kept by the threshold filter holds a value that reaches the threshold. |
| `MungeN.CaseControlStep` | src/ldsc/munge_sumstats/munge_sumstats.py:323-327 | With both count columns, the rows become `CaseControlRows`: N is the rescaled total, the counts are dropped and nothing else changes. Without them the table is untouched. |
| `MungeN.ThresholdStep` | src/ldsc/munge_sumstats/munge_sumstats.py:330-348 | An N column is filtered at `n_min`, computed from the 0.9 quantile of that same column, and every kept row reaches it. Otherwise an NSTUDY column is filtered at `nstudy_min` and dropped, or the table is untouched. |
| `MungeN.ConstantStep` | src/ldsc/munge_sumstats/munge_sumstats.py:350-362 | Fails exactly when there is no N column, no truthy `--N` and not both `--N-cas` and `--N-con`. Without an N column every row gets the constant (`ConstantCells`) and nothing else changes. An existing N column is kept. |
| `MungeN.ProcessN` | src/ldsc/munge_sumstats/munge_sumstats.py:321-364 | Its result is `ProcessNResult`. Fails exactly when there is no source of N. Rescaled counts or an N column are filtered at `n_min`, whose quantile is taken of the column being filtered (the rescaled N after the case/control branch, `FilteredN`), and every kept row reaches it. Otherwise NSTUDY is filtered at `nstudy_min` and dropped, then the constant N is put on every row. |
| `MungeN.ProcessNResult` | src/ldsc/munge_sumstats/munge_sumstats.py:321-364 | `process_n` source by source: rescaled counts (`CaseControlRows`) or an N column filtered at `n_min`, with the quantile taken of the rescaled or original N column being filtered, else the NSTUDY filter and drop followed by the constant N. It fails exactly when there is no source of N. |
| `MungeN.CaseControlRows` | src/ldsc/munge_sumstats/munge_sumstats.py:323-327 | On every row N is the rescaled total, N_CAS and N_CON are gone and every other cell stays. |
| `MungeN.ConstantCells` | src/ldsc/munge_sumstats/munge_sumstats.py:350-357 | `dat["N"] = v`: one cell per row, each holding `v`. |
| `MungeN.TotalNs` | src/ldsc/munge_sumstats/munge_sumstats.py:324 | The column N_CAS + N_CON, row by row. |
| `MungeN.RescaledN` | src/ldsc/munge_sumstats/munge_sumstats.py:326 | One rescaled N per row. |
| `MungeN.CountsReplaced` | src/ldsc/munge_sumstats/munge_sumstats.py:326-327 | After `dat.N = ...` and the drop of the counts, a row has N set, no N_CAS or N_CON, and every other cell unchanged. |
| `MungeSign.CheckMedian` | src/ldsc/munge_sumstats/munge_sumstats.py:372-381 | Fails exactly when the median is present and further than the tolerance from the expected value; the lemma `MedianNaNPasses` draws the corollary that a NaN median never raises. |
| `MungeSign.PToZRow` | src/ldsc/munge_sumstats/munge_sumstats.py:649-650 | P is replaced by Z = `zOf(P)`. A missing P gives a missing Z, and every other field is unchanged. |
| `MungeSign.Oriented` | src/ldsc/munge_sumstats/munge_sumstats.py:655 | Z is negated exactly when the statistic is present and below its null. A missing Z stays missing. |
| `MungeSign.OrientedSign` | src/ldsc/munge_sumstats/munge_sumstats.py:655 | A positive Z ends up with the sign of the statistic's deviation from its null and keeps its magnitude. |
| `MungeSign.OrientedMissingStat` | src/ldsc/munge_sumstats/munge_sumstats.py:655 | A missing statistic never flips Z. |
| `MungeSign.FlipRow` | src/ldsc/munge_sumstats/munge_sumstats.py:655-656 | Z is oriented by SIGNED_SUMSTAT and SIGNED_SUMSTAT is dropped. Every other field is unchanged. |
| `MungeSign.ZDirection` | src/ldsc/munge_sumstats/munge_sumstats.py:649-656 | After `p_to_z` and the flip, Z points in the statistic's direction and its magnitude is the unsigned Z. |
| `MungeSign.PToZ` | src/ldsc/munge_sumstats/munge_sumstats.py:649-650 | Every row is converted as `PToZRow` says, and the row count is unchanged. |
| `MungeSign.FlipSigns` | src/ldsc/munge_sumstats/munge_sumstats.py:655-656 | Every row is oriented as `FlipRow` says, and the row count is unchanged. |
| `MungeMerge.JoinOne` | src/ldsc/munge_sumstats/munge_sumstats.py:434 | A list row yields at least one joined row, each carrying the list row's SNP. |
| `MungeMerge.LeftJoinShape` | src/ldsc/munge_sumstats/munge_sumstats.py:429-436 | With distinct SNPs in the statistics, the join has the list's rows in the list's order. |
| `MungeMerge.LeftJoinFound` | src/ldsc/munge_sumstats/munge_sumstats.py:434-436 | With distinct SNPs, a list row found in the statistics joins to that row plus the list's MA. |
| `MungeMerge.MatchMask` | src/ldsc/munge_sumstats/munge_sumstats.py:437-441 | `jj` marks exactly the joined rows whose A1 + A2 + MA is a matching allele combination. |
| `MungeMerge.Settle` | src/ldsc/munge_sumstats/munge_sumstats.py:454-455 | MA is dropped and SNP kept. A matched row is otherwise unchanged; an unmatched one has every other field missing. |
| `MungeMerge.AlleleMerge` | src/ldsc/munge_sumstats/munge_sumstats.py:429-456 | Its result is `Merged`. Fails exactly when no joined row matches. Otherwise every joined row is settled by its match. With distinct SNPs the result has the list's length and SNP order. |
| `MungeMerge.MatchedRowKept` | src/ldsc/munge_sumstats/munge_sumstats.py:429-456 | A list row whose SNP the statistics hold and whose alleles match comes out as that statistics row, unchanged. |
| `MungeMerge.LeftJoin` | src/ldsc/munge_sumstats/munge_sumstats.py:434 | The left join has at least one row per list row. |
| `MungeMain.PrintColumns` | src/ldsc/munge_sumstats/munge_sumstats.py:664-666 | The written columns are those of SNP, N, Z, A1, A2 the table has, plus FRQ exactly when `--keep-maf` is given and FRQ is present. |
| `MungeMain.ZStep` | src/ldsc/munge_sumstats/munge_sumstats.py:649-656 | Its result is `ZResult`. P becomes Z on every row (`PToZ`). Unless `--a1-inc`, it fails exactly when there is no null value (`NoNullValue`: `check_median` subtracts None) or the median is off its null, and otherwise Z is oriented (`FlipSigns`) and SIGNED_SUMSTAT dropped. With `--a1-inc` the converted table is returned. |
| `MungeMain.MergeStep` | src/ldsc/munge_sumstats/munge_sumstats.py:659-660 | Its result is `MergeResult`. Without a list the table is unchanged. With one it is the allele merge's `Merged`: the only failure is "all discordant"; otherwise the joined rows settled by their match, with SNP, no MA and at least the list's rows. |
| `MungeMain.MungeTail` | src/ldsc/munge_sumstats/munge_sumstats.py:636-666 | Its result is `TailResult`: no rows fail; then `process_n` on the rows `drop_duplicates` keeps, its threshold from the 0.9 quantile of their N, `ZResult` and `MergeResult`, the first failure ending the run. Success writes the `PrintColumns` columns, with N and Z, no P, and no SIGNED_SUMSTAT unless `--a1-inc`. A missing null value fails only without `--a1-inc`. |
| `Dedup.DropDuplicates` | src/ldsc/munge_sumstats/munge_sumstats.py:640 | The result has distinct SNPs and the same set of SNPs. Every kept row is an input row. |
| `Dedup.DropDuplicatesFirst` | sumstats_to_chisq.py:185 | The rows kept are exactly the first occurrence of each SNP, in input order. |
| `Dedup.DropDuplicatesNoop` | src/ldsc/munge_sumstats/munge_sumstats.py:640 | Rows whose SNPs are already distinct are left as they are. |
| `LegacyHeader.CleanHeader` | sumstats_to_chisq.py:55-62 | A cleaned header has the same length, no lower-case letter, no `-` and no `.`. |
| `LegacyHeader.CleanHeaderFixes` | sumstats_to_chisq.py:55-62 | A header already upper-case and free of `-` and `.` is unchanged. |
| `LegacyHeader.CleanHeaderIdempotent` | sumstats_to_chisq.py:55-62 | Cleaning twice gives the same result as cleaning once. |
| `LegacyHeader.CleanHeaderKeepsNewlines` | sumstats_to_chisq.py:55-62 | Unlike the newer converter, cleaning keeps newlines, at their positions. |
| `LegacyHeader.CnamesFixesLabels` | sumstats_to_chisq.py:95-173 | `CNAMES` (`CnameAliases` plus `SelfNames`) maps every internal name to itself. |
| `LegacyHeader.SelfName` | sumstats_to_chisq.py:95-173 | Every internal name is one of the dictionary's self-entries, mapped to itself. |
| `LegacyHeader.ZScoreKeyUnreachable` | sumstats_to_chisq.py:153 | The `Z-SCORE` key contains a `-`, so no cleaned header ever matches it. |
| `LegacyHeader.DanerEntryFixesLabels` | sumstats_to_chisq.py:463-465 | Adding the `--daner` FRQ_U_ entry still maps every internal name to itself. |
| `LegacyHeader.CheckDupCname` | sumstats_to_chisq.py:33-46 | Fails exactly when the name was already set by a flag, or when it is protected and means another field. Otherwise it returns the internal name. |
| `LegacyHeader.ConvertColname` | sumstats_to_chisq.py:48-53 | The cleaned name is first translated through the flag map, then looked up in the dictionary. It fails exactly when the dictionary lacks the key. |
| `LegacyHeader.ConvertPrefersFlag` | sumstats_to_chisq.py:48-53 | A name a flag sets converts to the flag's field, whatever the dictionary says. |
| `LegacyHeader.ConvertByDictionary` | sumstats_to_chisq.py:48-53 | A name no flag sets converts through the dictionary and fails exactly when the dictionary lacks it. |
| `LegacySelect.AddFlagsAccepts` | sumstats_to_chisq.py:426-439 | The fold `AddFlags` over the flag loops succeeds exactly when no name is set twice and no protected name gets another meaning. A failure is an overloaded flag or a protected-name conflict. |
| `LegacySelect.AddFlagsContents` | sumstats_to_chisq.py:426-439 | A successful `AddFlags` maps every entry's name to its internal name and adds nothing else. |
| `LegacySelect.Entries` | sumstats_to_chisq.py:426-439 | Every entry of the two flag loops, from the column flags and `--info-list`, stands for an internal name. |
| `LegacySelect.BuildFlagMap` | sumstats_to_chisq.py:426-439 | The loop over `CNAME_OPTIONS` and `--info-list` computes the fold, stopping at the first conflict. |
| `LegacySelect.SignedEntry` | sumstats_to_chisq.py:441-457 | Succeeds exactly when all of these hold: the flag splits into two parts; the name is not set by a flag; the dictionary reads the name, if at all, as a directional field; the null parses. It then adds the name as SIGNED_SUMSTAT and returns the null. |
| `LegacySelect.FlagMap` | sumstats_to_chisq.py:413-457 | Its result is `FlagSetupFor`: the folded entries, then the signed entry, with every failure propagated. Values are internal names, and a null value exists exactly when `--signed-sumstats` is given. |
| `LegacySelect.FlagSetupFor` | sumstats_to_chisq.py:413-457 | A successful flag map has only internal names as values. It holds a null value exactly when `--signed-sumstats` is non-empty, so the empty text leaves none. A failure is an overloaded flag, a protected-name conflict, a malformed `--signed-sumstats` or an unparsable null. |
| `LegacySelect.RepeatedFlagFails` | sumstats_to_chisq.py:426-439 | Two flags naming the same column make the flag map fail. |
| `LegacySelect.ProtectedFlagFails` | sumstats_to_chisq.py:426-439 | A flag giving a dictionary name another meaning makes the flag map fail. |
| `LegacySelect.FlagMask` | sumstats_to_chisq.py:469 | Marks exactly the header columns whose cleaned name a flag sets. |
| `LegacySelect.DefaultMask` | sumstats_to_chisq.py:478-480 | Marks exactly the header columns the dictionary knows that are not yet used and whose field no flag claims. |
| `LegacySelect.UsecolsOrigin` | sumstats_to_chisq.py:469-480 | Every column of `Usecols` is a header column. One that no flag names comes from the dictionary, under a field no flag claims. |
| `LegacySelect.FlagFoundIff` | sumstats_to_chisq.py:472-475 | A flag key is among the flagged columns read exactly when some header column cleans to it. |
| `LegacySelect.CheckFlagsFound` | sumstats_to_chisq.py:472-475 | No failure exactly when every flag key is found among the cleaned columns. A failure names a missing key. |
| `LegacySelect.PruneDropsOnly` | sumstats_to_chisq.py:483-503 | Pruning removes only the raw names `Z`, `LOR`, `BETA` and `ORZ`, and never one a flag names. |
| `LegacySelect.PruneKeepsFlagged` | sumstats_to_chisq.py:492-503 | A column a flag names is never pruned. |
| `LegacySelect.PruneKeepsLogOdds` | sumstats_to_chisq.py:492 | A column headed `LOG_ODDS` is never pruned: the list names `LOR`, which no dictionary entry uses. |
| `LegacySelect.PruneSignedKeepsOrZ` | sumstats_to_chisq.py:502-503 | With `--signed-sumstats`, columns headed `OR` or `Z` are kept, because the literals `'OR' 'Z'` concatenate to `ORZ`. |
| `LegacySelect.PruneOrDropsZ` | sumstats_to_chisq.py:492-494 | Without `--signed-sumstats`, when OR is among several directional columns, an unflagged `Z` column goes. |
| `LegacySelect.MissingColumn` | sumstats_to_chisq.py:511-523 | No failure implies SNP, P and both alleles are read, N has a source, and a directional statistic is read or `--signed-sumstats` or `--a1-inc` is given. Each failure is one of the five checks. |
| `LegacySelect.AllelesAlwaysRequired` | sumstats_to_chisq.py:522-523 | The allele columns are demanded even under `--no-alleles`. |
| `LegacySelect.DanerCnames` | sumstats_to_chisq.py:463-465 | Without `--daner` the dictionary is `CNAMES`. With it, a missing FRQ_U_ column fails; otherwise the added entry still maps every internal name to itself. |
| `LegacySelect.ConvertSelected` | sumstats_to_chisq.py:478-481 | Columns taken from the flags or the dictionary always convert: a flagged column to its flag's field, any other to its dictionary field. |
| `LegacySelect.ReadColumns` | sumstats_to_chisq.py:469-503 | Every column read is in the header. One no flag names is known to the dictionary under a field no flag claims. |
| `LegacySelect.ReadFields` | sumstats_to_chisq.py:505 | The fields of the columns read, one per column, as the flags or the dictionary give them. |
| `LegacySelect.FlaggedColumnsRead` | sumstats_to_chisq.py:469-503 | Every flag found in the header survives pruning into the columns read. |
| `LegacySelect.CheckHeaderFlags` | sumstats_to_chisq.py:469-475 | No failure exactly when every flag key names a header column up to cleaning. |
| `LegacySelect.SelectColumns` | sumstats_to_chisq.py:410-523 | `--merge` with `--merge-alleles` fails, exactly then. Otherwise a failed flag map (`FlagSetupFor`) or `--daner` dictionary (`DanerCnames`) propagates. Then it fails on a flag key exactly when some flag names no header column, and otherwise its result is `SelectionOf`. Success gives the columns read, their fields, every flag found and no required-column failure. |
| `LegacySelect.SelectionOf` | sumstats_to_chisq.py:505-523 | Once every flag names a column: succeeds exactly when no required-column check fails on the fields read. A failure is one of the five required-column checks. A selection keeps the flag map, the null value and the dictionary it was given, and holds the columns read and their fields. |
| `LegacySelect.SelectionReadsFlagged` | sumstats_to_chisq.py:469-523 | Once every flag names a header column, the selection never fails on a flag, and every flagged column is among the columns it reads. |
| `LegacySelect.ReadSelected` | sumstats_to_chisq.py:469-523 | Fails on a flag key exactly when some flag names no header column; otherwise its result is `SelectionOf`. A failure is a missing flag column or one of the five required-column checks. |
| `LegacySelect.ConvertAll` | sumstats_to_chisq.py:481 | Succeeds exactly when every column converts, and then gives each column's field in order. |
| `LegacySelect.SignedCount` | sumstats_to_chisq.py:484-488 | The number of directional columns read, at most four. |
| `LegacySelect.PruneSigned` | sumstats_to_chisq.py:483-503 | Pruning only removes columns: every column kept was read. |
| `LegacyFilters.Drops.constructor` | sumstats_to_chisq.py:555 | Every counter starts at zero. |
| `LegacyFilters.FilterVerbose` | sumstats_to_chisq.py:175-181 | Raises "No SNPs remain" exactly when nothing remains. |
| `LegacyFilters.DedupRowsFirst` | sumstats_to_chisq.py:185 | The per-chunk de-duplication `DedupRows` keeps the first row of each SNP: distinct SNPs, none lost. |
| `LegacyFilters.CompleteMask` | sumstats_to_chisq.py:192-193 | Marks exactly the rows with no missing cell outside INFO. |
| `LegacyFilters.NaRowsProperties` | sumstats_to_chisq.py:183-199 | The rows `filter_na` keeps (`NaRows`) have distinct SNPs, no missing value outside INFO, and are first occurrences. |
| `LegacyFilters.NaRowsKeeps` | sumstats_to_chisq.py:183-199 | A complete row that is the first of its SNP is kept. |
| `LegacyFilters.FilterNa` | sumstats_to_chisq.py:183-199 | Returns the de-duplicated complete rows. `drops['RS']` and `drops['NA']` each grow by the rows their step removed; the other counters are untouched. |
| `LegacyFilters.FrqStageExact` | sumstats_to_chisq.py:201-263 | The staged mask keeps exactly the rows that pass `PIn`, `InfoOk` (when INFO is present) and `FrqOk` (when FRQ is present). |
| `LegacyFilters.KeptRowsPass` | sumstats_to_chisq.py:263 | Every row `filter_snps` keeps passes all its tests. |
| `LegacyFilters.StagesShrink` | sumstats_to_chisq.py:215-259 | Each stage keeps at most the rows of the one before, so every counter increment is non-negative. |
| `LegacyFilters.FrqOutOfRangeDropped` | sumstats_to_chisq.py:245-253 | A frequency outside [0, 1] is only warned about. With a non-negative `maf_min`, folding drops it anyway. |
| `LegacyFilters.InfoOutOfRangeKept` | sumstats_to_chisq.py:224-226 | An INFO above 1.5 is only warned about and passes when it exceeds `info_min`. |
| `LegacyFilters.OutRowShape` | sumstats_to_chisq.py:242-261 | A returned row has neither INFO nor FRQ and agrees with its input on every other field. |
| `LegacyFilters.PValueMask` | sumstats_to_chisq.py:206-213 | `P > 0`, narrowed by `P <= 1` only when some P exceeds 1, equals the test 0 < P <= 1. |
| `LegacyFilters.FilterSnps` | sumstats_to_chisq.py:201-264 | A text P fails. Otherwise it returns the rows passing every test with INFO and FRQ dropped, and each counter grows by the rows its stage removed. |
| `LegacyFilters.PMask` | sumstats_to_chisq.py:206-211 | Marks exactly the rows with 0 < P <= 1 (`PIn`). |
| `LegacyFilters.InfoMask` | sumstats_to_chisq.py:222-229 | Marks exactly the rows whose INFO (or mean INFO over several columns) exceeds `info_min` (`InfoOk`). |
| `LegacyFilters.FrqMask` | sumstats_to_chisq.py:245-253 | Marks exactly the rows whose folded frequency exceeds `maf_min` (`FrqOk`). |
| `LegacyChunks.MergeMask` | sumstats_to_chisq.py:561 | Marks exactly the rows whose SNP is in the `--merge-alleles` list. |
| `LegacyChunks.ChunkKeptOrigin` | sumstats_to_chisq.py:556-566 | A kept row comes from a row `filter_na` kept that the list holds and that passes `filter_snps`, with FRQ dropped. |
| `LegacyChunks.KeptLists` | sumstats_to_chisq.py:556-566 | One list of kept rows per chunk read. |
| `LegacyChunks.NaRowsFrom` | sumstats_to_chisq.py:183-199 | A row `filter_na` keeps is a row of the chunk. |
| `LegacyChunks.KeptFromChunk` | sumstats_to_chisq.py:556-570 | Every row of the concatenation is part of one chunk's `ChunkKept`. |
| `LegacyChunks.KeptListsSnoc` | sumstats_to_chisq.py:556-566 | `KeptLists` of one more chunk appends that chunk's `ChunkKept`: the chunks contribute in the order read. |
| `LegacyChunks.ReadRowsPass` | sumstats_to_chisq.py:556-570 | Every concatenated row comes from some chunk's row that passed `filter_na`, the list and `filter_snps`. |
| `LegacyChunks.ReadRowsRectangular` | sumstats_to_chisq.py:570 | When every chunk has the same columns, so does every concatenated row. |
| `LegacyChunks.ChunkAccounting` | sumstats_to_chisq.py:556-566 | Each step of a chunk keeps at most the rows of the step before. |
| `LegacyChunks.ProcessChunk` | sumstats_to_chisq.py:558-566 | A text P fails. Otherwise it returns the chunk's contribution, and every row read is kept, counted by a filter or lost to the list. |
| `LegacyChunks.NextChunk` | sumstats_to_chisq.py:556-566 | One loop turn extends `dat_list` and `tot_snps` by one chunk and keeps the accounting of every row read. |
| `LegacyChunks.CollectChunks` | sumstats_to_chisq.py:556-566 | The loop stops at the first chunk with a text P. Otherwise it collects every chunk's contribution, and the rows read equal the rows kept plus all drops. |
| `LegacyChunks.ReadChunks` | sumstats_to_chisq.py:553-584 | Its result is `ReadResult`. The first text P fails. An empty chunk list cannot be concatenated, and no row left raises. Otherwise it returns every chunk's rows in order, and the rows read equal the rows kept plus the counters plus the merge drops. |
| `LegacyN.Below` | sumstats_to_chisq.py:593 | `xs < t`: a row passes exactly when its value and the threshold are present and the value is below it. |
| `LegacyN.Exceeds` | sumstats_to_chisq.py:642 | `xs > t`: a row passes exactly when its value and the threshold are present and the value is above it. |
| `LegacyN.NStudyStep` | sumstats_to_chisq.py:587-596 | Its result is `NStudyResult`. With NSTUDY and neither N nor N_CAS, it raises exactly when no row is below the threshold. No row is removed, and NSTUDY is dropped. |
| `LegacyN.NStudyRaisesAtMax` | sumstats_to_chisq.py:587-596 | Without a truthy `--nstudy-min` the check raises exactly when every present NSTUDY is the maximum. |
| `LegacyN.DanerN` | sumstats_to_chisq.py:599-603 | N is the sum of the integer suffixes of the first FRQ_A_ and FRQ_U_ headers. It fails when either is missing or not an integer. |
| `LegacyN.SourceOf` | sumstats_to_chisq.py:599-633 | The counts are used only when both columns exist, and the N column only when present. There is no source exactly when there is no `--daner` and no other source. |
| `LegacyN.DanerTakesPrecedence` | sumstats_to_chisq.py:599-600 | `--daner` decides N whatever the other flags and columns say. |
| `LegacyN.SampleSizeStep` | sumstats_to_chisq.py:599-633 | Its result is `SampleSizeResult`, source by source (`SourceOf`): N from the daner header (whose failure propagates), `--N` or `--N-cas` + `--N-con` on every row; rescaled from the counts, which are dropped; or the N column. With no source the step fails. |
| `LegacyN.NFilterStep` | sumstats_to_chisq.py:636-646 | Its result is `NFilterResult`. A truthy `--n-min` raises, because `args.min_n` does not exist. Otherwise, unless skipped, it keeps exactly the rows whose N exceeds the threshold, which is the 0.9 quantile of that N column divided by 1.5. |
| `LegacyN.NFilterKeeps` | sumstats_to_chisq.py:642-646 | Every row whose N is above the threshold is kept. |
| `LegacyN.NFilterAbove` | sumstats_to_chisq.py:642-646 | Every kept row has an N above the threshold, and a missing threshold keeps nothing. |
| `LegacyN.ConstantNKept` | sumstats_to_chisq.py:636-646 | A constant positive N survives the filter: when the 0.9 quantile of the N column is that constant, the constant exceeds two thirds of itself. |
| `LegacyN.SampleSizeSteps` | sumstats_to_chisq.py:587-646 | Its result is `SampleSizeStepsResult`: the NSTUDY check, the choice of N and the N filter, the first failure ending the run. With no source of N and no `--daner` the steps fail. Success has N and changes only the sample-size columns. |
| `LegacyN.ChisqRow` | sumstats_to_chisq.py:649-650 | P becomes CHISQ = `chisqOf(P)`. A missing P gives a missing CHISQ, and every other field is unchanged. |
| `LegacyN.ChisqTableRows` | sumstats_to_chisq.py:649-650 | Every row of the converted table is its input row with P turned into CHISQ. |
| `LegacyN.WithConstantN` | sumstats_to_chisq.py:608-615 | Every row gets N set to the constant and is otherwise unchanged; the row count stays. |
| `LegacyN.ChisqTable` | sumstats_to_chisq.py:649-650 | The columns lose P and gain CHISQ, the row count stays, and a rectangular table stays rectangular. |
| `LegacyAlleles.UpperRow` | sumstats_to_chisq.py:655-656 | Both alleles are upper-cased and nothing else changes. |
| `LegacyAlleles.AcgtMask` | sumstats_to_chisq.py:658-659 | Marks exactly the rows whose two alleles are single bases A, C, G or T. |
| `LegacyAlleles.UnambiguousMask` | sumstats_to_chisq.py:671-672 | Marks exactly the rows whose allele pair is not strand-ambiguous. |
| `LegacyAlleles.AlleleFilterStep` | sumstats_to_chisq.py:653-679 | Its result is `AlleleFilterResult`. Non-text alleles fail. No A/C/G/T row fails. An unknown pair fails, and so does all strand-ambiguous. Otherwise it returns the rows passing both filters, all of which pass. |
| `LegacyAlleles.AlleleKeptPass` | sumstats_to_chisq.py:658-672 | Every row the allele filters keep passes them. |
| `LegacyAlleles.AlleleRowKept` | sumstats_to_chisq.py:658-672 | Every row that passes the filters once upper-cased is kept. |
| `LegacyAlleles.DirectionalField` | sumstats_to_chisq.py:266-292 | With `--signed-sumstats` the statistic is SIGNED_SUMSTAT. Otherwise it is a present directional column, and there is none exactly when OR, Z, BETA and LOG_ODDS are all absent. |
| `LegacyAlleles.FlipMask` | sumstats_to_chisq.py:28-31 | Marks exactly the rows whose statistic is a number below its null. |
| `LegacyAlleles.GetFlipAlleles` | sumstats_to_chisq.py:266-299 | The flip is the statistic below its null and the statistic is dropped. In the BETA branch the read after the drop fails. A given `--signed-sumstats` whose null value was never set fails on reading it. Without a statistic, `--a1-inc` flips nothing and otherwise it raises. |
| `LegacyAlleles.FlipRow` | sumstats_to_chisq.py:301-311 | A1/A2 become INC_ALLELE/DEC_ALLELE, swapped exactly when the row is flipped. Every other field is unchanged. |
| `LegacyAlleles.FlipKeepsPair` | sumstats_to_chisq.py:301-311 | The two alleles are kept as a pair however the row is flipped. |
| `LegacyAlleles.FlipAlleles` | sumstats_to_chisq.py:301-312 | Every row is flipped by its own mask entry. A1 and A2 are replaced by INC_ALLELE and DEC_ALLELE. |
| `LegacyAlleles.IncreasingAllele` | sumstats_to_chisq.py:301-312 | A row whose statistic is below its null has A2 as its increasing allele, otherwise A1. |
| `LegacyAlleles.HasN` | sumstats_to_chisq.py:691 | Marks exactly the joined rows with a present N. |
| `LegacyAlleles.MatchKey` | sumstats_to_chisq.py:691-695 | The `MATCH_ALLELES` key exists exactly when the four alleles are all text, and its length is the sum of theirs. |
| `LegacyAlleles.MatchedMask` | sumstats_to_chisq.py:691-704 | Marks exactly the rows with N whose four alleles are a matching combination. |
| `LegacyAlleles.SettleRow` | sumstats_to_chisq.py:705-718 | A1 and A2 are dropped. An unmatched row has the `Nulled` fields (N, CHISQ and both alleles) missing, and every other cell is unchanged. |
| `LegacyAlleles.MergeAlleles` | sumstats_to_chisq.py:685-718 | Its result is `MergeAllelesResult`. An unknown combination fails, and so does no match. Otherwise it returns every joined row settled by its match, with SNP and without A1/A2. |
| `LegacyAlleles.MergeColumnsKeep` | sumstats_to_chisq.py:718 | After the merge the columns the later steps read survive, along with the increasing and decreasing alleles. A1 and A2 are gone. |
| `LegacyAlleles.MergedNIffMatched` | sumstats_to_chisq.py:705-711 | After the merge a row has N exactly when it matched, so `jj.sum()` counts the rows keeping a sample size. |
| `LegacyAlleles.MergeFollowsList` | sumstats_to_chisq.py:690 | With distinct SNPs the merged table has the list's rows in the list's order. |
| `LegacyAlleles.UpperRows` | sumstats_to_chisq.py:655-656 | Every row is upper-cased as `UpperRow` says, and the row count is unchanged. |
| `LegacyMain.ChisqColumns` | sumstats_to_chisq.py:725-726 | The written columns are exactly those of SNP, INFO, N, CHISQ, INC_ALLELE and DEC_ALLELE the table has (MAF is not modelled). |
| `LegacyMain.FlipBaseCoded` | sumstats_to_chisq.py:681-682 | Rows that passed the allele filters keep single-base alleles once flipped. |
| `LegacyMain.FlipStep` | sumstats_to_chisq.py:681-682 | Its result is `FlipResult`. It fails exactly when no directional statistic is found and `--a1-inc` is not given, or when the statistic `DirectionalField` chooses is BETA (dropped before it is read) or is not a column, or is SIGNED_SUMSTAT with no null value. Otherwise the rows are `FlipAlleles` of the rows without that statistic, flipped where it is below its null (`FlipMask`). With `--a1-inc` and no statistic nothing flips. The output has INC/DEC alleles of single bases, no A1/A2, and the same rows. |
| `LegacyMain.AlleleSteps` | sumstats_to_chisq.py:653-718 | Its result is `AlleleStepsResult`: the allele filters, the flip, then the merge when a list is given. The fields the later steps read are kept. Without a list the rows are single-base and no more numerous. |
| `LegacyMain.AllelesOrFail` | sumstats_to_chisq.py:653-721 | Its result is `AllelesOrFailResult`. `--no-alleles` leaves the table alone. Missing allele columns fail. Otherwise the allele steps run, leaving INC/DEC alleles and no A1/A2. |
| `LegacyMain.ChisqTail` | sumstats_to_chisq.py:583-726 | Its result is `ChisqTailResult`: no rows raises; then the sample-size steps, CHISQ, the allele steps and the written columns, the first failure ending the run. Success has CHISQ and N but no P, INC/DEC alleles unless `--no-alleles`, INFO exactly when read, and the columns of `ChisqColumns`. |
| `LegacyMain.ListSnps` | sumstats_to_chisq.py:561 | Exactly the SNPs of the `--merge-alleles` list. |
| `LegacyMain.ConvertChunks` | sumstats_to_chisq.py:553-726 | Its result is `ConvertResult`: the chunk loop (`ReadResult`), then `ChisqTailResult`. An empty chunk list fails. When the loop succeeds, `tot_snps` is the rows read and equals the rows kept plus the `drops` counters plus `merge_drops`, which is 0 without a list. Success writes CHISQ, N and (when read) SNP, but never INFO. |
| `MungeParse.OutKeys` | src/ldsc/munge_sumstats/munge_sumstats.py:280-293 | A returned row has the columns read, without INFO, and without FRQ unless `--keep-maf` (`OutFields`); upper-casing the alleles adds no column. |
| `MungeParse.SurvivorKeys` | src/ldsc/munge_sumstats/munge_sumstats.py:280-305 | Rows read with one set of columns all survive with the same columns (`OutFields`), so the concatenated table is rectangular. |
| `MungeParse.AllRowsKeys` | src/ldsc/munge_sumstats/munge_sumstats.py:305 | Concatenating chunks that were read with one set of columns keeps those columns on every row. |
| `MungeResolve.SignedNull` | src/ldsc/munge_sumstats/munge_sumstats.py:535-536 | With exactly one signed column, its kind's null value, the same whichever way that column is named. |
| `MungeConvert.ListSnpNames` | src/ldsc/munge_sumstats/munge_sumstats.py:256-258 | Exactly the SNP identifiers of the `--merge-alleles` list that the panel test looks up. |
| `MungeConvert.ParseConfigFor` | src/ldsc/munge_sumstats/munge_sumstats.py:618-635 | `parse_dat` reads exactly the columns of the resolved translation, with the NA exemption of its raw `INFO` header (`ConfiguredFrom`), and uses the panel exactly when `--merge-alleles` is given. |
| `MungeConvert.NullValueFixed` | src/ldsc/munge_sumstats/munge_sumstats.py:525-539 | Without `--a1-inc`, a resolution that passes every check has a null value for the median check and sign flip, except exactly when `--signed-sumstats` is the empty text, which line 415 treats as absent and line 525 as present. |
| `MungeConvert.MungeSumstats` | src/ldsc/munge_sumstats/munge_sumstats.py:460-666 | The whole converter. A failed name map propagates; otherwise the resolution `res` succeeds exactly when no check fails, its failure comes from the first failing check, and its value is `ResolutionOf`. A failed resolution ends the run; otherwise the result is `AfterResolution`: `ParseResult` on the chunks read with the translation's columns, then `TailResult` on the survivors, with `process_n` reading the case and control counts of the resolution (set by `--daner` at lines 491-492) and taking the 0.9 quantile of the N it filters, and the sign steps its null value. Success writes N and Z but no P. |
| `LegacySelect.UsecolsHolds` | sumstats_to_chisq.py:469-480 | An unflagged header column that the dictionary reads under a field no flag claims is among the columns collected. |
| `LegacySelect.UnflaggedRead` | sumstats_to_chisq.py:469-503 | An unflagged header column that the dictionary reads under a field no flag claims, and is not named `Z`, `LOR`, `BETA` or `ORZ`, is among the columns read after pruning. |
| `LegacySelect.ReadTwiceAmong` | sumstats_to_chisq.py:505 | When each column read is converted as `ReadAs` says, two distinct unflagged columns that the dictionary reads as one field give that field at least twice among the fields; the counting step is the lemma `TwiceIn` (two distinct positions holding one value count it twice). |
| `LegacySelect.ReadTwice` | sumstats_to_chisq.py:469-506 | Two distinct unflagged header columns that the dictionary reads as one field no flag claims, neither named like a signed column the pruning drops, are both read: that field occurs at least twice among the fields read. `P` and `GC_PVALUE` (lines 112 and 117) are such a pair. |
| `LegacySelect.SelectedNull` | sumstats_to_chisq.py:441-457 | A successful selection holds exactly the flag map's null value. |
| `LegacyMain.FlipWithoutNull` | sumstats_to_chisq.py:266-271 | With `--signed-sumstats` given but no null value set, the flip fails: on the missing SIGNED_SUMSTAT column, or else on the unset null value. |
| `LegacyConvert.EmptySignedFlagFails` | sumstats_to_chisq.py:267-270 | With `--signed-sumstats ""` every flip after a successful selection fails, whether or not `--a1-inc` is given: line 441 tests the flag for truth and sets no null value, and line 267 tests it against None. |
| `LegacyConvert.ConvertFile` | sumstats_to_chisq.py:410-726 | The whole converter. The selection `sel` fails with the incompatible-merge error exactly when `--merge` meets `--merge-alleles`, and succeeds exactly when `SelectedBy` does, with that value. A failed selection ends the run; otherwise the result is `AfterSelection`. Two columns read as P fail at the first chunk (`dat.P.dtype` on a frame, line 202). Otherwise it is `ConvertResult` on the chunks read with the selected columns, with `--signed-sumstats` given when it is not None, the null value the selection parsed, and the N threshold from the 0.9 quantile of the N column. Success writes CHISQ and N but no INFO. |

## Left out

- Reading and writing files. The header line, compression detection, `read_csv` and its chunking, and the gzip, CSV and pickle output are all left out. Chunks are given as values with their columns already renamed to fields, and the header is given as a list of strings.
- The command-line parser and `check_munge_args`. Logging, warnings, timing and the metadata printed after the legacy conversion (mean chi², lambda GC, genome-wide significant count) are also left out.
- `chi2.isf` and `sqrt` are parameters: `zOf` (newer) and `chisqOf` (legacy). So are `np.median` (`median`) and pandas' 0.9 quantile (`quantile`), a function of a column that the model applies to the N column being filtered (lines 331 and 640), as are `float` and `int` parsing of command-line values and header suffixes (`parseReal`, `parseInt`).
- Floating point. Numbers are exact reals, and NaN is a missing cell, so every comparison with it is false. An infinity from dividing by zero is modelled as missing; the one place where this changes what the source keeps is `ScaledN`, below.
- The ldsc tables `VALID_SNPS`, `STRAND_AMBIGUOUS` and `MATCH_ALLELES` are parameters.
- pandas dtype inference. A newer-converter chunk lists its text-typed fields (`Chunk.textCols`). A legacy text cell in a numeric column compares as missing.
- Column order. Column sets are Dafny sets, so the order of the output columns is not modelled.
- The legacy `check_median`: it only logs, so it has no effect to model.
- The `verbose=True` path of the legacy filters: only the chunk loop's quiet call with counters is modelled.
- Several INFO columns in the newer converter. Two headers mapped to INFO already fail at src/ldsc/munge_sumstats/munge_sumstats.py:560-565, so only the single-column branch of `filter_info` is reached. The several-column branch is stated as a property of the filter (`InfoSeveralUniform`).
- Reading the `--merge-alleles` file. Its column check and the upper-casing of its alleles are not modelled; the list is given already in the form the merge reads. Columns of the list beyond SNP and the alleles are left out, so the MAF column that sumstats_to_chisq.py:725 would write from such a column is not modelled.
- `LegacySelect.SelectColumns`: a field other than P and INFO that two header columns read (two spellings of SNP, N or FRQ, say) is carried once. The legacy chunk frame holds one column per field, while the source carries both columns, and pandas then hands a two-column frame to steps that expect one column; what follows is not modelled. Two columns read as P are modelled: they fail at the first chunk (`LegacyConvert.ConvertFile`).
- `MungeConvert.ListSnpNames`: only the text SNP identifiers of the `--merge-alleles` list are looked up, as the chunk rows' SNP cells are read as text.
- Python 2 dictionary order in the legacy flag check: which missing flag key is reported first is left open.
- `GetFlipAlleles`: with `--a1-inc` and no statistic the source builds a one-element `pd.Series(False)`. This is modelled as "flip nothing" on every row, which is what indexing with it amounts to.
- `LegacyMain.AlleleSteps`: after a merge the rows are not claimed to keep single-base alleles. The merge sets unmatched rows' alleles to NaN.
- `Text.Upper`: upper-cases ASCII letters only. Python 3's `str.upper`, used by the newer converter's `clean_header` and allele upper-casing (src/ldsc/munge_sumstats/munge_sumstats.py:169, 292-293), also maps other letters: `ſnp` becomes `SNP` and `ınfo` becomes `INFO`, so such headers resolve in the source but not in the model, and `ß` becomes `SS`, so the length can change. The legacy converter runs on Python 2, whose `str.upper` is ASCII-only, so it is modelled exactly.
- `MungeN.ScaledN`: when every row of largest N has no cases, the mean case fraction is 0. The source then computes `+inf` for rows with cases, which passes `N >= n_min` and is kept, and NaN for rows without, which is dropped. The model gives missing for every row, so all of them are dropped.
