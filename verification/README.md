# Synchronie scoring core in Dafny

Synchronie is a web application for music therapists. They keep patients and sessions
and rate each session against a *grille*, a grid of domains with scored indicators. The
application computes percentages, flags patients at risk and writes periodic reports.

This project models the deterministic core of that application:

- **The rating page.** It stores slider readings per domain and indicator and keeps a
  counter of rated indicators. It computes weighted percentages per domain and pooled
  over the grid, picks a colour band, draws the progress bar and counter animation, and
  saves or resets the rating (`ScoringSession`).
- **The two server-side score calculators.** One is the stateless calculator
  (`CalculCotation`). The other is the grid service (`CotationService`). A lemma relates
  the two.
- **The grid model.** It counts indicators, computes the weighted score and chooses the
  effective weightings (`Grilles`). The grid editor's form is modelled as well
  (`GrilleForm`).
- **Strict validation.** Validation covers indicators, domains, whole grids and the
  score dictionary of a rating (`Validation`).
- **Audio.** Uploads are accepted or refused (`AudioService`). The AI output is parsed
  for key moments and an engagement score (`AiExtraction`).
- **Display helpers.** These are the shared browser helpers: durations, status colours,
  upload checks, live search, rating bars, form validation and alert icons
  (`ClientUtils`, `AppUi`).
- **Analytics and reports.** Analytics covers the evolution trend, patients at risk and
  the monthly report (`Analytics`). Reports covers the report context, the checks made
  before a report is generated, engagement statistics and the period label (`Reports`).
- **The stored models.** These are sessions (`Sessions`), reports (`Rapports`), users
  (`Users`) and patients (`Patients`).
- **Ownership checks.** Records owned by a therapist are filtered and checked
  (`Ownership`).
- **Configuration.** The SQL literal escaping of the grid import script is modelled
  (`SqlEscape`), and so is the database configuration (`Config`).

Some modules are shared support:

- `Wrappers` provides `Option` and `Result`.
- `Text` covers digits, strip, lower-case, index and split.
- `Numbers` models Python's `float()` on strings, JavaScript's `parseInt` and two-digit
  padding.
- `Stats` provides sums and means.
- `MapSums` provides sums over maps.
- `Dates` provides calendar dates and their order.

The source's conventions are kept:

- Python's `//` and `%` floor.
- JavaScript's `Math.floor` is used where the source calls it.
- Python truthiness is spelled out, for example "set and not empty".
- Every clock reading (`datetime.utcnow()`, `date.today()`) is a parameter.

Where the source mutates an object in place, the model is a class with `modifies`
clauses:

- the rating page (`CotationInterface`);
- the grid form (`GrilleFormState`);
- a session (`Session`);
- a report (`Rapport`).

## Model

| member | source | states |
|---|---|---|
| ScoringSession.Round | app/static/js/cotation-enhanced.js:293 | The rounded value lies within one half of the real it rounds. |
| ScoringSession.Percent | app/static/js/cotation-enhanced.js:293 | A percentage is 0 without weight, lies in 0..100 when the total is at most the weight, and is 100 when the total reaches the weight. |
| ScoringSession.DomainPercent | app/static/js/cotation-enhanced.js:288-293 | A domain badge is the rounded percentage of its weighted readings over five times its weight mass, 0 without weight; its range is DomainPercentBounds. |
| ScoringSession.DomainPercentBounds | app/static/js/cotation-enhanced.js:288-293 | A domain badge computed from slider readings 0..5 with non-negative weights lies in 0..100. |
| ScoringSession.GlobalPercent | app/static/js/cotation-enhanced.js:298-307 | The global circle pools every domain's weighted readings and weight mass before dividing, rather than averaging the badges; its range is GlobalPercentBounds. |
| ScoringSession.GlobalPercentBounds | app/static/js/cotation-enhanced.js:283-307 | The global circle lies in 0..100 for readings in the slider range. |
| ScoringSession.DomainBounds | app/static/js/cotation-enhanced.js:288-291 | A domain's weighted total never exceeds five times its total weight. |
| ScoringSession.ZeroReadingAddsOnlyWeight | app/static/js/cotation-enhanced.js:288-291 | A reading of 0 adds nothing to the total but still adds five times its weight to the denominator. |
| ScoringSession.AllTopReadingsGiveHundred | app/static/js/cotation-enhanced.js:288-293 | A domain whose readings are all 5 with positive weights shows 100%. |
| ScoringSession.PooledNotAveraged | app/static/js/cotation-enhanced.js:283-307 | The global circle pools all readings: with domains at 73% and 100% it shows 80%, not 87%, the rounded mean of the badges. |
| ScoringSession.BandOf | app/static/js/cotation-enhanced.js:319-328 | The band is green exactly from 80%, red exactly below 60%, and amber otherwise. |
| ScoringSession.BandMonotone | app/static/js/cotation-enhanced.js:366-375 | A higher percentage never gets a worse band. |
| ScoringSession.PreviousValue | app/static/js/cotation-enhanced.js:252 | The previous reading is the stored one, or 0 when the indicator was never read. |
| ScoringSession.StoreScore | app/static/js/cotation-enhanced.js:248-256 | Storing a reading creates the domain if needed, adds exactly that indicator to the keys and holds the new reading there. |
| ScoringSession.StoreScoreUnchanged | app/static/js/cotation-enhanced.js:248-256 | Every other domain, and every other indicator of the same domain, keeps its reading. |
| ScoringSession.StoreKeepsRange | app/static/js/cotation-enhanced.js:248-256 | Storing a reading in 0..5 keeps every stored reading in the slider's range 0..5. |
| ScoringSession.StoreScoreOverwrites | app/static/js/cotation-enhanced.js:251-256 | A second reading of the same slider replaces the first. |
| ScoringSession.StoreScoreCommutes | app/static/js/cotation-enhanced.js:251-256 | Readings of two different sliders can be stored in either order. |
| ScoringSession.CounterDelta | app/static/js/cotation-enhanced.js:259-263 | The counter goes up by one when a reading goes from 0 to positive and down by one when it goes from positive to 0; otherwise it is unchanged. |
| ScoringSession.RatedCountAfterStore | app/static/js/cotation-enhanced.js:259-263 | The counter update agrees with the number of readings above 0 after the store. |
| ScoringSession.SliderPoids | app/static/js/cotation-enhanced.js:179 | A missing or zero weight attribute becomes 1; any other weight is kept. |
| ScoringSession.Progress | app/static/js/cotation-enhanced.js:400-401 | The progress bar is 0 without indicators, lies in 0..100 while the rated count is at most the total, and is full when all are rated. |
| ScoringSession.CotationInterface.ProgressPercent | app/static/js/cotation-enhanced.js:400-401 | The progress bar width is Progress of the rated counter over the indicator total. |
| ScoringSession.TotalIndicatorsAppend | app/static/js/cotation-enhanced.js:129-132 | Counting indicators distributes over concatenating lists of domains. |
| ScoringSession.AnimateCounter | app/static/js/cotation-enhanced.js:382-392 | As written: the first value shown is one unit from the start towards the target, each later value one unit further, and the last one is the target, reached only at the end; when start equals end it shows end-1 first and then end (see Findings). |
| ScoringSession.AnimateCounterGuarded | app/static/js/cotation-enhanced.js:382-392 | Corrected: there are no steps when start equals end; otherwise there are \|end-start\| values, the first one unit from the start, each next one unit further towards the target, and the last the target. |
| ScoringSession.DomainSums | app/static/js/cotation-enhanced.js:288-291 | The loop's sums are the weighted total and the weight mass of the domain's readings. |
| ScoringSession.CotationInterface.constructor | app/static/js/cotation-enhanced.js:7-15 | A new page has no grid, no session, no readings and zero counters. |
| ScoringSession.CotationInterface.LoadSeanceData | app/static/js/cotation-enhanced.js:54-60 | The session id is parsed from the page attribute when it is present; nothing else changes. |
| ScoringSession.CotationInterface.OnGrilleSelection | app/static/js/cotation-enhanced.js:62-78 | A checked grid card sets the grid id to the parsed value; nothing else changes. |
| ScoringSession.CotationInterface.RenderDomaines | app/static/js/cotation-enhanced.js:125-138 | Rendering sets the indicator total to the grid's count and records the rendered domains; the sliders then report 0, so every rendered indicator holds a 0 reading over the earlier readings and the counter stays the number of readings above 0. |
| ScoringSession.CotationInterface.ReportZeroPositions | app/static/js/cotation-enhanced.js:226-229 | Each slider's 'update' at position 0, in page order, goes through OnSliderChange: the readings become ZeroAll of the old ones, the counter stays consistent, nothing else changes. |
| ScoringSession.CotationInterface.OnSliderChange | app/static/js/cotation-enhanced.js:233-274 | The numeric position is stored with the slider's weight (a missing or zero weight as 1), nothing else in the score map changes, and the counter stays equal to the number of readings above 0. |
| ScoringSession.LabelIsNotANumber | app/static/js/cotation-enhanced.js:208-211 | Every position's label, the text the 'update' event hands over, reads as NaN under parseInt. |
| ScoringSession.CounterDeltaJs | app/static/js/cotation-enhanced.js:252-263 | A NaN reading never moves the counter; numeric readings move it as CounterDelta does. |
| ScoringSession.UpdatesNeverCount | app/static/js/cotation-enhanced.js:228-263 | As written, no run of slider moves changes the counter, so from the page's start it stays 0 and the save button stays disabled. |
| ScoringSession.AcquisNotCounted | app/static/js/cotation-enhanced.js:208-263 | Moving a fresh slider to "Acquis" counts nothing as written, and one rated indicator with the numeric reading. |
| ScoringSession.CotationInterface.UpdateScores | app/static/js/cotation-enhanced.js:276-309 | There is one badge per domain with readings, equal to that domain's weighted percentage, and the global value is the pooled percentage. |
| ScoringSession.CotationInterface.SaveEnabled | app/static/js/cotation-enhanced.js:416 | The save button is enabled when some domain has readings and the rated counter is above 0. |
| ScoringSession.CotationInterface.SaveEnabledImpliesAllowed | app/static/js/cotation-enhanced.js:416 | An enabled save button always passes the save's own test. |
| ScoringSession.CotationInterface.SaveAllowed | app/static/js/cotation-enhanced.js:485 | The save refuses only an empty score map; SaveGuardWeakerThanButton shows it is weaker than the button. |
| ScoringSession.CotationInterface.SaveCotation | app/static/js/cotation-enhanced.js:482-503 | An empty score map is refused; otherwise the session, the grid, the readings and the observations are posted. |
| ScoringSession.CotationInterface.ResetCotation | app/static/js/cotation-enhanced.js:543-554 | A confirmed reset empties the map and the counter, then every rendered slider reports its set(0): the map holds a 0 reading per rendered indicator, the counter is 0, and with at least one indicator the save is allowed while the button stays disabled. A cancelled reset changes nothing. |
| ScoringSession.ZeroAllRated | app/static/js/cotation-enhanced.js:248-262 | Zero reports rate nothing new, keep the stored domains and store every domain that has a slider. |
| ScoringSession.ResetLeavesUnratedReadings | app/static/js/cotation-enhanced.js:543-554 | After a reset of a grid with indicators the score map is not empty and nothing is rated. |
| ScoringSession.SaveGuardWeakerThanButton | app/static/js/cotation-enhanced.js:485 | A slider that reported the position 0 makes the score map non-empty while nothing is rated: the save goes through although the button would be disabled. |
| CalculCotation.ExtraireDomaines | app/services/calcul_cotation_service.py:11-20 | A list is taken as is, decodable JSON text is decoded, and anything else gives no domains. |
| CalculCotation.Pct | app/services/calcul_cotation_service.py:47 | The percentage is 0 without a possible score and lies in 0..100 when the obtained total is at most the possible total. |
| CalculCotation.AddIndicators | app/services/calcul_cotation_service.py:34-46 | The inner loop adds the domain's obtained scores and its maxima to the running totals. |
| CalculCotation.CalculerScoreGlobal | app/services/calcul_cotation_service.py:23-48 | The loop's totals are the obtained and possible totals of the extracted domains, with their percentage. |
| CalculCotation.ObtainedAppend | app/services/calcul_cotation_service.py:37-41 | The obtained total distributes over concatenating domain lists. |
| CalculCotation.PossibleAppend | app/services/calcul_cotation_service.py:43-46 | The possible total distributes over concatenating domain lists. |
| CalculCotation.EmptyDomainIgnored | app/services/calcul_cotation_service.py:33-46 | A domain without indicators changes neither total. |
| CalculCotation.UnknownKeyIgnored | app/services/calcul_cotation_service.py:35-41 | A score under a key that names no indicator of the grid is ignored. |
| CalculCotation.NonNumericSkipped | app/services/calcul_cotation_service.py:37-41 | A score that float() refuses counts as if it were absent. |
| CalculCotation.TotalsWithinMax | app/services/calcul_cotation_service.py:37-46 | When each score lies in 0..its maximum, the obtained total lies in 0..the possible total. |
| CalculCotation.PctWithinHundred | app/services/calcul_cotation_service.py:47 | Under the same condition the percentage lies in 0..100. |
| CalculCotation.SimpleGridExample | tests/test_calcul_cotation_service.py:3-20 | Scores 3 and 4 on two indicators of maximum 5 give 7, 10 and 70%. |
| CalculCotation.TwoIndicators | app/services/calcul_cotation_service.py:33-46 | A domain's totals are the sums over its two indicators. |
| CalculCotation.NonNumericExample | tests/test_calcul_cotation_service.py:23-40 | "non-num" and 5 on maxima 4 and 6 give 5, 10 and 50%: the non-numeric score counts for 0 while its maximum still counts. |
| Numbers.ToFloat | app/services/calcul_cotation_service.py:39 | Python float() on a decoded JSON value: a number is itself, a boolean is 1.0 or 0.0, a text is parsed, None or a container raises (None). |
| CalculCotation.NonNumericText | app/services/calcul_cotation_service.py:38-41 | "non-num" is not a number for float(). |
| CotationService.CalculerScoreGlobal | app/services/cotation_service.py:195-221 | The loop returns the grid service's totals and percentage, or the float() error of the first bad value. |
| CotationService.AddDomainScores | app/services/cotation_service.py:210-217 | The inner loop's outcome is the domain's step of the totals: the sums of its scores and maxima, or the first float() error. |
| CotationService.IndicatorsSum | app/services/cotation_service.py:210-217 | With numeric scores, a domain adds the sum of its scores under present keys and the sum of its maxima to the running totals. |
| CotationService.SumsAsCalculator | app/services/cotation_service.py:210-217 | Those per-domain sums are the stateless calculator's for the same domain name and indicators. |
| CotationService.PrefixErrorPropagates | app/services/cotation_service.py:207-217 | An error raised inside a domain is the error of the whole computation. |
| CotationService.IndicatorsErrorSticks | app/services/cotation_service.py:210-217 | Once an indicator fails, the later indicators do not change the outcome. |
| CotationService.DomainsErrorSticks | app/services/cotation_service.py:207-217 | Once a domain fails, the later domains do not change the outcome. |
| CotationService.AgreesWithCalculator | app/services/cotation_service.py:207-219 | When every domain name is a score key and every value is numeric, the grid service and the stateless calculator give the same totals. |
| CotationService.DomainNameGatesScores | app/services/cotation_service.py:209 | When the domain name is not itself a key, the grid service counts nothing where the stateless calculator counts 3 out of 5. |
| CotationService.NonNumericScoreFails | app/services/cotation_service.py:214-217 | A non-numeric value under an expected key makes the grid service fail with that key. |
| CotationService.IndicatorsWithinMax | app/services/cotation_service.py:210-219 | Numeric scores within their maxima keep the running totals ordered, 0 <= total <= maxTotal. |
| Grilles.GetTotalIndicators | app/models/grille.py:73-79 | The loop's total is the number of indicators over all domains. |
| Grilles.CountIndicatorsAppend | app/models/grille.py:77-78 | Counting distributes over concatenating domain lists. |
| Grilles.MissingIndicatorsCountZero | app/models/grille.py:78 | A domain without an indicator list counts 0. |
| Grilles.SumValues | app/models/grille.py:93 | The loop sums a domain's ratings. |
| Grilles.CalculateWeightedScore | app/models/grille.py:81-97 | The loop returns the weighted mean of the domain averages, or none when there are no ratings, no weightings or no contributing domain. |
| Grilles.WeightedSnoc | app/models/grille.py:89-95 | One weighting further, a contributing domain adds its average times its weight to the total and its weight to the total weight; any other domain adds nothing. |
| Grilles.TermsWithin | app/models/grille.py:89-95 | With positive weights and domain averages in lo..hi, every term of the sums has its factor in lo..hi and a non-negative weight. |
| Stats.DotBetween | app/models/grille.py:94-97 | A sum of value-times-weight terms with values in lo..hi and non-negative weights lies between lo and hi times the sum of the weights. |
| Grilles.WeightedScoreIsMean | app/models/grille.py:97 | The weighted score lies within the range of the domain averages. |
| Grilles.PositiveWeightIffContributor | app/models/grille.py:89-95 | With positive weights, the total weight is positive exactly when some weighted domain has ratings. |
| Grilles.WeightedScoreDefinedIff | app/models/grille.py:83-97 | A score is defined exactly when there are ratings and some weighted domain contributes. |
| Grilles.UnweightedIgnoredTotals | app/models/grille.py:89-90 | Ratings of a domain without a weighting change neither sum. |
| Grilles.UnweightedDomainIgnored | app/models/grille.py:89-97 | Ratings of a domain without a weighting do not change the score. |
| Grilles.GetEffectiveWeightings | app/models/grille.py:170-172 | Non-empty custom weightings win; otherwise the grid's weightings apply. |
| Grilles.EffectiveWeightingsStable | app/models/grille.py:170-172 | Choosing the effective weightings twice changes nothing. |
| GrilleForm.ColourFor | app/static/js/grille-form.js:131-133 | A new domain's colour is the palette entry at the counter modulo 7. |
| GrilleForm.ColoursCycle | app/static/js/grille-form.js:133 | The colours repeat every seven domains. |
| GrilleForm.CollectRow | app/static/js/grille-form.js:202-221 | A row is collected exactly when its stripped name is non-empty and both bounds parse; otherwise it gives the missing-name or invalid-bounds error. The collected unit is the stripped unit field, or "points" when that is empty. |
| GrilleForm.CollectAll | app/static/js/grille-form.js:186-230 | All elements are collected in order exactly when each one is; otherwise the first failure is the result. |
| GrilleForm.CollectAllErrorSticks | app/static/js/grille-form.js:186-230 | Once collection fails, later elements do not change the outcome. |
| GrilleForm.CollectAllFirstError | app/static/js/grille-form.js:186-230 | The result is the error of the first element that fails. |
| GrilleForm.CollectCard | app/static/js/grille-form.js:186-229 | A collected domain has its stripped non-empty name, its colour and one indicator per row, at least one. |
| GrilleForm.Collect | app/static/js/grille-form.js:171-237 | A collected grid has its stripped non-empty name and one collected domain per card, in order, at least one. |
| GrilleForm.CollectedRowsInOrder | app/static/js/grille-form.js:202-222 | A collected domain's k-th indicator is its k-th row, collected. |
| GrilleForm.FirstBadRowDecides | app/static/js/grille-form.js:202-214 | A domain's error is the error of its first bad row. |
| GrilleForm.GrilleFormState.constructor | app/static/js/grille-form.js:6 | A new form has no domain card and a counter at 0. |
| GrilleForm.GrilleFormState.AjouterDomaine | app/static/js/grille-form.js:121-142 | A card with the next colour and one indicator row is appended, and the counter goes up by one. |
| GrilleForm.GrilleFormState.AjouterIndicateur | app/static/js/grille-form.js:150-156 | A row is appended to that card only. |
| GrilleForm.GrilleFormState.SupprimerIndicateur | app/static/js/grille-form.js:158-168 | The row is removed exactly when its card has more than one; otherwise the form is unchanged. |
| GrilleForm.GrilleFormState.SupprimerDomaine | app/static/js/grille-form.js:144-148 | A confirmed removal drops exactly that card. |
| GrilleForm.GrilleFormState.CollecterDonnees | app/static/js/grille-form.js:171-237 | The form's data is the collection of its cards. |
| GrilleForm.CollecterDomaines | app/static/js/grille-form.js:186-230 | The loop over the cards gives the collection of all of them. |
| GrilleForm.CollecterDomaine | app/static/js/grille-form.js:195-222 | The loop over the rows gives the collection of the card. |
| GrilleForm.FirstGrilleId | app/static/js/grille-form.js:272 | The id is the digits after the first "/grilles/" followed by a digit, and it is none when there is no such place. |
| GrilleForm.GetGrilleId | app/static/js/grille-form.js:270-274 | The id is the number after the first "/grilles/" followed by a digit, and there is none exactly when no such position exists. |
| GrilleForm.GrilleIdOfPage | app/static/js/grille-form.js:270-274 | The edit page of grid n yields n. |
| Validation.Cut | app/services/validation_service.py:31 | The cut text is the prefix of at most n characters. |
| Validation.IndicatorName | app/services/validation_service.py:58-62 | The stripped name is accepted exactly when it has 2..100 characters. |
| Validation.IndicatorBounds | app/services/validation_service.py:64-73 | Accepted bounds are the float() values of min and max, defaulting to 0 and 5, with 0 <= min < max <= 100. |
| Validation.IndicatorUnit | app/services/validation_service.py:75-77 | The unit is the stripped field cut to its first 20 characters, or "points" when the field is missing or blank; it has 1..20 characters. |
| Validation.ValiderIndicateur | app/services/validation_service.py:53-84 | An accepted indicator is an object whose name, bounds and unit satisfy the three checks. |
| Validation.StripOfStripped | app/services/validation_service.py:58 | Stripping twice is stripping once. |
| Validation.UnitStartsClean | app/services/validation_service.py:75-77 | A validated unit never starts with whitespace. |
| Validation.RevalidateIndicator | app/services/validation_service.py:53-84 | Validating a validated indicator gives it back unchanged when its unit does not end in whitespace. |
| Validation.CutUnitMayEndInSpace | app/services/validation_service.py:75-77 | Cutting a long unit after stripping can leave trailing whitespace. |
| Validation.InvertedBoundsRefused | app/services/validation_service.py:68-69 | min 10 with max 5 is refused. |
| Validation.DefaultBounds | app/services/validation_service.py:64-77 | A bare named indicator gets bounds 0..5 and the unit "points". |
| Validation.DomainName | app/services/validation_service.py:19-25 | A name is accepted, stripped, exactly when its stripped form has 2..100 characters, all allowed; a shorter one is refused as too short and a longer one as too long. |
| Validation.DomainColour | app/services/validation_service.py:27-29 | The colour always matches the hex pattern, and a matching colour is kept. |
| Validation.CheckEach | app/services/validation_service.py:37-43 | Success validates every element in order; an error is the first refusal, with its position. |
| Validation.DomainCheck | app/services/validation_service.py:14-50 | A domain is accepted exactly when it is an object with a valid name and a non-empty list of indicators that all validate; the accepted domain holds the validated name, the colour chosen from the field, the stripped description cut to 500 characters and each indicator's validated form, in order. |
| Validation.ValiderDomaine | app/services/validation_service.py:14-50 | The loop over the indicators gives the domain check. |
| Validation.IndicatorErrorSticks | app/services/validation_service.py:37-43 | The first refused indicator decides the domain. |
| Validation.NameCheckedFirst | app/services/validation_service.py:19-25 | A bad name is reported before anything else. |
| Validation.ShortDomainNameRefused | app/services/validation_service.py:21-22 | A one-character name is refused as too short. |
| Validation.ColourWithNewlineKept | app/services/validation_service.py:27-29 | A colour followed by a newline passes the pattern, because `$` matches before a final newline. |
| Validation.CheckDistinct | app/services/validation_service.py:97-105 | Accepted domains are validated in order and have pairwise distinct names; conversely, domains that all validate with pairwise distinct names are accepted. |
| Validation.GridCheck | app/services/validation_service.py:87-107 | A grid is accepted exactly when it has 1..20 domains that all validate with pairwise distinct names; the accepted grid holds each domain's validated form, in order. |
| Validation.ValiderGrilleComplete | app/services/validation_service.py:87-107 | The loop over the domains gives the grid check. |
| Validation.DomainErrorSticks | app/services/validation_service.py:97-105 | The first refused domain decides the grid. |
| Validation.TwoDomainGrid | app/services/validation_service.py:97-107 | Two valid domains with different names are accepted as they are. |
| Validation.DuplicateDomainRefused | app/services/validation_service.py:100-102 | A second domain with a name already used is refused at position 2. |
| Validation.ScoreKey | app/services/validation_service.py:116-120 | The key is the domain name, '_' and the indicator name. |
| Validation.ExpectedKeysIff | app/services/validation_service.py:116-120 | A key is expected exactly when some indicator of some domain has it. |
| Validation.ClesAttendues | app/services/validation_service.py:116-120 | The loop collects exactly the expected keys. |
| Validation.Classify | app/services/validation_service.py:123-146 | An accepted score has an expected key and is the float() value; a refusal names its key. |
| Validation.ClassifyWithinBounds | app/services/validation_service.py:141-144 | With the corrected lookup, an accepted score lies within the bounds of an indicator that has its key. |
| Validation.ClassifyAcceptsWithinBounds | app/services/validation_service.py:125-144 | With the corrected lookup, an expected key whose float() value lies within the bounds of every indicator with that key is accepted with that value. |
| Validation.LimitsForSound | app/services/validation_service.py:131-139 | The corrected lookup finds bounds exactly when some indicator has the key, and they are that indicator's bounds. |
| Validation.ChercherLimites | app/services/validation_service.py:131-139 | The loops return the corrected lookup's bounds. |
| Validation.ScoresPartitioned | app/services/validation_service.py:122-148 | For distinct keys, every key ends up accepted or refused, never both, and nothing is lost. |
| Validation.AcceptedWithinBounds | app/services/validation_service.py:141-148 | Every accepted score is its float() value and lies within the bounds of an indicator with its key; conversely an expected key whose number lies within those bounds is accepted with that number. |
| Validation.ValiderScoresCotation | app/services/validation_service.py:110-148 | The loop over the items gives the score check with the corrected lookup. |
| Validation.UnderscoreInDomainNameSkipsBounds | app/services/validation_service.py:131-139 | As written: a domain named "a_b" makes the key split inside the name, so no bounds are found and a score above the maximum is accepted; the corrected lookup refuses it (see Findings). |
| Validation.AsWrittenAgreesOnCleanNames | app/services/validation_service.py:131-139 | When no domain name holds '_' and names are distinct, the lookup as written and the corrected one give the same verdicts. |
| Validation.UnknownKeyRefused | app/services/validation_service.py:123-126 | A key that no indicator has is refused as unexpected. |
| Validation.AboveMaximumRefused | app/services/validation_service.py:141-144 | A score above the maximum is refused as out of range. |
| AudioService.Extension | app/services/audio_service.py:86-87 | The extension is the text after the last dot. |
| AudioService.IsAllowedFile | app/services/audio_service.py:83-87 | A file is allowed when its name has a dot and the lower-cased text after the last dot is one of the six extensions; ExtensionAfterLastDot states it as an iff. |
| AudioService.ExtensionAfterLastDot | app/services/audio_service.py:83-87 | A file is allowed exactly when its lower-cased last extension is one of the six. |
| AudioService.TrailingDotRefused | app/services/audio_service.py:83-87 | A name ending in a dot is refused. |
| AudioService.ValidateAudioFile | app/services/audio_service.py:89-111 | There is no refusal exactly when a named file has an allowed extension and a declared size of at most 25 MB; the refusals come in the order file, format, size. |
| AudioService.SizeLimitInclusive | app/services/audio_service.py:104-109 | Exactly 25 MB is accepted; one byte more is refused. |
| ClientUtils.SecondsParts | app/static/js/main.js:245-248 | Hours, minutes within the hour and seconds recompose the duration. |
| ClientUtils.FormatDuration | app/static/js/main.js:245-255 | "{h}h{mm}min" from one hour on, else "{m}min{ss}s", with floor division; FormatDurationReadsBack reads both forms back. |
| ClientUtils.FormatDurationReadsBack | app/static/js/main.js:245-255 | The text reads back as hours then minutes, or as minutes then seconds. |
| ClientUtils.FormatDurationDropsSeconds | app/static/js/main.js:250-251 | From one hour on, the seconds are not shown. |
| ClientUtils.StatusColor | app/static/js/main.js:181-189 | A known status gets its colour; any other gets the default. |
| ClientUtils.StatusColorsDistinct | app/static/js/main.js:181-189 | The known statuses have distinct colours, none of them the default. |
| ClientUtils.CheckUpload | app/static/js/main.js:71-81 | An upload passes exactly when its type is allowed and it is at most the size limit; the type is checked first. |
| ClientUtils.TypeCheckedFirst | app/static/js/main.js:71-81 | A file with a wrong type and too large is reported for its type. |
| ClientUtils.OnSearchInput | app/static/js/main.js:128-134 | A search is scheduled exactly from two characters on, and the results are cleared for an empty query. |
| ClientUtils.LatestQueryWins | app/static/js/main.js:128-134 | After several keystrokes only the last query's search is pending. |
| ClientUtils.RatingPercent | app/static/js/main.js:212-213 | The bar width times the maximum is the value times 100, and it lies in 0..100 for a value within the maximum. |
| ClientUtils.RatingPercentBounds | app/static/js/main.js:212-213 | The same bounds hold for any nonzero maximum. |
| AppUi.FormatMinutes | app/static/js/app.js:188-196 | "{h}h{mm}" from one hour on, else "{m}min"; FormatMinutesReadsBack reads both forms back. |
| AppUi.FormatMinutesReadsBack | app/static/js/app.js:188-196 | From one hour on, the text reads back as hours and two-digit minutes; below an hour it is the minutes and "min". |
| AppUi.AlertIcon | app/static/js/app.js:141-149 | A known alert type gets its icon; any other gets the info icon. |
| AppUi.AlertIconFallback | app/static/js/app.js:141-149 | Unknown types fall back to the info icon, danger shares the warning icon, and every icon is one of the table's. |
| AppUi.ValidateForm | app/static/js/app.js:78-96 | Each field is marked exactly by whether it is filled; the form is valid exactly when all are, and otherwise submission is prevented with one alert. |
| AiExtraction.CleanLine | app/services/ai_service.py:195 | The cleaned line is a proper suffix of the line. |
| AiExtraction.NumberedLineKeepsDot | app/services/ai_service.py:193-195 | On "3.", the cleaning removes only the digit and keeps the dot. |
| AiExtraction.TimestampAt | app/services/ai_service.py:198 | A timestamp is 4 or 5 characters of the text starting with a digit. |
| AiExtraction.FindTimestamp | app/services/ai_service.py:198-199 | The timestamp found is the first match of the pattern, and none means there is no match. |
| AiExtraction.MomentOf | app/services/ai_service.py:197-211 | A moment has high importance; without a timestamp its description is the cleaned line; with one, the timestamp is the first match in the cleaned line and the description is that line with every occurrence removed and ' :-' stripped, so it neither starts nor ends with ' ', ':' or '-'. |
| AiExtraction.Describe | app/services/ai_service.py:203 | The description is no longer than the cleaned line and neither starts nor ends with ' ', ':' or '-'. |
| AiExtraction.MomentOfLeadingTimestamp | app/services/ai_service.py:197-205 | A line that opens on its timestamp, then separators, then text without the timestamp gives exactly that timestamp and that text. |
| AiExtraction.MomentOfInnerTimestamp | app/services/ai_service.py:203 | Text in front of the first occurrence of the timestamp stays in the description, and the removal goes on after it. |
| Text.RemoveAllAbsent | app/services/ai_service.py:203 | Removing a text that does not occur changes nothing. |
| Text.RemoveAllFirst | app/services/ai_service.py:203 | Text before the first occurrence is kept, the occurrence is removed, and removal goes on after it. |
| Text.RemoveAllLeading | app/services/ai_service.py:203 | A text that opens on the removed text and holds no other occurrence loses exactly that occurrence. |
| Text.StripByLeading | app/services/ai_service.py:203 | Stripping removes exactly the stripped characters in front of a text that starts and ends outside them. |
| Text.StripByEnds | app/services/ai_service.py:203 | A stripped text is no longer than the original and starts and ends outside the stripped characters. |
| Numbers.UnsignedIntJsHex | app/static/js/grille-form.js:204-205 | "0x" followed by hexadecimal digits reads as their value, as parseInt without a radix does. |
| Numbers.ParseIntJsSigned | app/static/js/grille-form.js:204-205 | Unsigned text reads as its unsigned value, and with a '-' in front as the negated value. |
| Numbers.ParseIntJsHexExample | app/static/js/grille-form.js:204-205 | "0x1F" reads as 31, and with a '-' in front as -31. |
| Numbers.ParseIntJs | app/static/js/cotation-enhanced.js:234 | parseInt without a radix: leading whitespace, an optional sign, then a 0x hexadecimal or a decimal digit run, NaN (None) when there is no digit. |
| Numbers.ParseIntJsOfInt | app/static/js/cotation-enhanced.js:64 | parseInt of an integer's decimal text gives the integer back. |
| Numbers.ParseIntJsNoDigit | app/static/js/cotation-enhanced.js:234 | Text that starts with neither whitespace, a sign nor a digit reads as NaN. |
| AiExtraction.QualifyingLines | app/services/ai_service.py:191-193 | Only non-empty lines with a bullet or a number 1-5 qualify. |
| AiExtraction.MomentsOfQualifyingLines | app/services/ai_service.py:191-211 | There is one moment per qualifying line, in order. |
| AiExtraction.ExtractKeyMoments | app/services/ai_service.py:186-213 | The loop keeps the first five moments of the lines. |
| AiExtraction.FirstEngagement | app/services/ai_service.py:219 | The score found is the first digit followed by slashes or spaces and a 5. |
| AiExtraction.ExtractEngagementScore | app/services/ai_service.py:215-234 | The maximum is 5 and the justification is the text; a score is a single digit and needs a '5' in the text. |
| AiExtraction.MatchNeedsFive | app/services/ai_service.py:219-221 | A match implies a '5' in the text and a score of at most 9. |
| AiExtraction.FractionScore | app/services/ai_service.py:219-226 | "d/5" and "d 5" give the score d. |
| Analytics.TrendOf | app/services/analytics_service.py:104-109 | Improvement exactly above the threshold, deterioration exactly below its opposite, and stable in between. |
| Analytics.EvolutionOf | app/services/analytics_service.py:96-109 | The progression is the last percentage minus the first; with fewer than two there is no trend. |
| Analytics.TrendMirror | app/services/analytics_service.py:96-109 | Swapping the first and last percentages negates the progression and swaps improvement and deterioration. |
| Analytics.PresentScores | app/services/analytics_service.py:136-137 | The present scores come from the list; they are empty exactly when all are missing. |
| Analytics.Window | app/services/analytics_service.py:134 | At most the three most recent ratings are kept. |
| Analytics.RiskOf | app/services/analytics_service.py:136-152 | A patient is flagged exactly when the mean of the present recent scores is below the threshold; the entry has the mean, the count, the level and the last rating. |
| Analytics.AllAboveNotFlagged | app/services/analytics_service.py:138-140 | Recent scores all at or above the threshold are never flagged. |
| Analytics.AllBelowFlagged | app/services/analytics_service.py:138-140 | Present recent scores all below the threshold are always flagged. |
| Analytics.AtRisk | app/services/analytics_service.py:120-154 | The at-risk list has at most one entry per patient; AtRiskSound and AtRiskComplete make it exactly the flagged patients, in order. |
| Analytics.AtRiskSound | app/services/analytics_service.py:120-154 | Every listed entry is the risk entry of some patient. |
| Analytics.AtRiskComplete | app/services/analytics_service.py:120-154 | Every flagged patient is listed. |
| Analytics.PatientsARisque | app/services/analytics_service.py:120-154 | The loop gives the list of flagged patients in order. |
| Analytics.MonthWindow | app/services/analytics_service.py:159-160 | The window runs from the first of the month to the first of the next month, with December rolling over to January. |
| Analytics.MonthWindowExact | app/services/analytics_service.py:159-160 | A valid date falls in the window exactly when it is in that month and year. |
| Analytics.MonthWindowsTile | app/services/analytics_service.py:159-160 | Consecutive month windows meet without a gap. |
| Analytics.RapportMensuel | app/services/analytics_service.py:196-202 | The report counts sessions, ratings and distinct patients; its mean is 0 without ratings, and its period reads "MM/YYYY". |
| Analytics.MonthLabel | app/services/analytics_service.py:197 | The period label reads back as the month and the year. |
| Analytics.MonthlyFiguresBounds | app/services/analytics_service.py:198-201 | The patients seen number between 1 and the sessions, and the mean lies within the percentages' range. |
| Reports.SyntheseOf | app/services/report_service.py:39-43 | A summary is kept, stripped, exactly when it is present and non-empty. |
| Reports.GatherConcat | app/services/report_service.py:38-45 | Gathering summaries and scores distributes over concatenating session lists. |
| Reports.Engagements | app/services/report_service.py:44-45 | The engagement scores that are not None, in session order. |
| Reports.EngagementsCount | app/services/report_service.py:44-45 | Never more scores than sessions, and one per session when every session has a score. |
| Reports.BlankSummaryKept | app/services/report_service.py:39-43 | A summary of whitespace only is kept as an empty text. |
| Reports.BuildContext | app/services/report_service.py:35-48 | The loop gathers the kept summaries and the present scores, in session order. |
| Reports.ReportCheck | app/services/report_service.py:53-62 | A report is generated exactly when the patient exists, the start is not after the end and there is a session; the refusals come in that order. |
| Reports.EngagementMean | app/services/report_service.py:70 | There is no mean exactly when there are no scores. |
| Reports.EngagementMeanBetween | app/services/report_service.py:70 | The mean lies within the scores' range. |
| Reports.EngagementTrendOf | app/services/report_service.py:71-78 | From two scores on, the trend compares the last score with the first. |
| Reports.EngagementTrendMirror | app/services/report_service.py:72-78 | Swapping the first and last scores swaps improvement and decline. |
| Reports.PeriodLabel | app/services/report_service.py:80-84 | The label starts with "du <start> au <end>". |
| Reports.LabelSuffixOnlyForKnownPeriods | app/services/report_service.py:81-84 | Only "mensuel" and "annuel" add a suffix. |
| Sessions.StatusValue | app/models/session.py:6-11 | Every status is stored as a non-empty value. |
| Sessions.StatusValueInjective | app/models/session.py:6-11 | The stored values tell the statuses apart. |
| Sessions.DurationDisplay | app/models/session.py:92-98 | "{h}h{mm}" from one hour on, else "{m} min", with Python's floor division; DurationDisplayReadsBack reads both forms back. |
| Sessions.DurationDisplayReadsBack | app/models/session.py:92-98 | From one hour on, the text reads back as hours and two-digit minutes; below, it is the minutes and " min". |
| Sessions.NegativeDurationShowsRemainder | app/models/session.py:94-98 | With floor division, -15 minutes shows as "45 min". |
| Sessions.Session.constructor | app/models/session.py:31-48 | A new session is scheduled, with no recording and nothing processed. |
| Sessions.Session.IsReadyForAiProcessing | app/models/session.py:100-104 | Ready exactly when the session is completed, has a recording and its analysis is not done. |
| Sessions.Session.GetProcessingStatus | app/models/session.py:106-115 | The status is the first missing step, in the order recording, transcription, analysis. |
| Sessions.Session.MarkAudioProcessed | app/models/session.py:117-120 | The audio is marked processed; nothing else changes but the time. |
| Sessions.Session.MarkTranscriptionCompleted | app/models/session.py:122-126 | The text is stored and the step is done; readiness is unchanged and a recorded session is no longer transcribing. |
| Sessions.Session.MarkAiAnalysisCompleted | app/models/session.py:128-133 | The summary and moments are stored; the session is no longer ready, and it is done exactly when recorded and transcribed. |
| Sessions.ProcessRecordedSession | app/models/session.py:122-133 | A recorded session marked transcribed and then analysed is done and no longer ready. |
| Rapports.Rapport.constructor | app/models/rapport.py:30-63 | A new report is a draft with no notes, no recipients and no sending. |
| Rapports.Rapport.IsEditable | app/models/rapport.py:105-107 | Editable exactly as a draft or a generated report. |
| Rapports.Rapport.CanBeSent | app/models/rapport.py:109-111 | Sendable exactly when reviewed or validated with a recipient. |
| Rapports.Rapport.MarkAsReviewed | app/models/rapport.py:113-118 | The report is reviewed, its notes are replaced only by non-empty notes, it is no longer editable, and it is sendable exactly when it has recipients. |
| Rapports.Rapport.MarkAsValidated | app/models/rapport.py:120-123 | The report is validated from any status; it is no longer editable. |
| Rapports.Rapport.MarkAsSent | app/models/rapport.py:125-128 | Only the sending time is recorded; the status and both permissions are unchanged. |
| Rapports.Rapport.NextReportDueDate | app/models/rapport.py:130-133 | The due date is a whole number of weeks after the period's end, and later exactly when the interval is positive. |
| Rapports.ValidateDraft | app/models/rapport.py:120-123 | A draft validated without review can no longer be edited. |
| Rapports.AttendanceRate | app/models/rapport.py:84-91 | The rate is 0 without sessions; otherwise the rate times the number of sessions is 100 times the completed ones. |
| Rapports.AttendanceRateBounds | app/models/rapport.py:84-91 | The rate lies in 0..100. |
| Rapports.AttendanceRateExtremes | app/models/rapport.py:90-91 | The rate is 100 exactly when every session was completed and 0 exactly when none was. |
| Rapports.AttendanceRateRises | app/models/rapport.py:90-91 | One more completed session never lowers the rate. |
| Users.RoleOf | app/models/user.py:7-11 | Parsing a value gives the role stored as that value, or none when no role has it. |
| Users.RoleRoundTrip | app/models/user.py:7-11 | Every role's stored value parses back to it. |
| Users.FullName | app/models/user.py:54-56 | The full name is the first name, a space and the last name. |
| Users.HasRole | app/models/user.py:58-62 | A role is compared directly; a value is parsed first and fails when no role has it. |
| Users.HasRoleByValueOrRole | app/models/user.py:58-62 | Asking by a role's value or by the role gives the same answer. |
| Users.CanAccessPatient | app/models/user.py:64-68 | Admins and supervisors may access every patient, anyone else only the patients assigned to their id; AccessByRole states it role by role. |
| Users.AccessByRole | app/models/user.py:64-68 | Admins and supervisors see every patient; a therapist sees exactly their own patients. |
| Users.TherapistsSeeOnlyTheirPatients | app/models/user.py:64-68 | Two different therapists never both see the same patient. |
| Patients.GetAge | app/models/patient.py:70-76 | The age is the number of whole years: the birthday of that year has passed and the next one has not. |
| Patients.AgeOnBirthday | app/models/patient.py:74-76 | On a birthday the age is the difference of the years. |
| Patients.AgeNotNegative | app/models/patient.py:74-76 | From the birth date on, the age is not negative. |
| Patients.AgeGrows | app/models/patient.py:74-76 | The age never decreases as time goes on. |
| Patients.FullNameSplits | app/models/patient.py:66-68 | For a first name without a space, the first space of the full name separates the two names. |
| Ownership.AssertOwns | app/services/ownership.py:41-50 | No instance is never owned; without a current user, or without an owner field, it is; otherwise ownership is equality of ids. |
| Ownership.OwnedQuery | app/services/ownership.py:30-38 | The query is filtered exactly when there is a current user and the model has the owner field. |
| Ownership.QueryAgreesWithCheck | app/services/ownership.py:25-50 | A record passes the query's filter exactly when the ownership check accepts it. |
| Ownership.UnassignedRecord | app/services/ownership.py:45-49 | A record without an owner is owned only in the system context. |
| SqlEscape.DoubleQuotes | scripts/generate_grilles_insert_sql.py:13 | Doubling adds one character per quote. |
| SqlEscape.EscapeSql | scripts/generate_grilles_insert_sql.py:8-13 | None gives NULL, booleans give true or false, and anything else is quoted with its quotes doubled. |
| SqlEscape.CollapseDoubled | scripts/generate_grilles_insert_sql.py:13 | Collapsing doubled quotes undoes the doubling. |
| SqlEscape.UnescapeRoundTrip | scripts/generate_grilles_insert_sql.py:13 | The text between the outer quotes of a literal reads back as the original text. |
| SqlEscape.EscapeInjective | scripts/generate_grilles_insert_sql.py:8-13 | Different values give different SQL. |
| SqlEscape.LiteralClosesAtEnd | scripts/generate_grilles_insert_sql.py:13 | A SQL reader ends the literal at its last character, so quotes in the text cannot close it early. |
| SqlEscape.ClosesAfterDoubled | scripts/generate_grilles_insert_sql.py:13 | After any prefix, doubled text followed by a quote closes exactly at that quote. |
| Config.NormaliseUrl | config.py:14-16 | A set URL with the "postgres://" scheme gets "postgresql://"; anything else is kept. |
| Config.NormaliseIdempotent | config.py:15-16 | Normalising twice is normalising once. |
| Config.NormaliseKeepsRest | config.py:15-16 | Only the scheme changes. |
| Config.DatabaseUri | config.py:14-18 | A set URL is used normalised; otherwise the SQLite file is used. |
| Config.DatabaseUriOf | config.py:29-43 | The testing configuration uses an in-memory database; the others use the configured URI. |
| Config.DefaultIsDevelopment | config.py:46-51 | The default configuration is the development one: debug on, testing off. |
| Config.MemoryOnlyWhenAsked | config.py:39-43 | Outside testing the in-memory database is used only when the URL names it. |

## Left out

- Text is ASCII only, and whitespace is the six characters that Python's `strip()` and
  JavaScript's `trim()` both remove (tab, line feed, vertical tab, form feed, carriage
  return, space). Python's `strip()` and `\s` also remove the separators U+001C to
  U+001F, and both languages remove non-ASCII spaces; the model keeps those characters.
  `\d` and `lower()` are modelled on ASCII; there is no Unicode case folding.
- `float()` is a subset. Decimal strings with a sign and surrounding whitespace are
  modelled; exponents, `inf`, `nan` and underscores are not.
- Python `KeyError` and `TypeError` paths are not modelled. This covers a domain name
  that is not a string, and JSON values that are neither numbers nor strings.
- Messages are constructors. Error messages are modelled as datatype constructors, not
  as formatted French text. The audio "formats allowed" message lists a set in Python's
  iteration order, which is not modelled.
- Browser lookups (`getStatusColor`, `getAlertIcon`) are plain maps. JavaScript
  object-prototype keys such as "constructor" are not modelled.
- Rounding to one decimal is not modelled (`round(x, 1)` in analytics and reports); the
  model keeps the exact real value.
- ScoringSession.Percent: computes with exact reals where the page uses IEEE doubles,
  so at a half it can round one unit higher than the page. Eight weight-1 indicators
  totalling 23 give 57.5 and 58 here, while the page computes 57.49999999999999 and
  shows 57.
- Clocks are parameters. `datetime.utcnow()` and `date.today()` are parameters. The
  30-day filter of recent ratings and `strftime` formatting of dates are left out; dates
  are `Date` values or day numbers.
- The analytics SQL aggregates `grilles_utilisees` and `patients_actifs`, and every
  database query, are not part of this model. Their results are inputs.
- The browser's display side is not modelled: the noUiSlider widget, timers, fetch and
  the DOM. The user's slider moves, the server reply and the confirm dialog are
  parameters; the reports the sliders make themselves on binding and on `set(0)` are
  modelled. The slider's formatting is modelled only as far as it decides the
  handler's input (`ScoringSession.SliderText`).
- ScoringSession.CotationInterface.OnSliderChange: takes the slider's numeric position
  (0..5, the slider's range and step) instead of the label text the code as written
  hands it. As written every label reads as NaN and the counter never moves (see
  Findings, `ScoringSession.UpdatesNeverCount`); the model keeps the evidently intended
  numeric reading. The weight is taken as the indicator's weight with `|| 1` applied
  (`SliderPoids`); `parseFloat` of the attribute's text is taken to give that number
  back. The NaN percentages that follow from a NaN reading are not modelled.
- ClientUtils.FormatDuration: takes whole non-negative seconds. The script accepts any
  number: a negative count shows a negative remainder (JavaScript's `%` truncates), and a
  fractional count shows the double's decimal digits; neither is modelled.
- AppUi.FormatMinutes: takes whole non-negative minutes, for the same reason; -15 would
  show "-15min" on the page.
- Python floats are exact reals. `CalculCotation.Pct`, `Grilles.CalculateWeightedScore`,
  the means and the `progression > 5` threshold of `Analytics`, the report means and
  `Rapports.AttendanceRate` compute exactly, so a result at a rounding boundary can
  differ from the double the server computes.
- ScoringSession.CotationInterface.RenderDomaines, ScoringSession.CotationInterface.ResetCotation:
  the sliders' own 'update' on binding and on `set(0)` is modelled as a report of the
  numeric position 0 (`ReportZeroPositions`). As written the handler reads the label and
  stores NaN readings (see Findings); the keys, and so the save guard, are the same.
- `padStart(2, '0')` is modelled by `TwoDigits`, which `Numbers.TwoDigitsIsPadStart`
  proves equal to padding the decimal text.
- Validation.RevalidateIndicator: requires a unit without trailing whitespace. A unit
  cut at 20 characters can end in a space (`Validation.CutUnitMayEndInSpace`), and then
  re-validation changes it.
- The save guard follows the code. The described behaviour is that saving needs rated
  indicators, but the code only refuses an empty score map
  (`ScoringSession.SaveGuardWeakerThanButton`).
- JSON is not encoded or decoded. Grids, weightings, key moments and recipients are
  modelled already decoded; a recipient list that fails to decode is the empty list.
- `updated_at` is set from a `now` parameter.
- Rapports.Rapport.NextReportDueDate: works on day numbers, so the overflow of
  `timedelta` beyond year 9999 is not modelled.
- `Rapport.get_period_duration_weeks`, `generate_automatic_content` and
  `get_sessions_in_period` are not modelled. They read the database and the clock; the
  attendance rate takes the period's statuses as input.
- Ownership.OwnedQuery: the exception raised by `filter_by` (which falls back to the
  unfiltered query) is not modelled.
- SqlEscape.EscapeSql: the `str(value)` of a non-string value is taken as given text.
  The script's `main()`, which reads and writes files, is left out.
- Configuration constants other than the database URI, debug and testing flags
  (`SECRET_KEY`, API keys, upload folder, size limit) are not modelled.
- The AI service's network calls (transcription, summary) are left out; only the
  parsing of its answer is modelled.

## Findings

| source | as written | input that shows it | evidently intended | confidence | as-written member | corrected member |
|---|---|---|---|---|---|---|
| app/static/js/cotation-enhanced.js:382-392 | The counter steps one unit towards `end` and stops once it equals `end`, with no guard for `start == end`. When they are equal, the first step moves to `end - 1` and the next one back to `end`, so the display flickers for a value that did not change. | start = end = 40 | No animation when the value does not change. | not executed | ScoringSession.AnimateCounter | ScoringSession.AnimateCounterGuarded |
| app/static/js/cotation-enhanced.js:208-263 | The slider's 'update' event hands the handler the formatted tooltip label ("Non observé" to "Expert"), and the handler reads it with `parseInt`, which gives NaN for every label. `NaN \|\| 0` makes the previous reading 0, and NaN is neither above 0 nor equal to 0, so the rated counter never moves and the save button stays disabled. | moving a fresh slider to "Acquis" (position 3) | The numeric position is read, so that position 3 counts one rated indicator. | not executed | ScoringSession.UpdatesNeverCount | ScoringSession.CotationInterface.OnSliderChange |
| app/services/validation_service.py:131-139 | Bounds are looked up by splitting the key at its first '_'. A domain whose name holds '_' is then never found, so its scores are not bounds-checked. | domain "Bien_etre", indicator "Calme" with bounds 0..5, score 9 under "Bien_etre_Calme" | The bounds of the indicator whose key is the score's key. | not executed | Validation.UnderscoreInDomainNameSkipsBounds | Validation.ValiderScoresCotation |
