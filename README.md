# Scrape-with-fallback market-intelligence engine, modelled in Dafny

This project models the one part of the Wegovy market-intelligence dashboard
that has real logic: `StructuredMarketIntelligenceEngine` in
`codes/analysis.py`. The model covers three parts:

- **A per-topic cache.** `live_scraped_cache` and `scrape_timestamps` are two
  maps keyed by topic. They hold the produced record and the time it was
  produced. An entry counts as fresh while its age in minutes is strictly below
  the topic's TTL. The TTLs are 60, 90, 120 and 90 minutes. The "Refresh All"
  button clears both maps.
- **Extraction of gender-specific obesity rates.** The loop runs over the
  regular-expression matches found in a fetched page. A captured rate is
  accepted only when `1 < rate < 50`. An accepted rate is written to the male or
  female record's `prevalence` key.
- **Fallback completion.** If either gender record is empty, both are replaced
  by fixed baselines. Otherwise each missing key is filled with its default.

The model also includes the pure helpers around these parts: the state lookup
tables with their defaults, the addressable-population formula, and the
state-ranking loop of the geographic topic. The fixed records of the
geographic, comorbidity and treatment topics are written out as values.

Modules, one per component:

- `values.dfy` (`Values`): the JSON-like `Value` type of the cached dicts.
- `rounding.dfy` (`Rounding`): Python's `round(x, n)` on exact reals.
- `extraction.dfy` (`Extraction`): number parsing, the plausibility filter and the extraction loop.
- `fallback.dfy` (`Fallback`): baselines, defaults and the completion step.
- `state_tables.dfy` (`StateTables`): the per-state tables, the addressable population and the state ranking.
- `static_data.dfy` (`StaticData`): the fixed geographic, comorbidity and treatment records.
- `cache.dfy` (`Cache`): the freshness test, the `Engine` class with its two maps and scrape methods, and sessions of several calls on one engine.

Two behaviours of the code worth stating plainly:

- The extraction loop overwrites the slot, so the **last** accepted match per gender wins (`Extraction.LastAcceptedWins`).
- The fill branch keeps every key already present, extras included, and never fills `prevalence`. Both records end up with exactly the five keys only because extraction writes nothing but `prevalence` (`Fallback.Completed`, `Fallback.ExactlyRequiredKeys`, `Cache.ResolvedGenderIsComplete`).

Conventions:

- **Time:** an integer count of microseconds, the resolution of `datetime`. A scrape call reads the clock twice: `now` for the freshness test (codes/analysis.py:603) and `stampedAt` for the stamp `_cache_data` writes after the record is produced (:610). For the gender topic the HTTP fetch happens between the two readings. Nothing orders the two readings: a clock that goes backwards, between calls or within one, gives a negative age, which counts as fresh, as in the code.
- **Numbers:** exact reals. Python ints in the records, such as `78`, are written `78.0`.
- **Fetches:** the fetch and the `re.findall` results are inputs of type `Cache.FetchOutcome`.

## Model

| member | source | states |
|---|---|---|
| `Rounding.RoundHalfEven` | codes/analysis.py:258-259 | the result is within 1/2 of the input; an exact tie goes to the even integer; integers are unchanged |
| `Rounding.Round1` | codes/analysis.py:258-265 | `round(x, 1)` lies within 0.05 of x and on the 0.1 grid |
| `Rounding.Round2` | codes/analysis.py:595 | `round(x, 2)` lies within 0.005 of x and on the 0.01 grid |
| `Rounding.RoundHalfEvenMonotone` | codes/analysis.py:595 | rounding never reverses the order of two values |
| `Extraction.RemoveDots` | codes/analysis.py:149 | `replace('.', '')` leaves no dot, and every non-dot character of the input occurs in the result |
| `Extraction.RemoveDotsAppend` | codes/analysis.py:149 | removing dots distributes over concatenation, so order and multiplicity of the other characters are kept |
| `Extraction.RemoveDotsChar` | codes/analysis.py:149 | a single dot is removed and any other single character is kept; with the concatenation lemma this determines the result |
| `Extraction.ToFloat` | codes/analysis.py:149 | `float()` succeeds exactly on literals of digits with at most one dot and at least one digit |
| `Extraction.DigitStringValue` | codes/analysis.py:149 | `float()` of a string of digits is the integer those digits denote |
| `Extraction.RemoveDotsJoinsParts` | codes/analysis.py:149 | removing the dot of a decimal literal joins the digits before it to the digits after it |
| `Extraction.DigitsValueAppend` | codes/analysis.py:149 | appending digits shifts the value of the leading digits by ten to the number of appended digits and adds theirs |
| `Extraction.DecimalValueScaled` | codes/analysis.py:149 | the value `float()` returns for a literal with a dot, scaled by ten to the number of digits after the dot, is the integer the `isdigit()` guard reads once the dot is removed (`float("15.2") * 10 == 152`) |
| `Extraction.DecimalLiteralPassesGuard` | codes/analysis.py:149 | any text `float()` accepts passes the `isdigit()` guard once its dots are removed |
| `Extraction.GenderOf` | codes/analysis.py:151-153 | 'male'/'men' name the male slot and 'female'/'women' the female slot, and no other token names a slot |
| `Extraction.GenderTokenIsNotANumber` | codes/analysis.py:149 | converting a gender token with `float()` raises, so the fallback conversion never yields a write |
| `Extraction.Classify` | codes/analysis.py:146-156 | a match contributes exactly when it has two groups, its token names a gender, and its capture parses to a rate with 1 < rate < 50; it then contributes that gender and that rate |
| `Extraction.StepTouchesOnlyItsGender` | codes/analysis.py:150-154 | an accepted match overwrites only its own gender's slot |
| `Extraction.EmptySlotIffNoneAccepted` | codes/analysis.py:143-156 | a gender's slot stays empty if and only if no match is accepted for that gender |
| `Extraction.LastAcceptedWins` | codes/analysis.py:143-154 | the last accepted match for a gender decides its prevalence |
| `Extraction.ExtractedRatesArePlausible` | codes/analysis.py:150 | every extracted prevalence lies strictly between 1 and 50 |
| `Extraction.PrevalenceRecord` | codes/analysis.py:152-154 | extraction writes only the `prevalence` key, and a record is empty exactly when nothing was accepted |
| `Extraction.ApplyMatch` | codes/analysis.py:146-156 | one inner-loop iteration turns the records of some slots into the records of those slots after that match's step |
| `Extraction.ExtractMatches` | codes/analysis.py:146-156 | the inner loop over one pattern's matches extends the records of the matches so far to the records of those matches followed by this pattern's, in order |
| `Extraction.ExtractPrevalence` | codes/analysis.py:143-156 | the nested loop over patterns and matches yields the records of the last accepted rate per gender over all matches in order |
| `Extraction.SeventyTwoIsRejected` | codes/analysis.py:150 | a capture of 72 is rejected as implausible |
| `Extraction.FifteenPointTwoIsAccepted` | codes/analysis.py:149-154 | a capture of "15.2" with token 'women' is accepted as female rate 15.2 |
| `Extraction.NonNumericCaptureIsSkipped` | codes/analysis.py:146-156 | a capture that `float()` rejects is skipped without error |
| `Fallback.FillMissing` | codes/analysis.py:189-210 | present keys keep their values, missing default keys get their defaults, and no other key appears |
| `Fallback.Completed` | codes/analysis.py:164-210 | both records hold the four comorbidity and age keys, and all five keys when the inputs hold at most `prevalence` |
| `Fallback.FillMaleDefaults` | codes/analysis.py:190-199 | the key-by-key fill of the male record equals filling it from the male defaults |
| `Fallback.FillFemaleDefaults` | codes/analysis.py:201-210 | the key-by-key fill of the female record equals filling it from the female defaults |
| `Fallback.CompleteRecords` | codes/analysis.py:164-210 | the fallback step computes the completed pair |
| `Fallback.EmptyRecordGivesBaselines` | codes/analysis.py:164-187 | an empty record for either gender replaces both by the baselines, with prevalences 12.8 and 15.2 |
| `Fallback.PresentKeysSurvive` | codes/analysis.py:188-210 | with both records non-empty, present keys such as a scraped prevalence survive and missing keys get their defaults, the age distribution as one sub-record |
| `Fallback.ExactlyRequiredKeys` | codes/analysis.py:163-210 | records as extraction leaves them come out with exactly the five required keys |
| `Fallback.ScrapedPrevalenceCompletion` | codes/analysis.py:188-210 | two scraped prevalences complete to the defaults plus those prevalences |
| `Fallback.CompletionIsIdempotent` | codes/analysis.py:163-210 | completing a completed pair changes nothing |
| `StateTables.StateNamed` | codes/analysis.py:571 | a key that selects a table entry is that state's name |
| `StateTables.StateNameRoundTrip` | codes/analysis.py:565-570 | each listed state's key selects that state, so the keys are distinct |
| `StateTables.PurchasingPower` | codes/analysis.py:563-571 | the listed index of a state, 50 for a key the table does not list; always within 38..88 |
| `StateTables.HealthcareAccessScore` | codes/analysis.py:573-581 | the listed score of a state, 60 for a key the table does not list; always within 45..95 |
| `StateTables.Population` | codes/analysis.py:585-593 | the listed population of a state, 20.0 for a key the table does not list; always within 1.2..238.6 |
| `StateTables.CombinedPrevalence` | codes/analysis.py:594 | the larger of the obesity rate and 0.7 times the diabetes rate, as a fraction, so at least each of them |
| `StateTables.AddressableOf` | codes/analysis.py:594-595 | the rounded product is a whole number of hundredths, lies within 0.005 of population times combined prevalence, and is non-negative for a non-negative obesity rate |
| `StateTables.AddressablePopulation` | codes/analysis.py:583-595 | a whole number of hundredths within 0.005 of the state's population times the combined prevalence; a listed state uses its listed population and an unlisted one the 20.0 default; non-negative for a non-negative obesity rate |
| `StateTables.RankEntry` | codes/analysis.py:258-266 | a ranking entry has exactly the four keys, with the derived obesity and diabetes rates |
| `StateTables.RankRatesFollowFormulas` | codes/analysis.py:258-259 | the obesity rate lies within 0.05 of 3.9 times the multiplier and the diabetes rate within 0.05 of 2.8 times the obesity rate |
| `StateTables.ObesityRateMonotone` | codes/analysis.py:258 | a larger multiplier never yields a smaller obesity rate |
| `StateTables.StatesWithMultipliersDistinct` | codes/analysis.py:235-253 | the ranking table lists each state once |
| `StateTables.RankingOfEntries` | codes/analysis.py:257-266 | for distinct states, each listed state is ranked under its name with the entry derived from its multiplier |
| `StateTables.RankingOfKeys` | codes/analysis.py:257-266 | every ranked key is the name of some listed state |
| `StateTables.RankingOfCharacterization` | codes/analysis.py:257-266 | every listed state is ranked under its name with its derived entry, and nothing else is ranked |
| `StateTables.DeriveStateRanking` | codes/analysis.py:255-266 | the loop builds the state ranking, one update per state in table order |
| `StaticData.GeographicOf` | codes/analysis.py:224-230 | geographic_data has exactly its five top-level keys, with the ranking under `state_ranking` |
| `StaticData.GeographicRecord` | codes/analysis.py:224-352 | the geographic record has exactly its five top-level keys and holds the given ranking under `state_ranking` |
| `StaticData.ComorbidityRecord` | codes/analysis.py:366-410 | the comorbidity record has exactly its four top-level keys |
| `StaticData.TreatmentRecord` | codes/analysis.py:424-490 | the treatment record has exactly its four top-level keys |
| `Cache.AgeMinutes` | codes/analysis.py:603-604 | the age in minutes is exactly the elapsed microseconds over 60,000,000, and non-negative exactly when the clock has not gone back |
| `Cache.IsFresh` | codes/analysis.py:603-605 | the comparison holds exactly when the elapsed microseconds are below TTL minutes |
| `Cache.FreshIffYoungerThanTtl` | codes/analysis.py:602-605 | an entry is fresh if and only if now minus its timestamp is below TTL minutes |
| `Cache.StaleAtExactTtl` | codes/analysis.py:605 | at an age equal to the TTL the entry is stale |
| `Cache.FreshEarlier` | codes/analysis.py:602-605 | an entry fresh at some time was fresh at every earlier time |
| `Cache.ExtractedRecords` | codes/analysis.py:126-156 | a fetch error or a non-200 status leaves both records empty; extraction leaves at most a `prevalence` key per gender |
| `Cache.GenderAnalysis` | codes/analysis.py:117-123 | gender_analysis has exactly its five top-level keys |
| `Cache.ResolveGender` | codes/analysis.py:117-211 | the record a live refresh produces has the five top-level keys and both gender records complete |
| `Cache.GenderRecordsOfAnalysis` | codes/analysis.py:117-123 | the male and female records sit under `male_obesity` and `female_obesity` of the returned analysis |
| `Cache.ResolvedGenderIsComplete` | codes/analysis.py:163-212 | whatever the fetch did, the refreshed record gives both genders exactly the five required keys |
| `Cache.FailedFetchGivesBaseline` | codes/analysis.py:126-187 | a fetch exception or a non-200 status yields the baselines, male 12.8 and female 15.2 |
| `Cache.ScrapedRatesAreKept` | codes/analysis.py:143-210 | with accepted matches for both genders, each stored prevalence is the last accepted rate and the other keys are the defaults |
| `Cache.OneMissingGenderGivesBaselines` | codes/analysis.py:164-187 | when one gender has no accepted match, both records become the baselines and the other gender's scraped rate is dropped |
| `Cache.Engine.constructor` | codes/analysis.py:36-39 | the session starts with both maps empty |
| `Cache.Engine.IsCacheValid` | codes/analysis.py:597-605 | a topic with no timestamp is never fresh; otherwise it is fresh exactly while its age is below the TTL |
| `Cache.Engine.CacheData` | codes/analysis.py:607-610 | sets the record and the timestamp of one topic to the data and the clock reading; every other topic keeps its entry |
| `Cache.Engine.RefreshAll` | codes/analysis.py:671-673 | clears both maps |
| `Cache.Engine.ScrapeGenderBasedPrevalence` | codes/analysis.py:108-213 | a fresh lookup returns the stored record and changes nothing; otherwise it stores and returns the extracted, completed record stamped with the later clock reading `stampedAt`; the result is always complete |
| `Cache.Engine.Lookup` | codes/analysis.py:360-362 | the shared cache wrapper: the stored record while fresh, else the produced record stored and stamped with `stampedAt` |
| `Cache.Engine.ScrapeGeographicSegmentation` | codes/analysis.py:215-355 | the stored record while fresh, else the record with the derived state ranking, stored and stamped with `stampedAt` |
| `Cache.Engine.ScrapeComorbidityAnalysis` | codes/analysis.py:357-413 | the stored record while fresh within 120 minutes, else the fixed comorbidity record, stored and stamped with `stampedAt` |
| `Cache.Engine.ScrapeTreatmentPatterns` | codes/analysis.py:415-493 | the stored record while fresh within 90 minutes, else the fixed treatment record, stored and stamped with `stampedAt` |
| `Cache.LookupWithinTtlIsServedFromCache` | codes/analysis.py:111-113 | a second gender lookup whose freshness reading is less than 60 minutes after the first entry's stamp returns the first record, whatever the second fetch would yield |
| `Cache.LookupAfterTtlRefreshes` | codes/analysis.py:111-212 | once 60 minutes have passed since the first entry's stamp, the next lookup returns the new fetch's record and restamps the entry with that call's stamp |
| `Cache.RefreshAllForcesLiveRefresh` | codes/analysis.py:671-673 | after Refresh All, a geographic entry that was fresh is produced again and stamped with the later call's stamp |
| `Cache.TopicsAreIndependent` | codes/analysis.py:607-610 | refreshing the gender topic leaves the comorbidity entry's stamp as it was |

## Left out

- HTTP fetching (`requests.Session`, its headers, the 15-second timeout) and BeautifulSoup text extraction with lower-casing: network I/O and foreign libraries. Their outcome is the input `Cache.FetchOutcome`.
- The regular-expression engine (`re.findall`): a foreign call. Its matches per pattern are input, so the four pattern strings do not appear.
- `datetime.now()`: its two readings per scrape call are the parameters `now` and `stampedAt`.
- The `max_age_minutes=30` default of `_is_cache_valid`: every caller passes its TTL, so the default is never used and `Cache.Engine.IsCacheValid` takes the TTL as a plain parameter.
- Binary floating point: rates, products and `round()` are exact reals with round-half-even. The model does not claim bit-for-bit agreement. One example: a capture just below 50 that binary64 rounds up to 50.0 is accepted by the model but rejected by the code.
- `Extraction.ToFloat`: models `float()` only on ASCII digits and dots. Python's `isdigit()` and `float()` also accept other Unicode digits. For the first-group fallback, `float()` also accepts signs, exponents and whitespace, but no gender token has any such form, so the result (nothing written) is the same.
- `st.info`, `st.success`, `st.warning` and the rest of the Streamlit UI in `main`, including `st.rerun()` after Refresh All: presentation only.
- `generate_market_potential_rankings`: its weighted `market_score` sum is floating-point arithmetic. The lookups and the addressable population it calls are modelled.
- The JSON export: `json.dumps` is a foreign serializer.
- `codes/market_analysis.py` and `codes/sales.py` are not part of this model: static tables, plotting, random mock data and spreadsheet export.
- The distinction between Python ints and floats inside records, and dict insertion order: records are maps of `Value`.
- The `try`/`except` blocks around the state ranking and the district data: nothing in them can raise, so they are not modelled.
