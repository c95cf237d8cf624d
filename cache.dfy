/**
 * The scrape-with-fallback engine (StructuredMarketIntelligenceEngine): a
 * per-topic cache of produced records with their production times, the
 * freshness test, the Refresh All clear, and the scrape_* methods that
 * consult the cache before producing a record.
 *
 * The clock is an integer count of microseconds (datetime's resolution).
 * The source reads it twice per scrape call: once in the freshness test and
 * once, after the record has been produced (for the gender topic, after the
 * HTTP fetch), when the entry is stamped; each call receives both readings,
 * in either order, since the wall clock may be set back between them.
 *
 * The HTTP fetch and the regular-expression search are inputs: a
 * FetchOutcome carries the status and, per pattern, the matches.
 */
module Cache {
  import opened Values
  import opened Extraction
  import opened Fallback
  import opened StateTables
  import opened StaticData

  const MicrosPerMinute: int := 60_000_000

  const GenderKey: string := "gender_based_analysis"
  const GeographicKey: string := "geographic_segmentation"
  const ComorbidityKey: string := "comorbidity_analysis"
  const TreatmentKey: string := "treatment_patterns"

  /** The time-to-live, in minutes, each scrape method passes to the freshness test. */
  const GenderTtl: int := 60
  const GeographicTtl: int := 90
  const ComorbidityTtl: int := 120
  const TreatmentTtl: int := 90

  /** (now - produced_at).total_seconds() / 60 */
  function AgeMinutes(producedAt: int, now: int): (r: real)
    ensures r * (MicrosPerMinute as real) == (now - producedAt) as real
    ensures r >= 0.0 <==> now >= producedAt
  {
    (now - producedAt) as real / (MicrosPerMinute as real)
  }

  /** The comparison in _is_cache_valid: age_minutes < max_age_minutes. */
  predicate IsFresh(producedAt: int, now: int, maxAgeMinutes: int): (r: bool)
    ensures r <==> now - producedAt < maxAgeMinutes * MicrosPerMinute
  {
    var age := (now - producedAt) as real;
    assert AgeMinutes(producedAt, now) < maxAgeMinutes as real <==> age < (maxAgeMinutes * MicrosPerMinute) as real;
    AgeMinutes(producedAt, now) < maxAgeMinutes as real
  }

  /** An entry is fresh exactly while it is younger than the TTL, counted in microseconds. */
  lemma FreshIffYoungerThanTtl(producedAt: int, now: int, ttl: int)
    ensures IsFresh(producedAt, now, ttl) <==> now - producedAt < ttl * MicrosPerMinute
  {
    var age := (now - producedAt) as real;
    var limit := (ttl * MicrosPerMinute) as real;
    assert age / (MicrosPerMinute as real) < ttl as real <==> age < limit;
  }

  /** At an age equal to the TTL the entry is already stale. */
  lemma StaleAtExactTtl(producedAt: int, ttl: int)
    ensures !IsFresh(producedAt, producedAt + ttl * MicrosPerMinute, ttl)
  {
    FreshIffYoungerThanTtl(producedAt, producedAt + ttl * MicrosPerMinute, ttl);
  }

  /** An entry that is fresh at some time was fresh at every earlier time. */
  lemma FreshEarlier(producedAt: int, earlier: int, later: int, ttl: int)
    requires earlier <= later
    ensures IsFresh(producedAt, later, ttl) ==> IsFresh(producedAt, earlier, ttl)
  {
    FreshIffYoungerThanTtl(producedAt, later, ttl);
    FreshIffYoungerThanTtl(producedAt, earlier, ttl);
  }

  // ---------------------------------------------------------------------
  // the gender topic, from fetch outcome to completed record
  // ---------------------------------------------------------------------

  /**
   * What the fetch produced: a response (status code, and for each gender
   * pattern the matches found in the page text), or an exception raised by
   * the request or the HTML parser.
   */
  datatype FetchOutcome =
    | Response(statusCode: int, perPattern: seq<seq<Match>>)
    | FetchError

  /** The male and female records after extraction; nothing is extracted unless the status is 200. */
  function ExtractedRecords(fetch: FetchOutcome): (r: (Record, Record))
    ensures r.0.Keys <= {"prevalence"} && r.1.Keys <= {"prevalence"}
    ensures !(fetch.Response? && fetch.statusCode == 200) ==> r == (map[], map[])
  {
    if fetch.Response? && fetch.statusCode == 200 then
      var p := ExtractAll(Flatten(fetch.perPattern));
      (PrevalenceRecord(p.male), PrevalenceRecord(p.female))
    else (map[], map[])
  }

  /** The top-level keys of gender_analysis. */
  const GenderAnalysisKeys: set<string> :=
    {"male_obesity", "female_obesity", "gender_comorbidities", "age_demographics", "clinical_insights"}

  /** gender_analysis as the method returns it. */
  function GenderAnalysis(male: Record, female: Record): (r: Value)
    ensures r.Obj? && r.fields.Keys == GenderAnalysisKeys
  {
    Obj(map["male_obesity" := Obj(male),
            "female_obesity" := Obj(female),
            "gender_comorbidities" := Obj(map[]),
            "age_demographics" := Obj(map[]),
            "clinical_insights" := List([])])
  }

  /** The record a live refresh of the gender topic produces. */
  function ResolveGender(fetch: FetchOutcome): (r: Value)
    ensures r.Obj? && r.fields.Keys == GenderAnalysisKeys
    ensures IsCompleteGenderAnalysis(r)
  {
    var (male, female) := ExtractedRecords(fetch);
    var (m, f) := Completed(male, female);
    GenderRecordsOfAnalysis(m, f);
    GenderAnalysis(m, f)
  }

  /** The male or female record of a gender analysis. */
  function GenderRecord(v: Value, key: string): Record
  {
    if v.Obj? && key in v.fields && v.fields[key].Obj? then v.fields[key].fields else map[]
  }

  lemma GenderRecordsOfAnalysis(male: Record, female: Record)
    ensures GenderRecord(GenderAnalysis(male, female), "male_obesity") == male
    ensures GenderRecord(GenderAnalysis(male, female), "female_obesity") == female
  {
  }

  /** Both gender records carry all five required keys. */
  predicate IsCompleteGenderAnalysis(v: Value)
  {
    Complete(GenderRecord(v, "male_obesity")) && Complete(GenderRecord(v, "female_obesity"))
  }

  /** Whatever the fetch did, the refreshed gender record has exactly the five keys in each gender. */
  lemma ResolvedGenderIsComplete(fetch: FetchOutcome)
    ensures IsCompleteGenderAnalysis(ResolveGender(fetch))
    ensures GenderRecord(ResolveGender(fetch), "male_obesity").Keys == RequiredKeys
    ensures GenderRecord(ResolveGender(fetch), "female_obesity").Keys == RequiredKeys
  {
    var (male, female) := ExtractedRecords(fetch);
    var (m, f) := Completed(male, female);
    assert ResolveGender(fetch) == GenderAnalysis(m, f);
    GenderRecordsOfAnalysis(m, f);
    ExactlyRequiredKeys(male, female);
  }

  /** A failed fetch, or a non-200 response, yields the baselines (male 12.8, female 15.2). */
  lemma FailedFetchGivesBaseline(fetch: FetchOutcome)
    requires fetch.FetchError? || fetch.statusCode != 200
    ensures ResolveGender(fetch) == GenderAnalysis(MaleBaseline(), FemaleBaseline())
    ensures GenderRecord(ResolveGender(fetch), "male_obesity")["prevalence"] == Num(12.8)
    ensures GenderRecord(ResolveGender(fetch), "female_obesity")["prevalence"] == Num(15.2)
  {
    EmptyRecordGivesBaselines(map[], map[]);
  }

  /**
   * When both genders had an accepted match, the stored prevalences are the
   * last accepted rates and the other keys are the defaults.
   */
  lemma ScrapedRatesAreKept(statusCode: int, perPattern: seq<seq<Match>>, iMale: int, iFemale: int)
    requires statusCode == 200
    requires IsLastAccepted(Flatten(perPattern), Male, iMale)
    requires IsLastAccepted(Flatten(perPattern), Female, iFemale)
    ensures GenderRecord(ResolveGender(Response(statusCode, perPattern)), "male_obesity") ==
      MaleDefaults()["prevalence" := Num(Classify(Flatten(perPattern)[iMale]).value.rate)]
    ensures GenderRecord(ResolveGender(Response(statusCode, perPattern)), "female_obesity") ==
      FemaleDefaults()["prevalence" := Num(Classify(Flatten(perPattern)[iFemale]).value.rate)]
  {
    var ms := Flatten(perPattern);
    LastAcceptedWins(ms, Male, iMale);
    LastAcceptedWins(ms, Female, iFemale);
    var maleRate := Classify(ms[iMale]).value.rate;
    var femaleRate := Classify(ms[iFemale]).value.rate;
    var p := ExtractAll(ms);
    assert p.male == Some(maleRate) && p.female == Some(femaleRate);
    assert ExtractedRecords(Response(statusCode, perPattern)) ==
      (map["prevalence" := Num(maleRate)], map["prevalence" := Num(femaleRate)]);
    ScrapedPrevalenceCompletion(maleRate, femaleRate);
    var m := MaleDefaults()["prevalence" := Num(maleRate)];
    var f := FemaleDefaults()["prevalence" := Num(femaleRate)];
    assert ResolveGender(Response(statusCode, perPattern)) == GenderAnalysis(m, f);
    GenderRecordsOfAnalysis(m, f);
  }

  /** If one gender had no accepted match, both records are the baselines, dropping the other's rate. */
  lemma OneMissingGenderGivesBaselines(statusCode: int, perPattern: seq<seq<Match>>, g: Gender)
    requires forall i :: 0 <= i < |Flatten(perPattern)| ==> !AcceptedFor(Flatten(perPattern)[i], g)
    ensures ResolveGender(Response(statusCode, perPattern)) == GenderAnalysis(MaleBaseline(), FemaleBaseline())
  {
    EmptySlotIffNoneAccepted(Flatten(perPattern), g);
  }

  // ---------------------------------------------------------------------
  // the engine and its cache
  // ---------------------------------------------------------------------

  class Engine {
    /** st.session_state.live_scraped_cache */
    var liveScrapedCache: map<string, Value>
    /** st.session_state.scrape_timestamps */
    var scrapeTimestamps: map<string, int>

    /**
     * Records and timestamps are set and cleared together, so a topic with a
     * timestamp always has a record to return; a cached gender record is complete.
     */
    ghost predicate Valid()
      reads this
    {
      && liveScrapedCache.Keys == scrapeTimestamps.Keys
      && (GenderKey in liveScrapedCache ==> IsCompleteGenderAnalysis(liveScrapedCache[GenderKey]))
    }

    /** The session starts with both maps empty. */
    constructor ()
      ensures Valid()
      ensures liveScrapedCache == map[] && scrapeTimestamps == map[]
    {
      liveScrapedCache := map[];
      scrapeTimestamps := map[];
    }

    /**
     * _is_cache_valid: a topic without a timestamp is never fresh; one with a
     * timestamp is fresh while its age is below the TTL.
     */
    function IsCacheValid(key: string, maxAgeMinutes: int, now: int): (r: bool)
      reads this
      ensures r <==> key in scrapeTimestamps && now - scrapeTimestamps[key] < maxAgeMinutes * MicrosPerMinute
    {
      if key !in scrapeTimestamps then false
      else
        FreshIffYoungerThanTtl(scrapeTimestamps[key], now, maxAgeMinutes);
        IsFresh(scrapeTimestamps[key], now, maxAgeMinutes)
    }

    /** _cache_data: store the record and stamp it with the current time; other topics keep theirs. */
    method CacheData(key: string, data: Value, now: int)
      requires Valid()
      requires key == GenderKey ==> IsCompleteGenderAnalysis(data)
      modifies this
      ensures Valid()
      ensures liveScrapedCache == old(liveScrapedCache)[key := data]
      ensures scrapeTimestamps == old(scrapeTimestamps)[key := now]
    {
      liveScrapedCache := liveScrapedCache[key := data];
      scrapeTimestamps := scrapeTimestamps[key := now];
    }

    /** The Refresh All button: both maps are cleared. */
    method RefreshAll()
      modifies this
      ensures Valid()
      ensures liveScrapedCache == map[] && scrapeTimestamps == map[]
    {
      liveScrapedCache := map[];
      scrapeTimestamps := map[];
    }

    /**
     * scrape_gender_based_prevalence: a fresh entry (as of now, the clock
     * reading of the freshness test) is returned as stored and nothing
     * changes; otherwise the record is extracted, completed, stored with
     * stampedAt (the later reading taken by _cache_data) and returned.
     */
    method ScrapeGenderBasedPrevalence(now: int, stampedAt: int, fetch: FetchOutcome) returns (r: Value)
      requires Valid()
      modifies this
      ensures Valid()
      ensures IsCompleteGenderAnalysis(r)
      ensures old(IsCacheValid(GenderKey, GenderTtl, now)) ==>
        && r == old(liveScrapedCache)[GenderKey]
        && liveScrapedCache == old(liveScrapedCache)
        && scrapeTimestamps == old(scrapeTimestamps)
      ensures !old(IsCacheValid(GenderKey, GenderTtl, now)) ==>
        && r == ResolveGender(fetch)
        && liveScrapedCache == old(liveScrapedCache)[GenderKey := r]
        && scrapeTimestamps == old(scrapeTimestamps)[GenderKey := stampedAt]
    {
      if IsCacheValid(GenderKey, GenderTtl, now) {
        return liveScrapedCache[GenderKey];
      }
      var male: Record, female: Record := map[], map[];
      if fetch.Response? && fetch.statusCode == 200 {
        male, female := ExtractPrevalence(fetch.perPattern);
      }
      male, female := CompleteRecords(male, female);
      r := GenderAnalysis(male, female);
      ResolvedGenderIsComplete(fetch);
      CacheData(GenderKey, r, stampedAt);
    }

    /** A method that stores a fixed or derived record under key with the given TTL. */
    method Lookup(key: string, ttl: int, now: int, stampedAt: int, produced: Value) returns (r: Value)
      requires Valid() && key != GenderKey
      modifies this
      ensures Valid()
      ensures old(IsCacheValid(key, ttl, now)) ==>
        && r == old(liveScrapedCache)[key]
        && liveScrapedCache == old(liveScrapedCache)
        && scrapeTimestamps == old(scrapeTimestamps)
      ensures !old(IsCacheValid(key, ttl, now)) ==>
        && r == produced
        && liveScrapedCache == old(liveScrapedCache)[key := r]
        && scrapeTimestamps == old(scrapeTimestamps)[key := stampedAt]
    {
      if IsCacheValid(key, ttl, now) {
        return liveScrapedCache[key];
      }
      r := produced;
      CacheData(key, r, stampedAt);
    }

    /**
     * scrape_geographic_segmentation: the cached record while fresh,
     * otherwise the state ranking is derived and the record stored.
     */
    method ScrapeGeographicSegmentation(now: int, stampedAt: int) returns (r: Value)
      requires Valid()
      modifies this
      ensures Valid()
      ensures old(IsCacheValid(GeographicKey, GeographicTtl, now)) ==>
        && r == old(liveScrapedCache)[GeographicKey]
        && liveScrapedCache == old(liveScrapedCache)
        && scrapeTimestamps == old(scrapeTimestamps)
      ensures !old(IsCacheValid(GeographicKey, GeographicTtl, now)) ==>
        && r == GeographicRecord(RankingOf(StatesWithMultipliers))
        && liveScrapedCache == old(liveScrapedCache)[GeographicKey := r]
        && scrapeTimestamps == old(scrapeTimestamps)[GeographicKey := stampedAt]
    {
      if IsCacheValid(GeographicKey, GeographicTtl, now) {
        return liveScrapedCache[GeographicKey];
      }
      var ranking := DeriveStateRanking(StatesWithMultipliers);
      r := GeographicRecord(ranking);
      CacheData(GeographicKey, r, stampedAt);
    }

    /** scrape_comorbidity_analysis: the fixed record behind a 120-minute cache. */
    method ScrapeComorbidityAnalysis(now: int, stampedAt: int) returns (r: Value)
      requires Valid()
      modifies this
      ensures Valid()
      ensures old(IsCacheValid(ComorbidityKey, ComorbidityTtl, now)) ==>
        && r == old(liveScrapedCache)[ComorbidityKey]
        && liveScrapedCache == old(liveScrapedCache)
        && scrapeTimestamps == old(scrapeTimestamps)
      ensures !old(IsCacheValid(ComorbidityKey, ComorbidityTtl, now)) ==>
        && r == ComorbidityRecord()
        && liveScrapedCache == old(liveScrapedCache)[ComorbidityKey := r]
        && scrapeTimestamps == old(scrapeTimestamps)[ComorbidityKey := stampedAt]
    {
      r := Lookup(ComorbidityKey, ComorbidityTtl, now, stampedAt, ComorbidityRecord());
    }

    /** scrape_treatment_patterns: the fixed record behind a 90-minute cache. */
    method ScrapeTreatmentPatterns(now: int, stampedAt: int) returns (r: Value)
      requires Valid()
      modifies this
      ensures Valid()
      ensures old(IsCacheValid(TreatmentKey, TreatmentTtl, now)) ==>
        && r == old(liveScrapedCache)[TreatmentKey]
        && liveScrapedCache == old(liveScrapedCache)
        && scrapeTimestamps == old(scrapeTimestamps)
      ensures !old(IsCacheValid(TreatmentKey, TreatmentTtl, now)) ==>
        && r == TreatmentRecord()
        && liveScrapedCache == old(liveScrapedCache)[TreatmentKey := r]
        && scrapeTimestamps == old(scrapeTimestamps)[TreatmentKey := stampedAt]
    {
      r := Lookup(TreatmentKey, TreatmentTtl, now, stampedAt, TreatmentRecord());
    }
  }

  // ---------------------------------------------------------------------
  // sessions: several calls on one engine
  // ---------------------------------------------------------------------

  /**
   * Two lookups of the gender topic, the second less than 60 minutes after the
   * first one's stamp s0: the second returns the first's record, whatever its
   * fetch would have produced. A second call 60 minutes after the first call
   * is among these when the first fetch took time.
   */
  method LookupWithinTtlIsServedFromCache(
    t0: int, s0: int, t1: int, s1: int, fetch0: FetchOutcome, fetch1: FetchOutcome)
    returns (first: Value, second: Value)
    requires t1 - s0 < GenderTtl * MicrosPerMinute
    ensures first == ResolveGender(fetch0)
    ensures second == first
  {
    var engine := new Engine();
    first := engine.ScrapeGenderBasedPrevalence(t0, s0, fetch0);
    second := engine.ScrapeGenderBasedPrevalence(t1, s1, fetch1);
  }

  /**
   * Once 60 minutes have passed since the entry's stamp s0, the next lookup
   * refreshes: it returns the new fetch's record and restamps the entry with
   * that call's stamp s1.
   */
  method LookupAfterTtlRefreshes(t0: int, s0: int, t1: int, s1: int, fetch0: FetchOutcome, fetch1: FetchOutcome)
    returns (second: Value, producedAt: int)
    requires t1 - s0 >= GenderTtl * MicrosPerMinute
    ensures second == ResolveGender(fetch1)
    ensures producedAt == s1
  {
    var engine := new Engine();
    var first := engine.ScrapeGenderBasedPrevalence(t0, s0, fetch0);
    second := engine.ScrapeGenderBasedPrevalence(t1, s1, fetch1);
    producedAt := engine.scrapeTimestamps[GenderKey];
  }

  /**
   * Refresh All forces a live refresh of a topic whose entry was fresh: the
   * geographic record is produced again and stamped with the later call's stamp.
   */
  method RefreshAllForcesLiveRefresh(t0: int, s0: int, t1: int, s1: int) returns (freshBefore: bool, producedAt: int)
    requires t1 - s0 < GeographicTtl * MicrosPerMinute
    ensures freshBefore
    ensures producedAt == s1
  {
    var engine := new Engine();
    var first := engine.ScrapeGeographicSegmentation(t0, s0);
    freshBefore := engine.IsCacheValid(GeographicKey, GeographicTtl, t1);
    engine.RefreshAll();
    var second := engine.ScrapeGeographicSegmentation(t1, s1);
    producedAt := engine.scrapeTimestamps[GeographicKey];
  }

  /** Topics are cached independently: refreshing one leaves another's entry as it was. */
  method TopicsAreIndependent(t0: int, s0: int, t1: int, s1: int, fetch: FetchOutcome)
    returns (stampBefore: int, stampAfter: int)
    ensures stampAfter == stampBefore == s0
  {
    var engine := new Engine();
    var comorbidity := engine.ScrapeComorbidityAnalysis(t0, s0);
    stampBefore := engine.scrapeTimestamps[ComorbidityKey];
    var gender := engine.ScrapeGenderBasedPrevalence(t1, s1, fetch);
    assert GenderKey != ComorbidityKey by { assert |GenderKey| != |ComorbidityKey|; }
    stampAfter := engine.scrapeTimestamps[ComorbidityKey];
  }
}
