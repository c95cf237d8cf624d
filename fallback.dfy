/**
 * Fallback completion of the gender records in scrape_gender_based_prevalence:
 * when extraction leaves either record empty both are replaced by fixed
 * baselines, otherwise every missing required key gets its default.
 */
module Fallback {
  import opened Values

  /** The keys every completed gender record carries. */
  const RequiredKeys: set<string> :=
    {"prevalence", "diabetes_comorbidity", "hypertension_comorbidity",
     "heart_disease_comorbidity", "age_distribution"}

  const BaseMaleRate: real := 12.8
  const BaseFemaleRate: real := 15.2

  function MaleAgeDistribution(): Record
  {
    map["18-30" := Num(8.5), "31-45" := Num(16.2), "46-60" := Num(21.4), "60+" := Num(18.9)]
  }

  function FemaleAgeDistribution(): Record
  {
    map["18-30" := Num(11.2), "31-45" := Num(19.8), "46-60" := Num(24.1), "60+" := Num(16.3)]
  }

  /** The values the male record's missing keys are filled with. */
  function MaleDefaults(): Record
  {
    map["diabetes_comorbidity" := Num(18.5),
        "hypertension_comorbidity" := Num(24.8),
        "heart_disease_comorbidity" := Num(8.2),
        "age_distribution" := Obj(MaleAgeDistribution())]
  }

  function FemaleDefaults(): Record
  {
    map["diabetes_comorbidity" := Num(16.8),
        "hypertension_comorbidity" := Num(22.1),
        "heart_disease_comorbidity" := Num(6.4),
        "age_distribution" := Obj(FemaleAgeDistribution())]
  }

  /** The male record used when extraction failed for either gender. */
  function MaleBaseline(): Record
  {
    MaleDefaults()["prevalence" := Num(BaseMaleRate)]
  }

  function FemaleBaseline(): Record
  {
    FemaleDefaults()["prevalence" := Num(BaseFemaleRate)]
  }

  /** Keys present in rec keep their values; each missing default key gets its default. */
  function FillMissing(rec: Record, defaults: Record): (r: Record)
    ensures r.Keys == rec.Keys + defaults.Keys
    ensures forall k :: k in rec ==> r[k] == rec[k]
    ensures forall k :: k in defaults && k !in rec ==> r[k] == defaults[k]
  {
    map k | k in rec.Keys + defaults.Keys :: if k in rec then rec[k] else defaults[k]
  }

  predicate Complete(rec: Record)
  {
    RequiredKeys <= rec.Keys
  }

  /** The completed (male, female) pair. */
  function Completed(male: Record, female: Record): (r: (Record, Record))
    ensures RequiredKeys - {"prevalence"} <= r.0.Keys && RequiredKeys - {"prevalence"} <= r.1.Keys
    ensures male.Keys <= {"prevalence"} && female.Keys <= {"prevalence"} ==> Complete(r.0) && Complete(r.1)
  {
    if male == map[] || female == map[] then (MaleBaseline(), FemaleBaseline())
    else
      assert male.Keys <= {"prevalence"} ==> "prevalence" in male.Keys by {
        var k :| k in male.Keys;
      }
      assert female.Keys <= {"prevalence"} ==> "prevalence" in female.Keys by {
        var k :| k in female.Keys;
      }
      (FillMissing(male, MaleDefaults()), FillMissing(female, FemaleDefaults()))
  }

  /** Filling one more key after the others, only when it is missing, extends the defaults by it. */
  lemma FillOneMore(rec: Record, d: Record, k: string, v: Value)
    requires k !in d
    ensures (if k in FillMissing(rec, d) then FillMissing(rec, d) else FillMissing(rec, d)[k := v])
      == FillMissing(rec, d[k := v])
  {
  }

  /** Lines 190-199: the male record's missing keys, one by one. */
  method FillMaleDefaults(male: Record) returns (m: Record)
    ensures m == FillMissing(male, MaleDefaults())
  {
    m := male;
    assert m == FillMissing(male, map[]);
    if "diabetes_comorbidity" !in m { m := m["diabetes_comorbidity" := Num(18.5)]; }
    FillOneMore(male, map[], "diabetes_comorbidity", Num(18.5));
    ghost var d: Record := map["diabetes_comorbidity" := Num(18.5)];
    if "hypertension_comorbidity" !in m { m := m["hypertension_comorbidity" := Num(24.8)]; }
    FillOneMore(male, d, "hypertension_comorbidity", Num(24.8));
    d := d["hypertension_comorbidity" := Num(24.8)];
    if "heart_disease_comorbidity" !in m { m := m["heart_disease_comorbidity" := Num(8.2)]; }
    FillOneMore(male, d, "heart_disease_comorbidity", Num(8.2));
    d := d["heart_disease_comorbidity" := Num(8.2)];
    if "age_distribution" !in m {
      m := m["age_distribution" := Obj(map["18-30" := Num(8.5), "31-45" := Num(16.2),
                                           "46-60" := Num(21.4), "60+" := Num(18.9)])];
    }
    FillOneMore(male, d, "age_distribution", Obj(MaleAgeDistribution()));
  }

  /** Lines 201-210: the female record's missing keys, one by one. */
  method FillFemaleDefaults(female: Record) returns (f: Record)
    ensures f == FillMissing(female, FemaleDefaults())
  {
    f := female;
    assert f == FillMissing(female, map[]);
    if "diabetes_comorbidity" !in f { f := f["diabetes_comorbidity" := Num(16.8)]; }
    FillOneMore(female, map[], "diabetes_comorbidity", Num(16.8));
    ghost var d: Record := map["diabetes_comorbidity" := Num(16.8)];
    if "hypertension_comorbidity" !in f { f := f["hypertension_comorbidity" := Num(22.1)]; }
    FillOneMore(female, d, "hypertension_comorbidity", Num(22.1));
    d := d["hypertension_comorbidity" := Num(22.1)];
    if "heart_disease_comorbidity" !in f { f := f["heart_disease_comorbidity" := Num(6.4)]; }
    FillOneMore(female, d, "heart_disease_comorbidity", Num(6.4));
    d := d["heart_disease_comorbidity" := Num(6.4)];
    if "age_distribution" !in f {
      f := f["age_distribution" := Obj(map["18-30" := Num(11.2), "31-45" := Num(19.8),
                                           "46-60" := Num(24.1), "60+" := Num(16.3)])];
    }
    FillOneMore(female, d, "age_distribution", Obj(FemaleAgeDistribution()));
  }

  /**
   * The fallback step of scrape_gender_based_prevalence: baselines when
   * either record is empty, else the key-by-key fill.
   */
  method CompleteRecords(male: Record, female: Record) returns (m: Record, f: Record)
    ensures (m, f) == Completed(male, female)
  {
    if male == map[] || female == map[] {
      m := map["prevalence" := Num(BaseMaleRate),
               "diabetes_comorbidity" := Num(18.5),
               "hypertension_comorbidity" := Num(24.8),
               "heart_disease_comorbidity" := Num(8.2),
               "age_distribution" := Obj(map["18-30" := Num(8.5), "31-45" := Num(16.2),
                                             "46-60" := Num(21.4), "60+" := Num(18.9)])];
      f := map["prevalence" := Num(BaseFemaleRate),
               "diabetes_comorbidity" := Num(16.8),
               "hypertension_comorbidity" := Num(22.1),
               "heart_disease_comorbidity" := Num(6.4),
               "age_distribution" := Obj(map["18-30" := Num(11.2), "31-45" := Num(19.8),
                                             "46-60" := Num(24.1), "60+" := Num(16.3)])];
      assert m == MaleBaseline();
      assert f == FemaleBaseline();
    } else {
      m := FillMaleDefaults(male);
      f := FillFemaleDefaults(female);
    }
  }

  /** If either record is empty, both become the baselines (prevalence 12.8 and 15.2). */
  lemma EmptyRecordGivesBaselines(male: Record, female: Record)
    requires male == map[] || female == map[]
    ensures Completed(male, female).0["prevalence"] == Num(12.8)
    ensures Completed(male, female).1["prevalence"] == Num(15.2)
    ensures Completed(male, female) == (MaleBaseline(), FemaleBaseline())
  {
  }

  /** Otherwise present keys, such as a scraped prevalence, survive and missing ones get defaults. */
  lemma PresentKeysSurvive(male: Record, female: Record, k: string)
    requires male != map[] && female != map[]
    ensures k in male ==> Completed(male, female).0[k] == male[k]
    ensures k in female ==> Completed(male, female).1[k] == female[k]
    ensures k in MaleDefaults() && k !in male ==> Completed(male, female).0[k] == MaleDefaults()[k]
    ensures k in FemaleDefaults() && k !in female ==> Completed(male, female).1[k] == FemaleDefaults()[k]
  {
  }

  /** The default records name every required key except prevalence. */
  lemma DefaultKeys()
    ensures MaleDefaults().Keys == RequiredKeys - {"prevalence"}
    ensures FemaleDefaults().Keys == RequiredKeys - {"prevalence"}
  {
  }

  /** Records as extraction leaves them come out with exactly the schema keys. */
  lemma ExactlyRequiredKeys(male: Record, female: Record)
    requires male.Keys <= {"prevalence"} && female.Keys <= {"prevalence"}
    ensures Completed(male, female).0.Keys == RequiredKeys
    ensures Completed(male, female).1.Keys == RequiredKeys
  {
    DefaultKeys();
    if male != map[] && female != map[] {
      var k :| k in male.Keys;
      var j :| j in female.Keys;
      assert male.Keys == {"prevalence"} && female.Keys == {"prevalence"};
      assert Completed(male, female) == (FillMissing(male, MaleDefaults()), FillMissing(female, FemaleDefaults()));
    } else {
      assert Completed(male, female) == (MaleBaseline(), FemaleBaseline());
    }
  }

  /** A record holding only a scraped prevalence is completed to the defaults plus that prevalence. */
  lemma ScrapedPrevalenceCompletion(maleRate: real, femaleRate: real)
    ensures Completed(map["prevalence" := Num(maleRate)], map["prevalence" := Num(femaleRate)]) ==
      (MaleDefaults()["prevalence" := Num(maleRate)], FemaleDefaults()["prevalence" := Num(femaleRate)])
  {
    var male: Record := map["prevalence" := Num(maleRate)];
    var female: Record := map["prevalence" := Num(femaleRate)];
    assert "prevalence" in male && "prevalence" in female;
    assert FillMissing(male, MaleDefaults()) == MaleDefaults()["prevalence" := Num(maleRate)];
    assert FillMissing(female, FemaleDefaults()) == FemaleDefaults()["prevalence" := Num(femaleRate)];
  }

  /** Filling a record that already has every default key changes nothing. */
  lemma FillMissingNoop(rec: Record, defaults: Record)
    requires defaults.Keys <= rec.Keys
    ensures FillMissing(rec, defaults) == rec
  {
  }

  /** Completing an already completed pair changes nothing. */
  lemma CompletionIsIdempotent(male: Record, female: Record)
    ensures Completed(Completed(male, female).0, Completed(male, female).1) == Completed(male, female)
  {
    var (m, f) := Completed(male, female);
    DefaultKeys();
    assert m != map[] && f != map[] by {
      assert "diabetes_comorbidity" in m && "diabetes_comorbidity" in f;
    }
    FillMissingNoop(m, MaleDefaults());
    FillMissingNoop(f, FemaleDefaults());
    assert Completed(m, f) == (FillMissing(m, MaleDefaults()), FillMissing(f, FemaleDefaults()));
  }
}
