/**
 * What the normaliser promises: the canonical keys are fixed points, a name is
 * mapped exactly when its lookup form is in the table, normalising is
 * idempotent, and common spellings of each header land on the canonical key the table gives them.
 */
module FieldMappingProperties {
  import opened FieldMapping

  /** A name whose lookup form is a table entry normalises to that entry's canonical key. */
  lemma NormalizesVia(name: string, k: string, v: string)
    requires LookupKey(name) == k && k in FieldMappings && FieldMappings[k] == v
    ensures NormalizeFieldName(name) == v
  {
  }

  /** A table entry in lookup form that maps to itself is a fixed point of the normaliser. */
  lemma FixedEntry(k: string)
    requires AllLowerAlnum(k) && k in FieldMappings && FieldMappings[k] == k
    ensures LookupKey(k) == k && NormalizeFieldName(k) == k
  {
    LookupKeyFixes(k);
  }

  /** Each canonical key is an entry of the table that maps to itself. */
  lemma TimestampFixed()
    ensures LookupKey("timestamp") == "timestamp" && NormalizeFieldName("timestamp") == "timestamp"
  {
    FixedEntry("timestamp");
  }

  lemma StepsFixed()
    ensures LookupKey("steps") == "steps" && NormalizeFieldName("steps") == "steps"
  {
    FixedEntry("steps");
  }

  lemma HeartrateFixed()
    ensures LookupKey("heartrate") == "heartrate" && NormalizeFieldName("heartrate") == "heartrate"
  {
    FixedEntry("heartrate");
  }

  lemma CaloriesFixed()
    ensures LookupKey("calories") == "calories" && NormalizeFieldName("calories") == "calories"
  {
    FixedEntry("calories");
  }

  lemma DistanceFixed()
    ensures LookupKey("distance") == "distance" && NormalizeFieldName("distance") == "distance"
  {
    FixedEntry("distance");
  }

  lemma SleepFixed()
    ensures LookupKey("sleep") == "sleep" && NormalizeFieldName("sleep") == "sleep"
  {
    FixedEntry("sleep");
  }

  /** The synonym table sends every spelling to a canonical key, and each canonical key to itself. */
  lemma SynonymTable(k: string)
    ensures k in FieldMappings ==> FieldMappings[k] in CanonicalKeys
    ensures k in CanonicalKeys ==> k in FieldMappings && FieldMappings[k] == k
  {
  }

  /** Every canonical key is its own lookup form, and its own normal form. */
  lemma CanonicalKeysAreFixed(k: string)
    requires k in CanonicalKeys
    ensures LookupKey(k) == k && NormalizeFieldName(k) == k
  {
    match k
    case "timestamp" => TimestampFixed();
    case "steps" => StepsFixed();
    case "heartrate" => HeartrateFixed();
    case "calories" => CaloriesFixed();
    case "distance" => DistanceFixed();
    case "sleep" => SleepFixed();
  }

  /** A name maps to a canonical key exactly when its lookup form is in the table. */
  lemma CanonicalIffRecognized(name: string)
    ensures IsCanonical(NormalizeFieldName(name)) <==> LookupKey(name) in FieldMappings
  {
    if name in CanonicalKeys {
      CanonicalKeysAreFixed(name);
    }
  }

  /** Normalising twice is normalising once. */
  lemma NormalizeIdempotent(name: string)
    ensures NormalizeFieldName(NormalizeFieldName(name)) == NormalizeFieldName(name)
  {
    var r := NormalizeFieldName(name);
    if r in CanonicalKeys {
      CanonicalKeysAreFixed(r);
    }
  }

  /** Names with the same lookup form normalise alike, whatever their case and punctuation, when either is recognised. */
  lemma NormalizeIgnoresCaseAndPunctuation(a: string, b: string)
    requires LookupKey(a) == LookupKey(b)
    ensures IsCanonical(NormalizeFieldName(a)) <==> IsCanonical(NormalizeFieldName(b))
    ensures IsCanonical(NormalizeFieldName(a)) ==> NormalizeFieldName(a) == NormalizeFieldName(b)
  {
    CanonicalIffRecognized(a);
    CanonicalIffRecognized(b);
  }

  /** Mixed case and an underscore around a synonym do not matter. */
  lemma HeartRateUnderscore()
    ensures NormalizeFieldName("Heart_Rate") == "heartrate"
  {
    LookupKeyDropChar("Heart_Rate", 5);
    LookupKeyPointwise("Heart_Rate"[..5] + "Heart_Rate"[6..], "heartrate");
    NormalizesVia("Heart_Rate", "heartrate", "heartrate");
  }

  /** Neither does a dash. */
  lemma HeartRateDash()
    ensures NormalizeFieldName("heart-rate") == "heartrate"
  {
    LookupKeyDropChar("heart-rate", 5);
    LookupKeyPointwise("heart-rate"[..5] + "heart-rate"[6..], "heartrate");
    NormalizesVia("heart-rate", "heartrate", "heartrate");
  }

  /** Nor upper case. */
  lemma HeartRateCaps()
    ensures NormalizeFieldName("HEARTRATE") == "heartrate"
  {
    LookupKeyPointwise("HEARTRATE", "heartrate");
    NormalizesVia("HEARTRATE", "heartrate", "heartrate");
  }

  /** Heart-rate synonyms. */
  lemma HeartRateHr()
    ensures NormalizeFieldName("HR") == "heartrate"
  {
    LookupKeyPointwise("HR", "hr");
    NormalizesVia("HR", "hr", "heartrate");
  }

  lemma HeartRateBpm()
    ensures NormalizeFieldName("bpm") == "heartrate"
  {
    LookupKeyPointwise("bpm", "bpm");
    NormalizesVia("bpm", "bpm", "heartrate");
  }

  lemma HeartRatePulse()
    ensures NormalizeFieldName("Pulse") == "heartrate"
  {
    LookupKeyPointwise("Pulse", "pulse");
    NormalizesVia("Pulse", "pulse", "heartrate");
  }

  /** Calorie synonyms. */
  lemma CaloriesKcal()
    ensures NormalizeFieldName("kcal") == "calories"
  {
    LookupKeyPointwise("kcal", "kcal");
    NormalizesVia("kcal", "kcal", "calories");
  }

  lemma CaloriesEnergy()
    ensures NormalizeFieldName("Energy") == "calories"
  {
    LookupKeyPointwise("Energy", "energy");
    NormalizesVia("Energy", "energy", "calories");
  }

  /** Distance synonyms. */
  lemma DistanceKm()
    ensures NormalizeFieldName("KM") == "distance"
  {
    LookupKeyPointwise("KM", "km");
    NormalizesVia("KM", "km", "distance");
  }

  lemma DistanceMiles()
    ensures NormalizeFieldName("miles") == "distance"
  {
    LookupKeyPointwise("miles", "miles");
    NormalizesVia("miles", "miles", "distance");
  }

  /** Timestamp synonyms. */
  lemma TimestampDate()
    ensures NormalizeFieldName("Date") == "timestamp"
  {
    LookupKeyPointwise("Date", "date");
    NormalizesVia("Date", "date", "timestamp");
  }

  lemma TimestampCreated()
    ensures NormalizeFieldName("created") == "timestamp"
  {
    LookupKeyPointwise("created", "created");
    NormalizesVia("created", "created", "timestamp");
  }

  /** Step synonyms. */
  lemma StepsCapitalised()
    ensures NormalizeFieldName("Steps") == "steps"
  {
    LookupKeyPointwise("Steps", "steps");
    NormalizesVia("Steps", "steps", "steps");
  }

  lemma StepsStepCount()
    ensures NormalizeFieldName("StepCount") == "steps"
  {
    LookupKeyPointwise("StepCount", "stepcount");
    NormalizesVia("StepCount", "stepcount", "steps");
  }

  /** A name whose lookup form is not in the table comes back verbatim. */
  lemma NotRecognisedVerbatim(name: string)
    requires LookupKey(name) !in FieldMappings
    ensures NormalizeFieldName(name) == name
  {
  }

  /** An unrecognised name comes back verbatim, not in its stripped form, even when that form is empty. */
  lemma DashesVerbatim()
    ensures NormalizeFieldName("---") == "---"
  {
    LookupKeyDrops("---");
    NotRecognisedVerbatim("---");
  }

  lemma TempVerbatim()
    ensures NormalizeFieldName("Temp") == "Temp"
  {
    LookupKeyPointwise("Temp", "temp");
    NotRecognisedVerbatim("Temp");
  }
}
