/**
 * The field-name normaliser: a fixed synonym table and one function that
 * folds an arbitrary header or key onto one of six canonical metric keys.
 */
module FieldMapping {

  /** The six canonical metric keys. */
  const CanonicalKeys: set<string> := {"timestamp", "steps", "heartrate", "calories", "distance", "sleep"}

  /** The synonym table, keyed by the spelling written in it. */
  const FieldMappings: map<string, string> := map[
    "timestamp" := "timestamp", "time" := "timestamp", "date" := "timestamp",
    "datetime" := "timestamp", "created" := "timestamp", "recorded" := "timestamp",
    "steps" := "steps", "step" := "steps", "stepcount" := "steps",
    "heartrate" := "heartrate", "heart_rate" := "heartrate", "hr" := "heartrate",
    "bpm" := "heartrate", "pulse" := "heartrate",
    "calories" := "calories", "calorie" := "calories", "kcal" := "calories", "energy" := "calories",
    "distance" := "distance", "dist" := "distance", "km" := "distance", "miles" := "distance",
    "sleep" := "sleep", "sleepduration" := "sleep", "sleep_duration" := "sleep", "sleepminutes" := "sleep"
  ]

  predicate IsLowerAlnum(c: char) {
    'a' <= c <= 'z' || '0' <= c <= '9'
  }

  predicate AllLowerAlnum(s: string) {
    forall i :: 0 <= i < |s| ==> IsLowerAlnum(s[i])
  }

  /**
   * Whether a character survives `name.toLowerCase().replace(/[^a-z0-9]/g, '')`.
   * Both steps work character by character, so the lookup form of a name is the
   * concatenation of what each character contributes. Only A-Z, a-z, 0-9,
   * U+0130 (lower-cased to "i" followed by U+0307, which is then removed) and
   * the Kelvin sign U+212A (lower-cased to "k") contribute; every other
   * character lower-cases to something outside [a-z0-9] and is removed.
   */
  predicate Contributes(c: char) {
    'A' <= c <= 'Z' || IsLowerAlnum(c) || c == '\U{0130}' || c == '\U{212A}'
  }

  /** The [a-z0-9] character a contributing character becomes. */
  function Lowered(c: char): (r: char)
    ensures Contributes(c) ==> IsLowerAlnum(r)
  {
    if 'A' <= c <= 'Z' then (c as int + 32) as char
    else if c == '\U{0130}' then 'i'
    else if c == '\U{212A}' then 'k'
    else c
  }

  function KeyChar(c: char): string {
    if Contributes(c) then [Lowered(c)] else ""
  }

  /** The string `normalizeFieldName` looks up in the table: the name lower-cased, with everything but [a-z0-9] removed. */
  function LookupKey(name: string): string {
    if |name| == 0 then "" else LookupKey(name[..|name| - 1]) + KeyChar(name[|name| - 1])
  }

  /** `normalizeFieldName`: the canonical key of a recognised name, otherwise the name itself, verbatim. */
  function NormalizeFieldName(name: string): (r: string)
    ensures r in CanonicalKeys || r == name
  {
    var k := LookupKey(name);
    if k in FieldMappings then FieldMappings[k] else name
  }

  /** A lookup form contains nothing but [a-z0-9]. */
  lemma {:induction false} LookupKeyLowerAlnum(name: string)
    ensures AllLowerAlnum(LookupKey(name))
  {
    if |name| > 0 {
      LookupKeyLowerAlnum(name[..|name| - 1]);
    }
  }

  /** The lookup form of a concatenation is the concatenation of the lookup forms. */
  lemma {:induction false} LookupKeyAppend(a: string, b: string)
    ensures LookupKey(a + b) == LookupKey(a) + LookupKey(b)
  {
    if |b| == 0 {
      assert a + b == a;
    } else {
      assert (a + b)[..|a + b| - 1] == a + b[..|b| - 1];
      LookupKeyAppend(a, b[..|b| - 1]);
    }
  }

  lemma LookupKeySplit(s: string, i: int)
    requires 0 <= i <= |s|
    ensures LookupKey(s) == LookupKey(s[..i]) + LookupKey(s[i..])
  {
    assert s == s[..i] + s[i..];
    LookupKeyAppend(s[..i], s[i..]);
  }

  /** Removing a character that contributes nothing (punctuation, a space, an underscore) leaves the lookup form unchanged. */
  lemma LookupKeyDropChar(s: string, i: int)
    requires 0 <= i < |s| && !Contributes(s[i])
    ensures LookupKey(s) == LookupKey(s[..i] + s[i + 1..])
  {
    LookupKeySplit(s, i + 1);
    var p := s[..i + 1];
    assert p[..|p| - 1] == s[..i];
    assert LookupKey(p) == LookupKey(s[..i]) + KeyChar(s[i]);
    assert LookupKey(s[..i]) + KeyChar(s[i]) == LookupKey(s[..i]);
    LookupKeyAppend(s[..i], s[i + 1..]);
  }

  /** A name each of whose characters contributes exactly one character of `t`, in order, has lookup form `t`. */
  lemma {:induction false} LookupKeyPointwise(s: string, t: string)
    requires |s| == |t|
    requires forall i :: 0 <= i < |s| ==> Contributes(s[i]) && Lowered(s[i]) == t[i]
    ensures LookupKey(s) == t
  {
    if |s| > 0 {
      LookupKeyPointwise(s[..|s| - 1], t[..|t| - 1]);
      assert t == t[..|t| - 1] + [t[|t| - 1]];
    }
  }

  /** A name made only of characters that contribute nothing has the empty lookup form. */
  lemma {:induction false} LookupKeyDrops(s: string)
    requires forall i :: 0 <= i < |s| ==> !Contributes(s[i])
    ensures LookupKey(s) == ""
  {
    if |s| > 0 {
      LookupKeyDrops(s[..|s| - 1]);
    }
  }

  /** A name already in lookup form is its own lookup form. */
  lemma LookupKeyFixes(s: string)
    requires AllLowerAlnum(s)
    ensures LookupKey(s) == s
  {
    LookupKeyPointwise(s, s);
  }

  /** Two characters equal up to ASCII letter case. */
  predicate SameIgnoringCase(c: char, d: char) {
    c == d || ('A' <= c <= 'Z' && d as int == c as int + 32) || ('A' <= d <= 'Z' && c as int == d as int + 32)
  }

  /** Names that differ only in the case of their letters have the same lookup form. */
  lemma {:induction false} LookupKeyIgnoresCase(s: string, t: string)
    requires |s| == |t|
    requires forall i :: 0 <= i < |s| ==> SameIgnoringCase(s[i], t[i])
    ensures LookupKey(s) == LookupKey(t)
  {
    if |s| > 0 {
      LookupKeyIgnoresCase(s[..|s| - 1], t[..|t| - 1]);
      assert KeyChar(s[|s| - 1]) == KeyChar(t[|t| - 1]);
    }
  }

  /** Whether a normalised name is one of the canonical keys, i.e. the column or key is "mapped". */
  predicate IsCanonical(normalized: string) {
    normalized in CanonicalKeys
  }

  /**
   * The entries "heart_rate" and "sleep_duration" can never be looked up,
   * since the underscore is stripped first.
   */
  lemma UnderscoreEntriesUnreachable(name: string)
    ensures LookupKey(name) != "heart_rate" && LookupKey(name) != "sleep_duration"
  {
    LookupKeyLowerAlnum(name);
    assert !IsLowerAlnum("heart_rate"[5]);
    assert !IsLowerAlnum("sleep_duration"[5]);
  }
}
