/**
 * translations.ts: `combinedTranslations`, the spread of ten keyed sections with later
 * sections winning, and `translations`, its transposition from key -> language -> string
 * into language -> key -> string, built by a loop over `LANGUAGES` and the keys.
 */
module Translations {
  import opened TranslationTypes

  /**
   * `{ ...sections[0], ...sections[1], ... }`: every key of every section is kept, and the
   * last section overrides the others on the keys it has.
   */
  function Combine(sections: seq<Section>): (r: Section)
    ensures forall i, k :: 0 <= i < |sections| && k in sections[i] ==> k in r
    ensures |sections| != 0 ==> forall k :: k in sections[|sections| - 1] ==> r[k] == sections[|sections| - 1][k]
    decreases |sections|
  {
    if sections == [] then map[]
    else Combine(sections[..|sections| - 1]) + sections[|sections| - 1]
  }

  /** The combined key set is the union of the sections' key sets. */
  lemma {:induction false} CombineKeys(sections: seq<Section>, k: string)
    ensures k in Combine(sections) <==> exists i :: 0 <= i < |sections| && k in sections[i]
    decreases |sections|
  {
    if sections != [] {
      var n := |sections| - 1;
      var front := sections[..n];
      CombineKeys(front, k);
      if k in Combine(sections) && k !in sections[n] {
        var i :| 0 <= i < |front| && k in front[i];
        assert sections[i] == front[i];
      }
      if exists i :: 0 <= i < |sections| && k in sections[i] {
        var i :| 0 <= i < |sections| && k in sections[i];
        if i < n {
          assert front[i] == sections[i];
        }
      }
    }
  }

  /** A key takes its entry from the last section that has it. */
  lemma {:induction false} CombineLaterWins(sections: seq<Section>, i: int, k: string)
    requires 0 <= i < |sections| && k in sections[i]
    requires forall j :: i < j < |sections| ==> k !in sections[j]
    ensures k in Combine(sections) && Combine(sections)[k] == sections[i][k]
    decreases |sections|
  {
    var n := |sections| - 1;
    if i < n {
      var front := sections[..n];
      assert front[i] == sections[i];
      forall j | i < j < |front| ensures k !in front[j] {
        assert front[j] == sections[j];
      }
      CombineLaterWins(front, i, k);
    }
  }

  /** The ten sections of the source, in the order they are spread. */
  datatype SectionName =
    | CommonTranslations | EmotionalCopy | TrustSection | TestimonialsSection | UseCasesSection
    | FaqSection | LanguagePromptSection | BlogContentSection | AiLegalSupportSection | AiFeaturesSection

  const SpreadOrder: seq<SectionName> := [
    CommonTranslations, EmotionalCopy, TrustSection, TestimonialsSection, UseCasesSection,
    FaqSection, LanguagePromptSection, BlogContentSection, AiLegalSupportSection, AiFeaturesSection
  ]

  /**
   * `combinedTranslations`, for whatever strings each section holds: the common keys are
   * all present, and the last section spread overrides the others.
   */
  function CombinedTranslations(content: SectionName -> Section): (r: Section)
    ensures forall k :: k in content(CommonTranslations) ==> k in r
    ensures forall k :: k in content(AiFeaturesSection) ==> k in r && r[k] == content(AiFeaturesSection)[k]
  {
    var sections := seq(|SpreadOrder|, i requires 0 <= i < |SpreadOrder| => content(SpreadOrder[i]));
    assert sections[0] == content(CommonTranslations) && sections[9] == content(AiFeaturesSection);
    Combine(sections)
  }

  /** Every key of any section is in `combinedTranslations`, and the last section spread wins. */
  lemma CombinedTranslationsKeys(content: SectionName -> Section, k: string)
    ensures k in CombinedTranslations(content) <==> exists n :: n in SpreadOrder && k in content(n)
    ensures k in content(AiFeaturesSection) ==>
              CombinedTranslations(content)[k] == content(AiFeaturesSection)[k]
  {
    var sections := seq(|SpreadOrder|, i requires 0 <= i < |SpreadOrder| => content(SpreadOrder[i]));
    CombineKeys(sections, k);
    if exists n :: n in SpreadOrder && k in content(n) {
      var n :| n in SpreadOrder && k in content(n);
      var i :| 0 <= i < |SpreadOrder| && SpreadOrder[i] == n;
      assert k in sections[i];
    }
    if k in content(AiFeaturesSection) {
      CombineLaterWins(sections, 9, k);
    }
  }

  // ---------------------------------------------------------------------
  // The transposition

  /** `Record<Language, Record<TranslationKeys, string>>` */
  type Table = map<Language, map<string, string>>

  /** `table` holds, for every language, exactly `combined`'s keys with that language's strings. */
  ghost predicate IsTransposeOf(table: Table, combined: Section)
  {
    && (forall l :: l in table <==> l in LANGUAGES)
    && (forall l :: l in table ==> table[l].Keys == combined.Keys)
    && (forall l, k :: l in table && k in combined ==> table[l][k] == Get(combined[k], l))
  }

  /** `translations = LANGUAGES.reduce(...)` over `combinedTranslations`. */
  method BuildTranslations(combined: Section) returns (table: Table)
    ensures IsTransposeOf(table, combined)
  {
    table := map[];
    for i := 0 to |LANGUAGES|
      invariant forall l :: l in table <==> l in LANGUAGES[..i]
      invariant forall l :: l in table ==> table[l].Keys == combined.Keys
      invariant forall l, k :: l in table && k in combined ==> table[l][k] == Get(combined[k], l)
    {
      var lang := LANGUAGES[i];
      assert lang !in table by {
        assert forall j :: 0 <= j < i ==> LANGUAGES[j] != lang;
      }
      table := table[lang := map[]];
      var remaining := combined.Keys;
      while remaining != {}
        invariant remaining <= combined.Keys
        invariant forall l :: l in table <==> l in LANGUAGES[..i + 1]
        invariant table[lang].Keys == combined.Keys - remaining
        invariant forall k :: k in table[lang] ==> table[lang][k] == Get(combined[k], lang)
        invariant forall l :: l in table && l != lang ==> table[l].Keys == combined.Keys
        invariant forall l, k :: l in table && l != lang && k in combined ==> table[l][k] == Get(combined[k], l)
        decreases remaining
      {
        var key :| key in remaining;
        table := table[lang := table[lang][key := Get(combined[key], lang)]];
        remaining := remaining - {key};
      }
    }
    assert LANGUAGES[..|LANGUAGES|] == LANGUAGES;
  }

  /** Every language has a row, and all rows have the same keys. */
  predicate Rectangular(table: Table)
  {
    En in table && forall l: Language :: l in table && table[l].Keys == table[En].Keys
  }

  /** Reads a combined section back out of a rectangular table. */
  function Untranspose(table: Table): (s: Section)
    requires Rectangular(table)
    ensures s.Keys == table[En].Keys
  {
    assert En in table && Hi in table && Bn in table && Mr in table && Te in table;
    map k | k in table[En] :: Entry(table[En][k], table[Hi][k], table[Bn][k], table[Mr][k], table[Te][k])
  }

  /** The transposition round-trips: reading the table back gives `combinedTranslations`. */
  lemma TransposeRoundTrip(table: Table, combined: Section)
    requires IsTransposeOf(table, combined)
    ensures Rectangular(table)
    ensures Untranspose(table) == combined
  {
    TranslationTypes.LanguagesEnumerate();
    var back := Untranspose(table);
    forall k | k in combined ensures back[k] == combined[k] {
      forall l: Language ensures Get(back[k], l) == Get(combined[k], l) {
        assert l in table && Get(back[k], l) == table[l][k];
      }
      EntryExtensional(back[k], combined[k]);
    }
  }

  /** The transposition of a combined section is unique. */
  lemma TransposeUnique(t1: Table, t2: Table, combined: Section)
    requires IsTransposeOf(t1, combined) && IsTransposeOf(t2, combined)
    ensures t1 == t2
  {
    forall l | l in t1 ensures t1[l] == t2[l] {
      assert t1[l].Keys == t2[l].Keys;
    }
  }
}
