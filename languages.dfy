/** The language tables and the code-to-name lookup the translators use. */
module Languages {
  import opened Common
  import opened Types
  import Seqs

  const AfricanLanguages: seq<Language> := [
    Language("ak", "Akan (Twi)", true),
    Language("yo", "Yoruba", true),
    Language("ig", "Igbo", true),
    Language("sw", "Swahili", true),
    Language("zu", "Zulu", true),
    Language("ha", "Hausa", true),
    Language("am", "Amharic", true),
    Language("wo", "Wolof", true)
  ]

  const ForeignLanguages: seq<Language> := [
    Language("en", "English", false),
    Language("zh", "Chinese (Simplified)", false),
    Language("es", "Spanish", false),
    Language("de", "German", false)
  ]

  const AllLanguages: seq<Language> := AfricanLanguages + ForeignLanguages

  /** `ALL_LANGUAGES.filter(l => l.isAfrican)`, the options of the savings-circle language picker. */
  function AfricanOnly(langs: seq<Language>): seq<Language> {
    Seqs.Filter(langs, IsAfricanEntry)
  }

  predicate IsAfricanEntry(l: Language) {
    l.isAfrican
  }

  /** `ALL_LANGUAGES.find(l => l.code === code)`. */
  function FindByCode(code: string): (r: Option<Language>)
    ensures r.Some? ==> r.value in AllLanguages && r.value.code == code
    ensures r.None? <==> forall i :: 0 <= i < |AllLanguages| ==> AllLanguages[i].code != code
  {
    Seqs.Find(AllLanguages, (l: Language) => l.code == code)
  }

  /** `ALL_LANGUAGES.find(l => l.code === code)?.name || fallback`. */
  function NameOr(code: string, fallback: string): string {
    match FindByCode(code)
    case None => fallback
    case Some(l) => if l.name != "" then l.name else fallback
  }

  predicate CodesDistinct(langs: seq<Language>) {
    forall i, j :: 0 <= i < j < |langs| ==> langs[i].code != langs[j].code
  }

  lemma AllLanguagesShape()
    ensures |AllLanguages| == 12
    ensures AllLanguages[..|AfricanLanguages|] == AfricanLanguages
    ensures AllLanguages[|AfricanLanguages|..] == ForeignLanguages
    ensures forall l :: l in AfricanLanguages ==> l.isAfrican
    ensures forall l :: l in ForeignLanguages ==> !l.isAfrican
  {
  }

  /** Keeping the African entries of the combined table gives back the African table, in order. */
  lemma AfricanOnlyOfAll()
    ensures AfricanOnly(AllLanguages) == AfricanLanguages
  {
    AllLanguagesShape();
    AfricanOnlyOfSplit(AfricanLanguages, ForeignLanguages);
  }

  lemma AfricanOnlyOfSplit(a: seq<Language>, f: seq<Language>)
    requires forall i :: 0 <= i < |a| ==> a[i].isAfrican
    requires forall i :: 0 <= i < |f| ==> !f[i].isAfrican
    ensures AfricanOnly(a + f) == a
  {
    Seqs.FilterAppend(a, f, IsAfricanEntry);
    Seqs.FilterKeepsAll(a, IsAfricanEntry);
    Seqs.FilterDropsAll(f, IsAfricanEntry);
    assert Seqs.Filter(a, IsAfricanEntry) + [] == a;
  }

  /** No two entries share a code, and both defaults are present: lookup by code is unambiguous. */
  lemma CodesAreDistinct()
    ensures CodesDistinct(AllLanguages)
    ensures FindByCode("ak") == Some(AfricanLanguages[0])
    ensures FindByCode("en") == Some(ForeignLanguages[0])
  {
    assert AllLanguages[0].code == "ak";
    assert AllLanguages[8].code == "en";
  }

  /** With distinct codes, the entry found is the only one with that code. */
  lemma FindByCodeUnique(code: string, l: Language)
    requires l in AllLanguages && l.code == code
    ensures FindByCode(code) == Some(l)
  {
    CodesAreDistinct();
    var k :| 0 <= k < |AllLanguages| && AllLanguages[k] == l;
    var r := FindByCode(code);
    assert r.Some? by {
      assert AllLanguages[k].code == code;
    }
    var j :| 0 <= j < |AllLanguages| && AllLanguages[j] == r.value;
    assert AllLanguages[j].code == AllLanguages[k].code;
  }

  /**
   * `ALL_LANGUAGES.find(l => l.code === code)?.name || fallback`: for a code
   * some entry carries, that entry's name (unless empty); otherwise the fallback.
   */
  lemma NameOrSpec(code: string, fallback: string)
    ensures forall l :: l in AllLanguages && l.code == code ==>
      NameOr(code, fallback) == (if l.name != "" then l.name else fallback)
    ensures (forall i :: 0 <= i < |AllLanguages| ==> AllLanguages[i].code != code) ==>
      NameOr(code, fallback) == fallback
  {
    forall l | l in AllLanguages && l.code == code
      ensures NameOr(code, fallback) == (if l.name != "" then l.name else fallback)
    {
      FindByCodeUnique(code, l);
    }
  }

  /** The default language names: Akan (Twi) for `ak`, English for `en`, the fallback for an unknown code. */
  lemma NameOrDefaults(fallback: string)
    ensures NameOr("ak", fallback) == "Akan (Twi)"
    ensures NameOr("en", fallback) == "English"
    ensures NameOr("", fallback) == fallback
  {
    CodesAreDistinct();
    assert AfricanLanguages[0].name == "Akan (Twi)" && ForeignLanguages[0].name == "English";
    NoEmptyCode();
  }

  /** Every code has two letters, so none is empty. */
  lemma NoEmptyCode()
    ensures FindByCode("") == None
  {
    forall i | 0 <= i < |AllLanguages| ensures AllLanguages[i].code != "" {
      assert |AllLanguages[i].code| == 2;
    }
  }
}
