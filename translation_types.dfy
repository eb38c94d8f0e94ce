/** translations/types.ts: the supported languages and the shape of a translation section. */
module TranslationTypes {
  import opened Wrappers

  /** `type Language = 'en' | 'hi' | 'bn' | 'mr' | 'te'` */
  datatype Language = En | Hi | Bn | Mr | Te

  /** The string tag of each language. */
  function Code(l: Language): string
  {
    match l
    case En => "en"
    case Hi => "hi"
    case Bn => "bn"
    case Mr => "mr"
    case Te => "te"
  }

  /** A string is a `Language` exactly when it is one of the five tags. */
  function ParseLanguage(s: string): (r: Option<Language>)
    ensures r.Some? ==> Code(r.value) == s
    ensures r.None? <==> s !in {"en", "hi", "bn", "mr", "te"}
  {
    match s
    case "en" => Some(En)
    case "hi" => Some(Hi)
    case "bn" => Some(Bn)
    case "mr" => Some(Mr)
    case "te" => Some(Te)
    case _ => None
  }

  /** `LANGUAGES = ['en', 'hi', 'bn', 'mr', 'te']` */
  const LANGUAGES: seq<Language> := [En, Hi, Bn, Mr, Te]

  /** `Record<Language, string>`: one string for every language. */
  datatype Entry = Entry(en: string, hi: string, bn: string, mr: string, te: string)

  function Get(e: Entry, l: Language): string
  {
    match l
    case En => e.en
    case Hi => e.hi
    case Bn => e.bn
    case Mr => e.mr
    case Te => e.te
  }

  /** `TranslationSection = Record<string, Record<Language, string>>` */
  type Section = map<string, Entry>

  /** The tags are distinct, and parsing a tag gives back its language. */
  lemma CodeRoundTrip(l: Language, m: Language)
    ensures ParseLanguage(Code(l)) == Some(l)
    ensures Code(l) == Code(m) ==> l == m
  {
  }

  /** `LANGUAGES` lists every language exactly once, in the order en, hi, bn, mr, te. */
  lemma LanguagesEnumerate()
    ensures forall l: Language :: l in LANGUAGES
    ensures forall i, j :: 0 <= i < j < |LANGUAGES| ==> LANGUAGES[i] != LANGUAGES[j]
    ensures |LANGUAGES| == 5
    ensures forall i :: 0 <= i < |LANGUAGES| ==> Code(LANGUAGES[i]) == ["en", "hi", "bn", "mr", "te"][i]
  {
    forall l: Language ensures l in LANGUAGES {
      match l
      case En => assert LANGUAGES[0] == l;
      case Hi => assert LANGUAGES[1] == l;
      case Bn => assert LANGUAGES[2] == l;
      case Mr => assert LANGUAGES[3] == l;
      case Te => assert LANGUAGES[4] == l;
    }
  }

  /** An entry is determined by its five strings. */
  lemma EntryExtensional(a: Entry, b: Entry)
    requires forall l: Language :: Get(a, l) == Get(b, l)
    ensures a == b
  {
    assert Get(a, En) == Get(b, En) && Get(a, Hi) == Get(b, Hi) && Get(a, Bn) == Get(b, Bn);
    assert Get(a, Mr) == Get(b, Mr) && Get(a, Te) == Get(b, Te);
  }
}
