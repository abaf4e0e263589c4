/**
 * The record shapes and closed enumerations of the announcement board
 * (types.ts).
 */
module Types {
  import opened Wrappers

  /** The seven language codes; a closed union of string literals in the source. */
  datatype LanguageCode = KO | EN | ZH | RU | VI | JA | FR

  /** An entry of the supported-language table. */
  datatype Language = Language(code: LanguageCode, name: string, nativeName: string)

  /** The five announcement categories: 공지, 과제, 평가, 안내, 프로젝트. */
  datatype Category = Notice | Assignment | Assessment | Guidance | Project

  /** One translated rendering of an announcement. */
  datatype Translation = Translation(lang: LanguageCode, title: string, content: string)

  /**
   * An announcement. `translations` is an ordered sequence with no
   * uniqueness or completeness constraint on `lang`; timestamps are the
   * ISO strings the source stores.
   */
  datatype Announcement = Announcement(
    id: string,
    category: Category,
    originalTitle: string,
    originalContent: string,
    createdAt: string,
    updatedAt: string,
    translations: seq<Translation>)

  /** The string literal that stands for a language code. */
  function CodeText(c: LanguageCode): string
  {
    match c
    case KO => "KO"
    case EN => "EN"
    case ZH => "ZH"
    case RU => "RU"
    case VI => "VI"
    case JA => "JA"
    case FR => "FR"
  }

  /** Reads a language code back from its literal; no other string is a code. */
  function ParseCode(s: string): (r: Option<LanguageCode>)
    ensures r.Some? ==> CodeText(r.value) == s
    ensures r.None? ==> forall c: LanguageCode :: CodeText(c) != s
  {
    if s == "KO" then Some(KO)
    else if s == "EN" then Some(EN)
    else if s == "ZH" then Some(ZH)
    else if s == "RU" then Some(RU)
    else if s == "VI" then Some(VI)
    else if s == "JA" then Some(JA)
    else if s == "FR" then Some(FR)
    else None
  }

  /** Every code reads back as itself, so distinct codes have distinct literals. */
  lemma ParseCodeText(c: LanguageCode)
    ensures ParseCode(CodeText(c)) == Some(c)
    ensures forall d: LanguageCode :: CodeText(d) == CodeText(c) ==> d == c
  {
  }

  /** The string literal that stands for a category. */
  function CategoryLabel(c: Category): string
  {
    match c
    case Notice => "공지"
    case Assignment => "과제"
    case Assessment => "평가"
    case Guidance => "안내"
    case Project => "프로젝트"
  }

  /** Reads a category back from its label; no other string is a category. */
  function ParseCategory(s: string): (r: Option<Category>)
    ensures r.Some? ==> CategoryLabel(r.value) == s
    ensures r.None? ==> forall c: Category :: CategoryLabel(c) != s
  {
    if s == "공지" then Some(Notice)
    else if s == "과제" then Some(Assignment)
    else if s == "평가" then Some(Assessment)
    else if s == "안내" then Some(Guidance)
    else if s == "프로젝트" then Some(Project)
    else None
  }

  /** Every category reads back as itself, so distinct categories have distinct labels. */
  lemma ParseCategoryLabel(c: Category)
    ensures ParseCategory(CategoryLabel(c)) == Some(c)
    ensures forall d: Category :: CategoryLabel(d) == CategoryLabel(c) ==> d == c
  {
  }
}
