/**
 * The constant tables of the board (constants.ts) and the list of target
 * languages named in the translation instruction (services/geminiService.ts).
 */
module Constants {
  import opened Types
  import Seqs

  /** The language announcements are written in; needs no translation. */
  const SourceLanguage: LanguageCode := KO

  /** The languages a student can choose, in display order. */
  const SupportedLanguages: seq<Language> := [
    Language(KO, "한국어", "한국어"),
    Language(EN, "English", "English"),
    Language(ZH, "Chinese", "中文"),
    Language(RU, "Russian", "Русский"),
    Language(VI, "Vietnamese", "Tiếng Việt"),
    Language(JA, "Japanese", "日本語"),
    Language(FR, "French", "Français")
  ]

  /** The categories offered by the composer's selector, in display order. */
  const Categories: seq<Category> := [Notice, Assignment, Assessment, Guidance, Project]

  /** The target languages the translation instruction asks for, in its order. */
  const InstructionTargets: seq<LanguageCode> := [EN, ZH, RU, VI, JA, FR]

  /** The class string of the category badge; defined for every category. */
  function CategoryColor(c: Category): (cls: string)
    ensures cls != ""
  {
    match c
    case Notice => "bg-blue-100 text-blue-700 border-blue-200"
    case Assignment => "bg-orange-100 text-orange-700 border-orange-200"
    case Assessment => "bg-red-100 text-red-700 border-red-200"
    case Guidance => "bg-emerald-100 text-emerald-700 border-emerald-200"
    case Project => "bg-purple-100 text-purple-700 border-purple-200"
  }

  /** Different categories get different badge classes. */
  lemma CategoryColorsDistinct(c: Category, d: Category)
    requires c != d
    ensures CategoryColor(c) != CategoryColor(d)
  {
  }

  /** The seven codes in table order leave none out. */
  lemma AllCodesListed(codes: seq<LanguageCode>)
    requires codes == [KO, EN, ZH, RU, VI, JA, FR]
    ensures forall c: LanguageCode :: c in codes
  {
    forall c: LanguageCode ensures c in codes {
      match c
      case KO => assert codes[0] == c;
      case EN => assert codes[1] == c;
      case ZH => assert codes[2] == c;
      case RU => assert codes[3] == c;
      case VI => assert codes[4] == c;
      case JA => assert codes[5] == c;
      case FR => assert codes[6] == c;
    }
  }

  /**
   * The codes of the supported languages, in table order: seven of them,
   * the source language first, every code present and none repeated.
   */
  function SupportedCodes(): (r: seq<LanguageCode>)
    ensures |r| == 7 && r[0] == SourceLanguage
    ensures forall c: LanguageCode :: c in r
    ensures forall i, j :: 0 <= i < j < |r| ==> r[i] != r[j]
  {
    var codes := seq(|SupportedLanguages|, i requires 0 <= i < |SupportedLanguages| => SupportedLanguages[i].code);
    assert codes == [KO, EN, ZH, RU, VI, JA, FR];
    AllCodesListed(codes);
    codes
  }

  /** The table has seven entries, starts with the source language and repeats no code. */
  lemma SupportedLanguagesShape()
    ensures |SupportedLanguages| == 7
    ensures SupportedLanguages[0].code == SourceLanguage
    ensures forall i, j :: 0 <= i < j < |SupportedLanguages| ==>
      SupportedLanguages[i].code != SupportedLanguages[j].code
  {
  }

  /** Where a code sits in the table: every code is supported, exactly once. */
  function LanguagePosition(c: LanguageCode): (i: nat)
    ensures i < |SupportedLanguages| && SupportedLanguages[i].code == c
    ensures forall j :: 0 <= j < |SupportedLanguages| && j != i ==> SupportedLanguages[j].code != c
  {
    match c
    case KO => 0
    case EN => 1
    case ZH => 2
    case RU => 3
    case VI => 4
    case JA => 5
    case FR => 6
  }

  /** The category table has five entries and repeats none. */
  lemma CategoriesShape()
    ensures |Categories| == 5
    ensures forall i, j :: 0 <= i < j < |Categories| ==> Categories[i] != Categories[j]
  {
  }

  /** Where a category sits in the table: every category is listed, exactly once. */
  function CategoryPosition(c: Category): (i: nat)
    ensures i < |Categories| && Categories[i] == c
    ensures forall j :: 0 <= j < |Categories| && j != i ==> Categories[j] != c
  {
    match c
    case Notice => 0
    case Assignment => 1
    case Assessment => 2
    case Guidance => 3
    case Project => 4
  }

  /** A language the translation service must produce text for. */
  predicate IsTarget(c: LanguageCode)
  {
    c != SourceLanguage
  }

  /** The supported languages other than the source language. */
  function TargetLanguages(): seq<LanguageCode>
  {
    Seqs.Filter(SupportedCodes(), IsTarget)
  }

  /** The targets derived from the table are exactly those the instruction names. */
  lemma TargetsMatchInstruction()
    ensures TargetLanguages() == InstructionTargets
  {
    var codes := SupportedCodes();
    var p := IsTarget;
    var ko: seq<LanguageCode> := [KO];
    assert codes == ko + InstructionTargets by {
      assert |codes| == 7;
      forall i | 0 <= i < 7 ensures codes[i] == (ko + InstructionTargets)[i] {
      }
    }
    Seqs.FilterConcat(ko, InstructionTargets, p);
    assert Seqs.Filter(ko, p) == [] by {
      assert ko[1..] == [];
    }
    Seqs.FilterAllPass(InstructionTargets, p);
  }
}
