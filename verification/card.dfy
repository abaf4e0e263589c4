/**
 * The announcement card (components/AnnouncementCard.tsx): which text a
 * student sees for a display language, and which parts of the card are
 * rendered.
 */
module Card {
  import opened Wrappers
  import opened Types
  import opened Constants
  import Seqs

  /** The title and content the card shows. */
  datatype Text = Text(title: string, content: string)

  /** The test `t => t.lang === lang`. */
  function InLanguage(lang: LanguageCode): Translation -> bool
  {
    (t: Translation) => t.lang == lang
  }

  /**
   * The text to show: the original for the source language, otherwise the
   * first translation into the display language, otherwise nothing.
   */
  function Resolve(a: Announcement, lang: LanguageCode): (r: Option<Text>)
    ensures lang == SourceLanguage ==> r == Some(Text(a.originalTitle, a.originalContent))
    ensures lang != SourceLanguage ==>
      (r.None? <==> forall i :: 0 <= i < |a.translations| ==> a.translations[i].lang != lang)
    ensures lang != SourceLanguage && r.Some? ==>
      exists k :: 0 <= k < |a.translations| && a.translations[k].lang == lang
        && r.value == Text(a.translations[k].title, a.translations[k].content)
        && forall j :: 0 <= j < k ==> a.translations[j].lang != lang
  {
    if lang == SourceLanguage then Some(Text(a.originalTitle, a.originalContent))
    else match Seqs.Find(a.translations, InLanguage(lang))
      case Some(t) => Some(Text(t.title, t.content))
      case None => None
  }

  /**
   * The resolved text depends only on the display language, the original
   * text and the translations: never on id, category or timestamps.
   */
  lemma ResolveIgnoresMetadata(a: Announcement, b: Announcement, lang: LanguageCode)
    requires a.originalTitle == b.originalTitle && a.originalContent == b.originalContent
    requires a.translations == b.translations
    ensures Resolve(a, lang) == Resolve(b, lang)
  {
  }

  /** An announcement translated only into English and Japanese has nothing to show in French. */
  lemma MissingTranslation(a: Announcement, en: Translation, ja: Translation)
    requires en.lang == EN && ja.lang == JA
    requires a.translations == [en, ja]
    ensures Resolve(a, FR) == None
  {
  }

  /** The edit and delete buttons, each wired to the announcement's id. */
  datatype AdminControls = AdminControls(editTarget: string, deleteTarget: string)

  /** What a rendered card carries. */
  datatype CardView = CardView(
    category: Category,
    badgeClass: string,
    timestamp: string,
    text: Text,
    autoTranslated: bool,
    controls: Option<AdminControls>)

  /**
   * The card for an announcement in a display language, or nothing when
   * there is no text to show; an absent `showAdminControls` reads as false.
   */
  function Render(a: Announcement, lang: LanguageCode, showAdminControls: bool): (v: Option<CardView>)
    ensures v.None? <==> Resolve(a, lang).None?
    ensures v.Some? ==> v.value.text == Resolve(a, lang).value
    ensures v.Some? ==> (v.value.autoTranslated <==> lang != SourceLanguage)
    ensures v.Some? ==> (v.value.controls.Some? <==> showAdminControls)
    ensures v.Some? && v.value.controls.Some? ==>
      v.value.controls.value.editTarget == a.id && v.value.controls.value.deleteTarget == a.id
    ensures v.Some? ==> v.value.category == a.category && v.value.badgeClass == CategoryColor(a.category)
    ensures v.Some? ==> v.value.timestamp == a.updatedAt
  {
    match Resolve(a, lang)
    case None => None
    case Some(text) =>
      Some(CardView(
        a.category,
        CategoryColor(a.category),
        a.updatedAt,
        text,
        lang != SourceLanguage,
        if showAdminControls then Some(AdminControls(a.id, a.id)) else None))
  }

  /** In the source language every announcement renders, with its original text and no marker. */
  lemma SourceLanguageAlwaysRenders(a: Announcement, showAdminControls: bool)
    ensures Render(a, SourceLanguage, showAdminControls).Some?
    ensures Render(a, SourceLanguage, showAdminControls).value.text == Text(a.originalTitle, a.originalContent)
    ensures !Render(a, SourceLanguage, showAdminControls).value.autoTranslated
  {
  }
}
