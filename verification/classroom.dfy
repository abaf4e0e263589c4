/**
 * The live classroom screen (App.tsx, LiveClassroom): the announcement list
 * and its stored copy, the composer form, the busy flag and the student's
 * display language, with the handlers that update them.
 *
 * Browser storage is two fields: the list stored under 'gb_announcements'
 * and the language code stored under 'gb_student_lang' (None when a key is
 * absent). The translation call, the fresh id, the clock and the delete
 * confirmation are parameters of the handlers.
 */
module Classroom {
  import opened Wrappers
  import opened Types
  import opened Constants
  import opened Board

  /** What the translation service gives back: translations, or an error thrown. */
  datatype TranslationOutcome = Translated(translations: seq<Translation>) | TranslationError

  /**
   * How a post ended: ignored because a field was empty (nothing was sent
   * for translation), failed with the error alert, or saved.
   */
  datatype PostResult = Ignored | TranslationFailed | Posted(announcement: Announcement)

  class LiveClassroom {
    var announcements: seq<Announcement>
    var loading: bool
    var selectedLang: LanguageCode
    var title: string
    var content: string
    var category: Category
    var editingId: Option<string>
    var storedAnnouncements: Option<seq<Announcement>>
    var storedLang: Option<LanguageCode>

    /** The list on screen is the stored one, or both are empty because nothing is stored. */
    predicate Synced()
      reads this
    {
      storedAnnouncements == Some(announcements) || (storedAnnouncements == None && announcements == [])
    }

    /** The display language is the stored preference, or the source language when none is stored. */
    predicate LanguageSynced()
      reads this
    {
      selectedLang == if storedLang.Some? then storedLang.value else SourceLanguage
    }

    /** The first render: empty list, idle, source language, blank form; storage as found. */
    constructor (saved: Option<seq<Announcement>>, savedLang: Option<LanguageCode>)
      ensures announcements == [] && !loading && selectedLang == SourceLanguage
      ensures title == "" && content == "" && category == Notice && editingId == None
      ensures storedAnnouncements == saved && storedLang == savedLang
    {
      announcements := [];
      loading := false;
      selectedLang := SourceLanguage;
      title := "";
      content := "";
      category := Notice;
      editingId := None;
      storedAnnouncements := saved;
      storedLang := savedLang;
    }

    /** The mount effect: adopt the stored list and the stored language, where present. */
    method Mount()
      modifies this
      ensures announcements == if old(storedAnnouncements).Some? then old(storedAnnouncements).value else old(announcements)
      ensures selectedLang == if old(storedLang).Some? then old(storedLang).value else old(selectedLang)
      ensures storedAnnouncements == old(storedAnnouncements) && storedLang == old(storedLang)
      ensures loading == old(loading) && title == old(title) && content == old(content)
      ensures category == old(category) && editingId == old(editingId)
      ensures old(announcements) == [] ==> Synced()
      ensures old(selectedLang) == SourceLanguage ==> LanguageSynced()
    {
      if storedAnnouncements.Some? {
        announcements := storedAnnouncements.value;
      }
      if storedLang.Some? {
        selectedLang := storedLang.value;
      }
    }

    /** Writes the whole list to storage and shows it. */
    method SaveAnnouncements(data: seq<Announcement>)
      modifies this
      ensures storedAnnouncements == Some(data) && announcements == data && Synced()
      ensures loading == old(loading) && selectedLang == old(selectedLang) && storedLang == old(storedLang)
      ensures title == old(title) && content == old(content)
      ensures category == old(category) && editingId == old(editingId)
    {
      storedAnnouncements := Some(data);
      announcements := data;
    }

    /**
     * Submitting the form. With an empty title or content nothing happens.
     * Otherwise the text is translated; on failure everything but the busy
     * flag is kept; on success the new or edited record is saved and the
     * form is reset.
     */
    method HandlePost(outcome: TranslationOutcome, freshId: string, now: string) returns (result: PostResult)
      modifies this
      ensures old(title) == "" || old(content) == "" ==> result == Ignored && unchanged(this)
      ensures old(title) != "" && old(content) != "" && outcome.TranslationError? ==>
        && result == TranslationFailed
        && !loading
        && announcements == old(announcements) && storedAnnouncements == old(storedAnnouncements)
        && title == old(title) && content == old(content)
        && category == old(category) && editingId == old(editingId)
      ensures old(title) != "" && old(content) != "" && outcome.Translated? ==>
        var ann := Compose(old(announcements), old(title), old(content), old(category),
                           old(editingId), outcome.translations, freshId, now);
        && result == Posted(ann)
        && announcements == UpdatedList(old(announcements), old(editingId), ann)
        && storedAnnouncements == Some(announcements)
        && title == "" && content == "" && category == Notice && editingId == None
        && !loading
      ensures selectedLang == old(selectedLang) && storedLang == old(storedLang)
      ensures old(Synced()) ==> Synced()
    {
      if title == "" || content == "" {
        return Ignored;
      }
      loading := true;
      match outcome {
        case TranslationError =>
          result := TranslationFailed;
        case Translated(translations) =>
          var ann := Compose(announcements, title, content, category, editingId, translations, freshId, now);
          SaveAnnouncements(UpdatedList(announcements, editingId, ann));
          title := "";
          content := "";
          editingId := None;
          category := Notice;
          result := Posted(ann);
      }
      loading := false;
    }

    /** Loads an announcement into the form for editing; an unknown id changes nothing. */
    method HandleEdit(id: string)
      modifies this
      ensures FindById(old(announcements), id).None? ==> unchanged(this)
      ensures FindById(old(announcements), id).Some? ==>
        var target := FindById(old(announcements), id).value;
        && title == target.originalTitle && content == target.originalContent
        && category == target.category && editingId == Some(id)
      ensures announcements == old(announcements) && storedAnnouncements == old(storedAnnouncements)
      ensures loading == old(loading) && selectedLang == old(selectedLang) && storedLang == old(storedLang)
    {
      var target := FindById(announcements, id);
      if target.Some? {
        title := target.value.originalTitle;
        content := target.value.originalContent;
        category := target.value.category;
        editingId := Some(id);
      }
    }

    /**
     * Deletes every announcement with the id once confirmed, and saves;
     * declining changes nothing. The form, including `editingId`, is kept.
     */
    method HandleDelete(id: string, confirmed: bool)
      modifies this
      ensures !confirmed ==> unchanged(this)
      ensures confirmed ==> announcements == RemoveById(old(announcements), id)
      ensures confirmed ==> storedAnnouncements == Some(announcements)
      ensures loading == old(loading) && selectedLang == old(selectedLang) && storedLang == old(storedLang)
      ensures title == old(title) && content == old(content)
      ensures category == old(category) && editingId == old(editingId)
      ensures old(Synced()) ==> Synced()
    {
      if confirmed {
        SaveAnnouncements(RemoveById(announcements, id));
      }
    }

    /** The cancel button: leaves edit mode and clears title and content, keeping the category. */
    method CancelEdit()
      modifies this
      ensures editingId == None && title == "" && content == "" && category == old(category)
      ensures announcements == old(announcements) && storedAnnouncements == old(storedAnnouncements)
      ensures loading == old(loading) && selectedLang == old(selectedLang) && storedLang == old(storedLang)
    {
      editingId := None;
      title := "";
      content := "";
    }

    /** The form inputs: the teacher types a title and content and picks a category. */
    method FillForm(newTitle: string, newContent: string, newCategory: Category)
      modifies this
      ensures title == newTitle && content == newContent && category == newCategory
      ensures editingId == old(editingId)
      ensures announcements == old(announcements) && storedAnnouncements == old(storedAnnouncements)
      ensures loading == old(loading) && selectedLang == old(selectedLang) && storedLang == old(storedLang)
    {
      title := newTitle;
      content := newContent;
      category := newCategory;
    }

    /** The language selector: shows and stores the chosen code. */
    method SelectLanguage(code: LanguageCode)
      modifies this
      ensures selectedLang == code && storedLang == Some(code) && LanguageSynced()
      ensures announcements == old(announcements) && storedAnnouncements == old(storedAnnouncements)
      ensures loading == old(loading) && title == old(title) && content == old(content)
      ensures category == old(category) && editingId == old(editingId)
    {
      selectedLang := code;
      storedLang := Some(code);
    }
  }

  /**
   * A session driven only through the contracts above: a post, an edit of
   * it that fails to translate and is then retried, a reload and a delete.
   */
  method Session(first: seq<Translation>, second: seq<Translation>)
  {
    var room := new LiveClassroom(None, None);
    room.Mount();
    assert room.Synced() && room.LanguageSynced();

    room.FillForm("시험 안내", "내일 수학 시험이 있습니다", Assessment);
    var posted := room.HandlePost(Translated(first), "1", "t1");
    var a := Announcement("1", Assessment, "시험 안내", "내일 수학 시험이 있습니다", "t1", "t1", first);
    assert posted == Posted(a);
    assert room.announcements == [a] && room.storedAnnouncements == Some([a]);
    assert room.title == "" && room.editingId == None;

    room.HandleEdit("1");
    assert room.editingId == Some("1") && room.title == "시험 안내";
    var failed := room.HandlePost(TranslationError, "2", "t2");
    assert failed == TranslationFailed && room.announcements == [a] && room.editingId == Some("1");

    var edited := room.HandlePost(Translated(second), "2", "t3");
    var b := Announcement("1", Assessment, "시험 안내", "내일 수학 시험이 있습니다", "t1", "t3", second);
    ComposeEdit([a], "시험 안내", "내일 수학 시험이 있습니다", Assessment, "1", second, "2", "t3", 0);
    assert edited == Posted(b);
    assert room.announcements == [b];

    var reloaded := new LiveClassroom(room.storedAnnouncements, room.storedLang);
    reloaded.Mount();
    assert reloaded.announcements == [b];

    room.HandleDelete("1", false);
    assert room.announcements == [b];
    room.HandleDelete("1", true);
    RemovedIsGone([b], "1");
    assert FindById(room.announcements, "1") == None;
  }
}
