/**
 * The list transforms inside the classroom's handlers (App.tsx): lookup by
 * id, in-place replacement for an edit, prepending for a new post, removal
 * for a delete, and the record a post builds.
 */
module Board {
  import opened Wrappers
  import opened Types
  import Seqs

  /** `editingId` as the handlers test it: set and not the empty string. */
  predicate IsEditing(editingId: Option<string>)
  {
    editingId.Some? && editingId.value != ""
  }

  /** The test `a => a.id === id`. */
  function HasId(id: string): Announcement -> bool
  {
    (a: Announcement) => a.id == id
  }

  /** The test `a => a.id !== id`. */
  function LacksId(id: string): Announcement -> bool
  {
    (a: Announcement) => a.id != id
  }

  /** The first announcement with the given id, if there is one. */
  function FindById(list: seq<Announcement>, id: string): (r: Option<Announcement>)
    ensures r.Some? ==> r.value in list && r.value.id == id
    ensures r.Some? ==>
      exists k :: 0 <= k < |list| && list[k] == r.value && forall j :: 0 <= j < k ==> list[j].id != id
    ensures r.None? <==> forall i :: 0 <= i < |list| ==> list[i].id != id
  {
    Seqs.Find(list, HasId(id))
  }

  /** The list with every entry carrying `id` replaced by `ann`; all else stays in place. */
  function ReplaceById(list: seq<Announcement>, id: string, ann: Announcement): (r: seq<Announcement>)
    ensures |r| == |list|
    ensures forall i :: 0 <= i < |list| && list[i].id == id ==> r[i] == ann
    ensures forall i :: 0 <= i < |list| && list[i].id != id ==> r[i] == list[i]
  {
    if list == [] then []
    else [if list[0].id == id then ann else list[0]] + ReplaceById(list[1..], id, ann)
  }

  /** When no entry carries `id`, replacement leaves the list as it was. */
  lemma ReplaceAbsent(list: seq<Announcement>, id: string, ann: Announcement)
    requires forall i :: 0 <= i < |list| ==> list[i].id != id
    ensures ReplaceById(list, id, ann) == list
  {
  }

  /** The list without the entries carrying `id`; the others keep their relative order. */
  function RemoveById(list: seq<Announcement>, id: string): (r: seq<Announcement>)
    ensures |r| <= |list|
    ensures forall a :: a in r ==> a in list && a.id != id
    ensures forall i :: 0 <= i < |list| && list[i].id != id ==> list[i] in r
  {
    Seqs.FilterMembers(list, LacksId(id));
    Seqs.Filter(list, LacksId(id))
  }

  /** Removing an id nothing carries leaves the list as it was. */
  lemma RemoveAbsent(list: seq<Announcement>, id: string)
    requires forall i :: 0 <= i < |list| ==> list[i].id != id
    ensures RemoveById(list, id) == list
  {
    Seqs.FilterAllPass(list, LacksId(id));
  }

  /** Removal works piecewise, so the survivors keep their order. */
  lemma RemoveConcat(front: seq<Announcement>, back: seq<Announcement>, id: string)
    ensures RemoveById(front + back, id) == RemoveById(front, id) + RemoveById(back, id)
  {
    Seqs.FilterConcat(front, back, LacksId(id));
  }

  /** Deleting the middle one of three announcements with distinct ids leaves the outer two, in order. */
  lemma RemoveMiddle(a: Announcement, b: Announcement, c: Announcement)
    requires a.id != b.id && b.id != c.id && a.id != c.id
    ensures RemoveById([a, b, c], b.id) == [a, c]
  {
    RemoveConcat([a], [b, c], b.id);
    RemoveConcat([b], [c], b.id);
    var p := LacksId(b.id);
    var sa, sb, sc := [a], [b], [c];
    assert sa[1..] == [] && sb[1..] == [] && sc[1..] == [];
    assert Seqs.Filter(sa, p) == [a];
    assert Seqs.Filter(sb, p) == [];
    assert Seqs.Filter(sc, p) == [c];
    assert [a] + [b, c] == [a, b, c];
    assert [b] + [c] == [b, c];
  }

  /** Once an id is removed, looking it up finds nothing. */
  lemma RemovedIsGone(list: seq<Announcement>, id: string)
    ensures FindById(RemoveById(list, id), id) == None
  {
  }

  /** Removing one id does not change what a lookup of any other id finds. */
  lemma {:induction false} RemoveKeepsOtherLookups(list: seq<Announcement>, id: string, other: string)
    requires other != id
    ensures FindById(RemoveById(list, id), other) == FindById(list, other)
  {
    if list != [] {
      var x, rest := list[0], list[1..];
      var sx := [x];
      assert list == sx + rest;
      assert sx[1..] == [];
      var survivors := Seqs.Filter(sx, LacksId(id));
      RemoveConcat(sx, rest, id);
      assert RemoveById(list, id) == survivors + RemoveById(rest, id);
      RemoveKeepsOtherLookups(rest, id, other);
      Seqs.FindCons(x, rest, HasId(other));
      if x.id == id {
        assert survivors == [];
        assert RemoveById(list, id) == RemoveById(rest, id);
      } else {
        assert survivors == [x];
        Seqs.FindCons(x, RemoveById(rest, id), HasId(other));
      }
    }
  }

  /**
   * The record a post builds (App.tsx, handlePost): the edited id or a fresh
   * one; on an edit, the stored entry's creation time unless that entry is
   * missing or its time is empty; the current time as update time.
   */
  function Compose(list: seq<Announcement>, title: string, content: string, category: Category,
                   editingId: Option<string>, translations: seq<Translation>,
                   freshId: string, now: string): (r: Announcement)
    ensures r.id == if IsEditing(editingId) then editingId.value else freshId
    ensures r.category == category && r.originalTitle == title && r.originalContent == content
    ensures r.translations == translations && r.updatedAt == now
    ensures r.createdAt == now || (IsEditing(editingId) && r.createdAt != "" &&
      exists k :: 0 <= k < |list| && list[k].id == editingId.value && list[k].createdAt == r.createdAt)
  {
    var id := if IsEditing(editingId) then editingId.value else freshId;
    var createdAt :=
      if !IsEditing(editingId) then now
      else match FindById(list, editingId.value)
        case Some(e) => if e.createdAt != "" then e.createdAt else now
        case None => now;
    Announcement(id, category, title, content, createdAt, now, translations)
  }

  /** A new post gets the fresh id and the current time for both timestamps. */
  lemma ComposeCreate(list: seq<Announcement>, title: string, content: string, category: Category,
                      editingId: Option<string>, translations: seq<Translation>,
                      freshId: string, now: string)
    requires !IsEditing(editingId)
    ensures Compose(list, title, content, category, editingId, translations, freshId, now)
         == Announcement(freshId, category, title, content, now, now, translations)
  {
  }

  /**
   * An edit keeps the edited id and the creation time of the first stored
   * entry with that id, takes the form's text, category and the new
   * translations, and stamps the current time as update time.
   */
  lemma ComposeEdit(list: seq<Announcement>, title: string, content: string, category: Category,
                    id: string, translations: seq<Translation>,
                    freshId: string, now: string, k: nat)
    requires id != ""
    requires k < |list| && list[k].id == id && list[k].createdAt != ""
    requires forall j :: 0 <= j < k ==> list[j].id != id
    ensures Compose(list, title, content, category, Some(id), translations, freshId, now)
         == Announcement(id, category, title, content, list[k].createdAt, now, translations)
  {
    Seqs.FindIsFirst(list, HasId(id), k);
  }

  /** An edit of an id no stored entry carries falls back to the current time as creation time. */
  lemma ComposeEditMissing(list: seq<Announcement>, title: string, content: string, category: Category,
                           id: string, translations: seq<Translation>,
                           freshId: string, now: string)
    requires id != ""
    requires forall i :: 0 <= i < |list| ==> list[i].id != id
    ensures Compose(list, title, content, category, Some(id), translations, freshId, now)
         == Announcement(id, category, title, content, now, now, translations)
  {
  }

  /** An edit whose first stored entry has an empty creation time also falls back to the current time. */
  lemma ComposeEditEmptyCreatedAt(list: seq<Announcement>, title: string, content: string, category: Category,
                                  id: string, translations: seq<Translation>,
                                  freshId: string, now: string, k: nat)
    requires id != ""
    requires k < |list| && list[k].id == id && list[k].createdAt == ""
    requires forall j :: 0 <= j < k ==> list[j].id != id
    ensures Compose(list, title, content, category, Some(id), translations, freshId, now)
         == Announcement(id, category, title, content, now, now, translations)
  {
    Seqs.FindIsFirst(list, HasId(id), k);
  }

  /**
   * The list a successful post saves: the new record in front of the old
   * list for a new post, the record in place of every entry with the edited
   * id for an edit.
   */
  function UpdatedList(list: seq<Announcement>, editingId: Option<string>, ann: Announcement): (r: seq<Announcement>)
    ensures !IsEditing(editingId) ==> |r| == |list| + 1 && r[0] == ann && r[1..] == list
    ensures IsEditing(editingId) ==> |r| == |list|
    ensures IsEditing(editingId) ==>
      forall i :: 0 <= i < |list| ==> r[i] == if list[i].id == editingId.value then ann else list[i]
  {
    if IsEditing(editingId) then ReplaceById(list, editingId.value, ann) else [ann] + list
  }

  /** After a new post, looking up its id finds the new record. */
  lemma CreatedIsFound(list: seq<Announcement>, editingId: Option<string>, ann: Announcement)
    requires !IsEditing(editingId)
    ensures FindById(UpdatedList(list, editingId, ann), ann.id) == Some(ann)
  {
    Seqs.FindCons(ann, list, HasId(ann.id));
  }

  /**
   * After an edit whose record keeps the edited id, a lookup of that id finds
   * the record if the id was present, and finds nothing otherwise.
   */
  lemma EditedIsFound(list: seq<Announcement>, id: string, ann: Announcement)
    requires id != "" && ann.id == id
    ensures (exists i :: 0 <= i < |list| && list[i].id == id) ==>
      FindById(UpdatedList(list, Some(id), ann), id) == Some(ann)
    ensures (forall i :: 0 <= i < |list| ==> list[i].id != id) ==>
      FindById(UpdatedList(list, Some(id), ann), id) == None
  {
    var first := Seqs.FirstIndex(list, HasId(id));
    if first.Some? {
      Seqs.FindIsFirst(UpdatedList(list, Some(id), ann), HasId(id), first.value);
    }
  }

  /** An edit whose record keeps the edited id leaves the lookup of every other id unchanged. */
  lemma EditKeepsOtherLookups(list: seq<Announcement>, id: string, ann: Announcement, other: string)
    requires id != "" && ann.id == id && other != id
    ensures FindById(UpdatedList(list, Some(id), ann), other) == FindById(list, other)
  {
    var first := Seqs.FirstIndex(list, HasId(other));
    if first.Some? {
      Seqs.FindIsFirst(list, HasId(other), first.value);
      Seqs.FindIsFirst(UpdatedList(list, Some(id), ann), HasId(other), first.value);
    }
  }
}
