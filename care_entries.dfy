/** One care-history entry on its way to the screen: the mapping of the
    server record to the card view model (note shortened to a 100-character
    preview) and the card's own choice of what note text to show. */
module CareEntries {
  import opened Common

  /** Longest note shown in full on a collapsed card. */
  const PreviewLength: nat := 100

  /** The fields of a care-history record the client reads. `entryDate` is the
      entry's instant in milliseconds, `None` when the record carries none;
      `note` is `None` for a null note. */
  datatype CareEntryDto = CareEntryDto(
    id: string, categoryEmoji: string, categoryDisplay: string,
    entryDate: Option<int>, entryDateFormatted: string, note: Option<string>)

  datatype CareEntryCardView = CareEntryCardView(
    id: string, categoryEmoji: string, categoryDisplay: string, dateFormatted: string,
    notePreview: string, noteFull: Option<string>, hasMore: bool)

  /** `entry.note || ""`: a null note reads as the empty note. */
  function NoteText(note: Option<string>): (t: string)
    ensures note.Some? ==> t == note.value
    ensures note.None? ==> t == ""
  {
    match note
    case None => ""
    case Some(s) => s
  }

  /** `mapEntryToViewModel`: a note longer than 100 characters is previewed as
      its first 100 characters followed by `"..."` and kept whole in
      `noteFull`; a shorter one is shown as is, with no full text. */
  function MapEntry(e: CareEntryDto): (c: CareEntryCardView)
    ensures c.id == e.id && c.categoryEmoji == e.categoryEmoji
    ensures c.categoryDisplay == e.categoryDisplay && c.dateFormatted == e.entryDateFormatted
    ensures c.hasMore <==> |NoteText(e.note)| > PreviewLength
    ensures c.noteFull.Some? <==> c.hasMore
  {
    var text := NoteText(e.note);
    var hasMore := |text| > PreviewLength;
    CareEntryCardView(
      e.id, e.categoryEmoji, e.categoryDisplay, e.entryDateFormatted,
      if hasMore then text[..PreviewLength] + "..." else text,
      if hasMore then Some(text) else None,
      hasMore)
  }

  /** The card never loses the note: the preview of a long note is its
      100-character prefix plus the marker, the full text is the note itself,
      and a short note is its own preview. A null note gives an empty preview
      with nothing more to show. */
  lemma {:induction false} PreviewKeepsNote(e: CareEntryDto)
    ensures var c := MapEntry(e);
      && (c.hasMore ==>
            c.noteFull == Some(NoteText(e.note))
            && c.notePreview == NoteText(e.note)[..PreviewLength] + "..."
            && |c.notePreview| == PreviewLength + 3)
      && (!c.hasMore ==> c.notePreview == NoteText(e.note))
      && |c.notePreview| <= PreviewLength + 3
      && (e.note.None? ==> c.notePreview == "" && !c.hasMore)
  {
  }

  /** Mapping a page of records keeps their order, one card per record. */
  function MapEntries(es: seq<CareEntryDto>): (cs: seq<CareEntryCardView>)
    ensures |cs| == |es|
    ensures forall i :: 0 <= i < |es| ==> cs[i] == MapEntry(es[i])
  {
    if es == [] then [] else [MapEntry(es[0])] + MapEntries(es[1..])
  }

  /** `isExpanded && entry.noteFull ? entry.noteFull : entry.notePreview`;
      an empty full text is falsy like a null one. */
  function DisplayNote(c: CareEntryCardView, isExpanded: bool): (s: string)
    ensures isExpanded && c.noteFull.Some? && c.noteFull.value != "" ==> s == c.noteFull.value
    ensures !(isExpanded && c.noteFull.Some? && c.noteFull.value != "") ==> s == c.notePreview
  {
    if isExpanded && c.noteFull.Some? && c.noteFull.value != "" then c.noteFull.value else c.notePreview
  }

  /** The expand toggle is rendered only under a non-empty displayed note of
      an entry with more text. */
  predicate ToggleShown(c: CareEntryCardView, isExpanded: bool) {
    DisplayNote(c, isExpanded) != "" && c.hasMore
  }

  function ToggleLabel(isExpanded: bool): (caption: string)
    ensures isExpanded ==> caption == "Zwiń"
    ensures !isExpanded ==> caption == "Rozwiń"
  {
    if isExpanded then "Zwiń" else "Rozwiń"
  }

  /** For a card built by `MapEntry`: expanded shows exactly the note,
      collapsed shows the preview, and the toggle is offered exactly for notes
      longer than 100 characters, whatever the expansion state. */
  lemma {:induction false} CardShowsNote(e: CareEntryDto, isExpanded: bool)
    ensures var c := MapEntry(e);
      && (isExpanded ==> DisplayNote(c, true) == NoteText(e.note))
      && DisplayNote(c, false) == c.notePreview
      && (ToggleShown(c, isExpanded) <==> |NoteText(e.note)| > PreviewLength)
  {
    var c := MapEntry(e);
    if c.hasMore {
      assert c.notePreview != "" by { assert |c.notePreview| == PreviewLength + 3; }
      assert c.noteFull.value != "" by { assert |c.noteFull.value| > PreviewLength; }
    }
  }

  /** The edit link `/pets/{petId}/entries/{id}/edit`. */
  function EditHref(petId: string, entryId: string): (href: string)
    ensures StartsWith(href, "/pets/")
    ensures EndsWith(href, "/edit")
  {
    "/pets/" + petId + "/entries/" + entryId + "/edit"
  }

  /** The pet and entry ids come back out of the edit link's path segments
      when neither contains a `/`. */
  lemma {:induction false} EditHrefSegments(petId: string, entryId: string)
    requires '/' !in petId && '/' !in entryId
    ensures Split(EditHref(petId, entryId), '/') == ["", "pets", petId, "entries", entryId, "edit"]
  {
    var parts := ["", "pets", petId, "entries", entryId, "edit"];
    assert Join(parts[5..], '/') == "edit";
    assert Join(parts[4..], '/') == entryId + "/edit";
    assert Join(parts[3..], '/') == "entries/" + entryId + "/edit";
    assert Join(parts[2..], '/') == petId + "/entries/" + entryId + "/edit";
    assert Join(parts[1..], '/') == "pets/" + petId + "/entries/" + entryId + "/edit";
    assert Join(parts, '/') == EditHref(petId, entryId);
    SplitJoin(parts, '/');
  }
}
