/** The add-album dialog's form: three text fields and the list the album goes to. */
module AddAlbumModal {
  import opened Wrappers
  import opened Text
  import opened Types

  /** What a successful submit hands to the application: the album and its list. */
  datatype Submission = Submission(draft: AlbumDraft, kind: AlbumKind)

  /** `handleSubmit`'s decision: nothing when any field is blank once trimmed, otherwise the
      fields as typed (untrimmed) and the chosen list. */
  function Submit(title: string, artist: string, coverUrl: string, kind: AlbumKind): Option<Submission> {
    if IsBlank(title) || IsBlank(artist) || IsBlank(coverUrl) then None
    else Some(Submission(AlbumDraft(title, artist, coverUrl), kind))
  }

  /** The form is rejected exactly when some field consists of whitespace only (the empty
      field included); an accepted form is emitted exactly as typed. */
  lemma SubmitSpec(title: string, artist: string, coverUrl: string, kind: AlbumKind)
    ensures Submit(title, artist, coverUrl, kind).None?
            <==> AllWhitespace(title) || AllWhitespace(artist) || AllWhitespace(coverUrl)
    ensures Submit(title, artist, coverUrl, kind).Some? ==>
              Submit(title, artist, coverUrl, kind).value.draft == AlbumDraft(title, artist, coverUrl)
              && Submit(title, artist, coverUrl, kind).value.kind == kind
  {
    BlankIffAllWhitespace(title);
    BlankIffAllWhitespace(artist);
    BlankIffAllWhitespace(coverUrl);
  }

  class Form {
    var title: string
    var artist: string
    var coverUrl: string
    var kind: AlbumKind

    /** The form opens empty, set to new releases. */
    constructor ()
      ensures title == "" && artist == "" && coverUrl == "" && kind == NewRelease
    {
      title, artist, coverUrl, kind := "", "", "", NewRelease;
    }

    method SetTitle(value: string)
      modifies this`title
      ensures title == value
    {
      title := value;
    }

    method SetArtist(value: string)
      modifies this`artist
      ensures artist == value
    {
      artist := value;
    }

    method SetCoverUrl(value: string)
      modifies this`coverUrl
      ensures coverUrl == value
    {
      coverUrl := value;
    }

    method SetKind(value: AlbumKind)
      modifies this`kind
      ensures kind == value
    {
      kind := value;
    }

    /** `handleSubmit`: a rejected form keeps its fields; an accepted one is emitted and the
        form is reset. */
    method HandleSubmit() returns (emitted: Option<Submission>)
      modifies this
      ensures emitted == Submit(old(title), old(artist), old(coverUrl), old(kind))
      ensures emitted.None? ==>
                title == old(title) && artist == old(artist) && coverUrl == old(coverUrl) && kind == old(kind)
      ensures emitted.Some? ==> title == "" && artist == "" && coverUrl == "" && kind == NewRelease
    {
      if IsBlank(title) || IsBlank(artist) || IsBlank(coverUrl) {
        emitted := None;
        return;
      }
      emitted := Some(Submission(AlbumDraft(title, artist, coverUrl), kind));
      title := "";
      artist := "";
      coverUrl := "";
      kind := NewRelease;
    }
  }
}
