/** The add-singer dialog's form: a name and an image url. */
module AddSingerModal {
  import opened Wrappers
  import opened Text
  import opened Types

  /** `handleSubmit`'s decision: nothing when either field is blank once trimmed, otherwise
      the fields as typed (untrimmed). */
  function Submit(name: string, imageUrl: string): Option<SingerDraft> {
    if IsBlank(name) || IsBlank(imageUrl) then None else Some(SingerDraft(name, imageUrl))
  }

  /** The form is rejected exactly when a field consists of whitespace only (the empty field
      included); an accepted form is emitted exactly as typed. */
  lemma SubmitSpec(name: string, imageUrl: string)
    ensures Submit(name, imageUrl).None? <==> AllWhitespace(name) || AllWhitespace(imageUrl)
    ensures Submit(name, imageUrl).Some? ==> Submit(name, imageUrl).value == SingerDraft(name, imageUrl)
  {
    BlankIffAllWhitespace(name);
    BlankIffAllWhitespace(imageUrl);
  }

  class Form {
    var name: string
    var imageUrl: string

    /** The form opens empty. */
    constructor ()
      ensures name == "" && imageUrl == ""
    {
      name, imageUrl := "", "";
    }

    method SetName(value: string)
      modifies this`name
      ensures name == value
    {
      name := value;
    }

    method SetImageUrl(value: string)
      modifies this`imageUrl
      ensures imageUrl == value
    {
      imageUrl := value;
    }

    /** `handleSubmit`: a rejected form keeps its fields; an accepted one is emitted and the
        form is reset. */
    method HandleSubmit() returns (emitted: Option<SingerDraft>)
      modifies this
      ensures emitted == Submit(old(name), old(imageUrl))
      ensures emitted.None? ==> name == old(name) && imageUrl == old(imageUrl)
      ensures emitted.Some? ==> name == "" && imageUrl == ""
    {
      if IsBlank(name) || IsBlank(imageUrl) {
        emitted := None;
        return;
      }
      emitted := Some(SingerDraft(name, imageUrl));
      name := "";
      imageUrl := "";
    }
  }
}
