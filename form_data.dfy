/** Decoding of the submitted selection form (`options_from_form`). */
module FormData {
  import opened Values
  import opened FormRender

  /** The first value of a submitted field, or the default when the field is absent.
      Indexing an empty list of values raises. */
  function FirstOr(formdata: map<string, seq<string>>, field: string, default: string): Result<string>
  {
    var values := Get(formdata, field, [default]);
    if |values| == 0 then Err(IndexError) else Ok(values[0])
  }

  /** `options_from_form` as written. Python evaluates both default arguments before calling
      `get`: `self.profiles[0][1]` raises on an empty profile list, and `self.images[0][1]`
      subscripts the bound method `images`, which raises TypeError whatever was submitted. */
  function OptionsFromFormAsWritten(formdata: map<string, seq<string>>, profileKeys: seq<string>): (r: Result<map<string, string>>)
    ensures r.Err?
    ensures r.error == IndexError <==>
      |profileKeys| == 0 || ("profile" in formdata && formdata["profile"] == [])
  {
    if |profileKeys| == 0 then Err(IndexError)
    else if FirstOr(formdata, "profile", profileKeys[0]).Err? then Err(IndexError)
    else Err(TypeError)
  }

  /** A complete submission, with both fields present, still raises TypeError. */
  lemma AsWrittenRejectsCompleteForm()
    ensures OptionsFromFormAsWritten(map["profile" := ["local"], "dockerImage" := ["jupyterhub/singleuser"]], ["local"])
         == Err(TypeError)
  {
  }

  /** `options_from_form` as evidently intended, with the default image taken from
      `self.images()`, that is from the default image list. Both defaults are still
      evaluated eagerly, so an empty profile or default image list raises. */
  function OptionsFromForm(formdata: map<string, seq<string>>, profileKeys: seq<string>, defaultImages: seq<Image>): (r: Result<map<string, string>>)
    ensures r.Ok? <==>
      |profileKeys| > 0 && |defaultImages| > 0 &&
      ("profile" in formdata ==> |formdata["profile"]| > 0) &&
      ("dockerImage" in formdata ==> |formdata["dockerImage"]| > 0)
    ensures r.Err? ==> r.error == IndexError
    ensures r.Ok? ==> r.value.Keys == {"profile", "dockerImage"}
    ensures r.Ok? ==>
      r.value["profile"] == if "profile" in formdata then formdata["profile"][0] else profileKeys[0]
    ensures r.Ok? ==>
      r.value["dockerImage"] == if "dockerImage" in formdata then formdata["dockerImage"][0] else defaultImages[0].reference
  {
    if |profileKeys| == 0 then Err(IndexError)
    else
      var profile := FirstOr(formdata, "profile", profileKeys[0]);
      if profile.Err? then Err(IndexError)
      else if |defaultImages| == 0 then Err(IndexError)
      else
        var image := FirstOr(formdata, "dockerImage", defaultImages[0].reference);
        if image.Err? then Err(IndexError)
        else Ok(map["profile" := profile.value, "dockerImage" := image.value])
  }

  /** An empty submission selects the first profile and the first default image. */
  lemma EmptyFormSelectsDefaults(profileKeys: seq<string>, defaultImages: seq<Image>)
    requires |profileKeys| > 0 && |defaultImages| > 0
    ensures OptionsFromForm(map[], profileKeys, defaultImages)
         == Ok(map["profile" := profileKeys[0], "dockerImage" := defaultImages[0].reference])
  {
  }
}
