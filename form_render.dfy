/** The records behind the selection form and their rendering with the default templates. */
module FormRender {
  import opened Values
  import opened Profiles

  /** An image choice: display name and image reference. */
  datatype Image = Image(display: string, reference: string)

  /** The fields substituted into an option template. Profile records also carry the
      spawner class (`type`); image records have no such field. */
  datatype OptionRecord = OptionRecord(display: string, key: string, kind: Option<SpawnerKind>, first: string)

  /** `images(group)`: a non-empty group name is looked up in the group table, defaulting to
      no images; the empty name stands for the default image list. */
  function ImagesFor(groupImages: map<string, seq<Image>>, defaultImages: seq<Image>, group: string): (r: seq<Image>)
    ensures group != "" && group in groupImages ==> r == groupImages[group]
    ensures group != "" && group !in groupImages ==> r == []
    ensures group == "" ==> r == defaultImages
  {
    if group != "" then Get(groupImages, group, []) else defaultImages
  }

  /** The images of all the user's groups, group by group. */
  function GroupImages(groupImages: map<string, seq<Image>>, defaultImages: seq<Image>, groups: seq<string>): seq<Image>
  {
    if groups == [] then []
    else ImagesFor(groupImages, defaultImages, groups[0]) + GroupImages(groupImages, defaultImages, groups[1..])
  }

  /** Appending a group appends its images: the order in which the form loop collects them. */
  lemma {:induction false} GroupImagesSnoc(groupImages: map<string, seq<Image>>, defaultImages: seq<Image>,
                                           groups: seq<string>, g: string)
    ensures GroupImages(groupImages, defaultImages, groups + [g])
         == GroupImages(groupImages, defaultImages, groups) + ImagesFor(groupImages, defaultImages, g)
  {
    if groups == [] {
      assert [g][1..] == [];
    } else {
      assert (groups + [g])[1..] == groups[1..] + [g];
      GroupImagesSnoc(groupImages, defaultImages, groups[1..], g);
    }
  }

  /** A group that is neither the empty name nor in the table contributes nothing. */
  lemma {:induction false} UnknownGroupsContributeNothing(groupImages: map<string, seq<Image>>,
                                                          defaultImages: seq<Image>, groups: seq<string>)
    requires forall i :: 0 <= i < |groups| ==> groups[i] != "" && groups[i] !in groupImages
    ensures GroupImages(groupImages, defaultImages, groups) == []
  {
    if groups != [] {
      UnknownGroupsContributeNothing(groupImages, defaultImages, groups[1..]);
    }
  }

  function ProfileRecords(hs: seq<ProfileHeader>): seq<OptionRecord>
  {
    seq(|hs|, i requires 0 <= i < |hs| => OptionRecord(hs[i].display, hs[i].key, Some(hs[i].kind), ""))
  }

  function ImageRecords(images: seq<Image>): seq<OptionRecord>
  {
    seq(|images|, i requires 0 <= i < |images| => OptionRecord(images[i].display, images[i].reference, None, ""))
  }

  lemma ImageRecordsAppend(a: seq<Image>, b: seq<Image>)
    ensures ImageRecords(a + b) == ImageRecords(a) + ImageRecords(b)
  {
    forall i | 0 <= i < |a| + |b|
      ensures ImageRecords(a + b)[i] == (ImageRecords(a) + ImageRecords(b))[i]
    {
      if i >= |a| { assert (a + b)[i] == b[i - |a|]; }
    }
  }

  /** Puts `marker` in the `first` field of the first record, if there is one. */
  function MarkFirst(recs: seq<OptionRecord>, marker: string): seq<OptionRecord>
  {
    if recs == [] then [] else recs[0 := recs[0].(first := marker)]
  }

  /** The profile records of the form: one per profile, in order, only the first one marked. */
  lemma ProfileOptions(hs: seq<ProfileHeader>, marker: string)
    ensures |MarkFirst(ProfileRecords(hs), marker)| == |hs|
    ensures forall i :: 0 <= i < |hs| ==>
      MarkFirst(ProfileRecords(hs), marker)[i] == OptionRecord(hs[i].display, hs[i].key, Some(hs[i].kind), if i == 0 then marker else "")
  {
  }

  /** The image records of the form: one per image, in order, only the first one marked. */
  lemma ImageOptions(images: seq<Image>, marker: string)
    ensures |MarkFirst(ImageRecords(images), marker)| == |images|
    ensures forall i :: 0 <= i < |images| ==>
      MarkFirst(ImageRecords(images), marker)[i] == OptionRecord(images[i].display, images[i].reference, None, if i == 0 then marker else "")
  {
  }

  /** How many records carry `marker` in their `first` field. */
  function CountMarked(recs: seq<OptionRecord>, marker: string): nat
  {
    if recs == [] then 0 else (if recs[0].first == marker then 1 else 0) + CountMarked(recs[1..], marker)
  }

  lemma {:induction false} NoneMarked(recs: seq<OptionRecord>, marker: string)
    requires marker != ""
    requires forall i :: 0 <= i < |recs| ==> recs[i].first == ""
    ensures CountMarked(recs, marker) == 0
  {
    if recs != [] {
      NoneMarked(recs[1..], marker);
    }
  }

  /** With a non-empty marker, a non-empty list of fresh records ends up with exactly one
      marked record; an empty list has none. */
  lemma ExactlyOneMarked(recs: seq<OptionRecord>, marker: string)
    requires marker != ""
    requires forall i :: 0 <= i < |recs| ==> recs[i].first == ""
    ensures CountMarked(MarkFirst(recs, marker), marker) == if recs == [] then 0 else 1
  {
    if recs != [] {
      var marked := MarkFirst(recs, marker);
      assert marked[1..] == recs[1..];
      NoneMarked(recs[1..], marker);
    }
  }

  /** The text of an option element up to its `value` attribute. */
  const OptionOpen: string := "\n        <option value=\""

  /** The default `input_template` and `input_image_template`, applied to one record. */
  function RenderOption(rec: OptionRecord): string
  {
    OptionOpen + rec.key + "\" " + rec.first + ">" + rec.display + "</option>"
  }

  /** An option element carries the record's key as its `value` attribute, closed by a
      double quote right after the key, and its display name as its text. A key without
      double quotes therefore fills the attribute exactly, and the browser submits that key. */
  lemma RenderOptionFields(rec: OptionRecord)
    ensures var r := RenderOption(rec);
      var v := |OptionOpen|;
      var t := |r| - 9 - |rec.display|;
      v + |rec.key| < t &&
      r[..v] == OptionOpen && r[v..v + |rec.key|] == rec.key && r[v + |rec.key|] == '"' &&
      r[t..|r| - 9] == rec.display && r[|r| - 9..] == "</option>"
  {
    var tail := "\" " + rec.first + ">";
    Splice(OptionOpen, rec.key, tail, rec.display, "</option>");
    var r := OptionOpen + rec.key + tail + rec.display + "</option>";
    assert r[|OptionOpen| + |rec.key|] == r[|OptionOpen| + |rec.key|..|r| - 9 - |rec.display|][0];
  }

  /** `"".join(template.format(**r) for r in recs)`. */
  function RenderOptions(recs: seq<OptionRecord>): string
  {
    if recs == [] then "" else RenderOption(recs[0]) + RenderOptions(recs[1..])
  }

  /** Rendering a concatenation concatenates the renderings. */
  lemma {:induction false} RenderOptionsAppend(a: seq<OptionRecord>, b: seq<OptionRecord>)
    ensures RenderOptions(a + b) == RenderOptions(a) + RenderOptions(b)
  {
    if a == [] {
      assert a + b == b;
    } else {
      assert (a + b)[1..] == a[1..] + b;
      RenderOptionsAppend(a[1..], b);
    }
  }

  /** The default `form_template` up to the profile options. */
  const ProfileSelectOpen: string :=
    "<label for=\"profile\">Select a job profile:</label>\n"
    + "        <select class=\"form-control\" name=\"profile\" required autofocus>\n"
    + "        "

  /** The default `form_template` between the profile options and the image options. */
  const ImageSelectOpen: string :=
    "\n"
    + "        </select>\n"
    + "        \n"
    + "        <label for=\"profile\">Select docker image:</label>\n"
    + "        <select class=\"form-control\" name=\"dockerImage\" required autofocus>\n"
    + "        "

  /** The default `form_template` after the image options. */
  const SelectClose: string := "\n        </select>\n        "

  /** The default `form_template` with both option lists substituted. */
  function RenderForm(profileOptions: string, imageOptions: string): string
  {
    ProfileSelectOpen + profileOptions + ImageSelectOpen + imageOptions + SelectClose
  }

  /** The profile options sit inside the `profile` select and the image options inside the
      `dockerImage` select, each exactly once, with nothing else between the tags. */
  lemma RenderFormPlacesLists(profileOptions: string, imageOptions: string)
    ensures var r := RenderForm(profileOptions, imageOptions);
      var p := |ProfileSelectOpen|;
      var i := p + |profileOptions| + |ImageSelectOpen|;
      |r| == i + |imageOptions| + |SelectClose| &&
      r[..p] == ProfileSelectOpen &&
      r[p..p + |profileOptions|] == profileOptions &&
      r[p + |profileOptions|..i] == ImageSelectOpen &&
      r[i..i + |imageOptions|] == imageOptions &&
      r[i + |imageOptions|..] == SelectClose
  {
    Splice(ProfileSelectOpen, profileOptions, ImageSelectOpen, imageOptions, SelectClose);
  }

  /** Where the middle one of three concatenated pieces lies in the whole. */
  lemma Middle(x: string, y: string, z: string)
    ensures (x + y + z)[..|x|] == x
    ensures (x + y + z)[|x|..|x| + |y|] == y
    ensures (x + y + z)[|x| + |y|..] == z
  {
    assert x + y + z == x + (y + z);
  }

  /** Where each of five concatenated pieces lies in the whole. */
  lemma Splice(a: string, b: string, c: string, d: string, e: string)
    ensures var r := a + b + c + d + e;
      var i := |a| + |b| + |c|;
      |r| == i + |d| + |e| &&
      r[..|a|] == a && r[|a|..|a| + |b|] == b && r[|a| + |b|..i] == c &&
      r[i..i + |d|] == d && r[i + |d|..] == e
  {
    assert a + b + c + d + e == a + b + (c + d + e);
    Middle(a, b, c + d + e);
    assert a + b + c + d + e == (a + b) + c + (d + e);
    Middle(a + b, c, d + e);
    Middle(a + b + c, d, e);
  }
}
