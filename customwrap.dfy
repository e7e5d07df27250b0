/** `CustomDockerProfilesSpawner`: profile selection, its persistence, and the selection form. */
module CustomWrap {
  import opened Values
  import opened Profiles
  import opened DockerProfiles
  import opened FormRender
  import opened SessionState
  import FormData

  /** A Python dict of spawner options. It is shared by reference: whoever holds it sees
      every update made through any other holder. */
  class OptionDict {
    var entries: map<string, Value>

    constructor (entries: map<string, Value>)
      ensures this.entries == entries
    {
      this.entries := entries;
    }
  }

  /** A profile tuple (display name, key, spawner class, option dict). The tuple cannot
      change; the dict it holds can. */
  datatype Profile = Profile(display: string, key: string, kind: SpawnerKind, options: OptionDict)
  {
    function Header(): ProfileHeader
    {
      ProfileHeader(display, key, kind)
    }
  }

  function HeadersOf(ps: seq<Profile>): seq<ProfileHeader>
  {
    seq(|ps|, i requires 0 <= i < |ps| => ps[i].Header())
  }

  lemma HeadersOfAppend(a: seq<Profile>, b: seq<Profile>)
    ensures HeadersOf(a + b) == HeadersOf(a) + HeadersOf(b)
  {
    forall i | 0 <= i < |a + b| ensures HeadersOf(a + b)[i] == (HeadersOf(a) + HeadersOf(b))[i] {
      if i >= |a| { assert (a + b)[i] == b[i - |a|]; }
    }
  }

  /** `p` carries the display name, key and class of the Docker profile of `image`. */
  predicate IsDockerHeader(p: Profile, nvidiaArgs: map<string, Value>, image: string)
  {
    p.display == DockerLabel(nvidiaArgs, image) && p.key == DockerKey(image) && p.kind == SystemUserSpawner
  }

  lemma DockerHeadersOf(docker: seq<Profile>, nvidiaArgs: map<string, Value>, tags: seq<string>)
    requires |docker| == |tags|
    requires forall i :: 0 <= i < |docker| ==> IsDockerHeader(docker[i], nvidiaArgs, tags[i])
    ensures HeadersOf(docker) == DockerHeaders(nvidiaArgs, tags)
  {
  }

  /** What the Docker daemon (the tags of each local image) and the GPU sidecar
      (the arguments it describes, empty when it cannot be reached) answer. */
  datatype Environment = Environment(imageTags: seq<seq<string>>, nvidiaArgs: map<string, Value>)

  class CustomDockerProfilesSpawner {
    // configuration
    const defaultProfiles: seq<Profile>
    const groupImages: map<string, seq<Image>>
    const defaultProfileImage: seq<Image>
    const dockerSpawnerArgs: map<string, Value>
    const firstTemplate: string
    const userName: string
    var groups: seq<string>
    var userOptions: map<string, string>
    // selection state
    var childProfile: string
    var profileImage: string
    /** The spawner class to delegate to; None while it is still the wrapper's own default. */
    var childClass: Option<SpawnerKind>
    var childConfig: OptionDict

    constructor (defaultProfiles: seq<Profile>, groupImages: map<string, seq<Image>>,
                 defaultProfileImage: seq<Image>, dockerSpawnerArgs: map<string, Value>,
                 firstTemplate: string, userName: string, groups: seq<string>)
      ensures this.defaultProfiles == defaultProfiles && this.groupImages == groupImages
      ensures this.defaultProfileImage == defaultProfileImage && this.dockerSpawnerArgs == dockerSpawnerArgs
      ensures this.firstTemplate == firstTemplate && this.userName == userName && this.groups == groups
      ensures userOptions == map[] && childProfile == "" && profileImage == ""
      ensures childClass == None && fresh(childConfig) && childConfig.entries == map[]
    {
      this.defaultProfiles := defaultProfiles;
      this.groupImages := groupImages;
      this.defaultProfileImage := defaultProfileImage;
      this.dockerSpawnerArgs := dockerSpawnerArgs;
      this.firstTemplate := firstTemplate;
      this.userName := userName;
      this.groups := groups;
      userOptions := map[];
      childProfile := "";
      profileImage := "";
      childClass := None;
      childConfig := new OptionDict(map[]);
    }

    /** The configuration the class ships with: one Docker profile, one base image for each
        of two example groups, one default image, no extra Docker arguments, and "selected"
        as the first-entry marker. The profile's option dictionary is the class-level default
        (the one holding the "sbrambla" image), shared by every instance that keeps the
        default, so it is passed in rather than allocated here. */
    constructor Shipped(shippedOptions: OptionDict, userName: string, groups: seq<string>)
      ensures |defaultProfiles| == 1
      ensures defaultProfiles[0].Header() == ProfileHeader("Run Docker Image", "singleuser", SystemUserSpawner)
      ensures defaultProfiles[0].options == shippedOptions
      ensures groupImages == map["group_a" := [Image("base image group_a", "jupyterhub/singleuser")],
                                 "group_b" := [Image("base image group_b", "jupyterhub/singleuser")]]
      ensures defaultProfileImage == [Image("base", "jupyterhub/singleuser")]
      ensures dockerSpawnerArgs == map[] && firstTemplate == "selected"
      ensures this.userName == userName && this.groups == groups
      ensures userOptions == map[] && childProfile == "" && profileImage == ""
      ensures childClass == None && fresh(childConfig) && childConfig.entries == map[]
    {
      defaultProfiles := [Profile("Run Docker Image", "singleuser", SystemUserSpawner, shippedOptions)];
      groupImages := map["group_a" := [Image("base image group_a", "jupyterhub/singleuser")],
                         "group_b" := [Image("base image group_b", "jupyterhub/singleuser")]];
      defaultProfileImage := [Image("base", "jupyterhub/singleuser")];
      dockerSpawnerArgs := map[];
      firstTemplate := "selected";
      this.userName := userName;
      this.groups := groups;
      userOptions := map[];
      childProfile := "";
      profileImage := "";
      childClass := None;
      childConfig := new OptionDict(map[]);
    }

    /** The option dicts of the configured profiles, which persist across calls. */
    function DefaultDicts(): set<OptionDict>
    {
      set j | 0 <= j < |defaultProfiles| :: defaultProfiles[j].options
    }

    /** The headers of `profiles`: the configured profiles, then one per matching Docker tag. */
    function ProfileHeaders(env: Environment): seq<ProfileHeader>
    {
      HeadersOf(defaultProfiles) + DockerHeaders(env.nvidiaArgs, JupyterhubTags(env.imageTags))
    }

    /** A key among the configured profiles is found there, whatever the Docker daemon lists. */
    lemma ConfiguredProfilesComeFirst(env: Environment, profile: string)
      requires profile in Keys(HeadersOf(defaultProfiles))
      ensures FirstMatch(Keys(ProfileHeaders(env)), profile) == FirstMatch(Keys(HeadersOf(defaultProfiles)), profile)
    {
      KeysAppend(HeadersOf(defaultProfiles), DockerHeaders(env.nvidiaArgs, JupyterhubTags(env.imageTags)));
      FirstMatchShadows(Keys(HeadersOf(defaultProfiles)),
                        Keys(DockerHeaders(env.nvidiaArgs, JupyterhubTags(env.imageTags))), profile);
    }

    /** Otherwise `docker-<tag>` selects the Docker profile of the first matching listing of
        the tag, placed after the configured profiles. */
    lemma DockerKeySelectsTag(env: Environment, tag: string)
      requires DockerKey(tag) !in Keys(HeadersOf(defaultProfiles))
      ensures FirstMatch(Keys(ProfileHeaders(env)), DockerKey(tag))
           == Shifted(FirstMatch(JupyterhubTags(env.imageTags), tag), |defaultProfiles|)
    {
      var docker := DockerHeaders(env.nvidiaArgs, JupyterhubTags(env.imageTags));
      KeysAppend(HeadersOf(defaultProfiles), docker);
      FirstMatchShadows(Keys(HeadersOf(defaultProfiles)), Keys(docker), DockerKey(tag));
      DockerKeyFindsTag(env.nvidiaArgs, JupyterhubTags(env.imageTags), tag);
    }

    /** `_docker_profile`: a fresh profile for one image. */
    method DockerProfile(nvidiaArgs: map<string, Value>, image: string) returns (p: Profile)
      ensures IsDockerHeader(p, nvidiaArgs, image)
      ensures fresh(p.options)
      ensures p.options.entries == DockerArgs(image, userName, dockerSpawnerArgs, nvidiaArgs)
    {
      var spawnerArgs := new OptionDict(map["container_image" := Text(image), "network_name" := Text(userName)]);
      spawnerArgs.entries := spawnerArgs.entries + dockerSpawnerArgs;
      spawnerArgs.entries := spawnerArgs.entries + nvidiaArgs;
      p := Profile(DockerLabel(nvidiaArgs, image), DockerKey(image), SystemUserSpawner, spawnerArgs);
    }

    /** `_docker_profiles`: a fresh profile per matching tag, in listing order. */
    method DockerProfiles(nvidiaArgs: map<string, Value>, tags: seq<string>) returns (docker: seq<Profile>)
      ensures |docker| == |tags|
      ensures HeadersOf(docker) == DockerHeaders(nvidiaArgs, tags)
      ensures forall i :: 0 <= i < |docker| ==> docker[i].kind == SystemUserSpawner
      ensures forall i :: 0 <= i < |docker| ==> fresh(docker[i].options)
      ensures forall i :: 0 <= i < |docker| ==>
        docker[i].options.entries == DockerArgs(tags[i], userName, dockerSpawnerArgs, nvidiaArgs)
    {
      docker := [];
      for k := 0 to |tags|
        invariant |docker| == k
        invariant forall i :: 0 <= i < k ==> IsDockerHeader(docker[i], nvidiaArgs, tags[i])
        invariant forall i :: 0 <= i < k ==> fresh(docker[i].options)
        invariant forall i :: 0 <= i < k ==>
          docker[i].options.entries == DockerArgs(tags[i], userName, dockerSpawnerArgs, nvidiaArgs)
      {
        var p := DockerProfile(nvidiaArgs, tags[k]);
        docker := docker + [p];
      }
      DockerHeadersOf(docker, nvidiaArgs, tags);
    }

    /** `p` is a Docker profile newly built for `image`: delegating to the system-user Docker
        spawner, with a new dict of its arguments. */
    twostate predicate BuiltFor(new p: Profile, image: string, nvidiaArgs: map<string, Value>)
      reads this, p.options
    {
      p.kind == SystemUserSpawner && fresh(p.options) &&
      p.options.entries == DockerArgs(image, userName, dockerSpawnerArgs, nvidiaArgs)
    }

    /** `profiles`: the configured profiles themselves (same dicts), followed by freshly
        built Docker profiles. */
    method Profiles(env: Environment) returns (ps: seq<Profile>, ghost docker: seq<Profile>)
      ensures ps == defaultProfiles + docker
      ensures |docker| == |JupyterhubTags(env.imageTags)|
      ensures HeadersOf(ps) == ProfileHeaders(env)
      ensures forall j :: 0 <= j < |docker| ==> BuiltFor(docker[j], JupyterhubTags(env.imageTags)[j], env.nvidiaArgs)
    {
      var fromTags := DockerProfiles(env.nvidiaArgs, JupyterhubTags(env.imageTags));
      ps := defaultProfiles + fromTags;
      docker := fromTags;
      HeadersOfAppend(defaultProfiles, fromTags);
    }

    /** The effect of `select_profile` once the lookup has given `found`, between the state
        before and after: on a hit, the spawner class is that profile's and the child config
        IS that profile's dict, with "image" set to `image` (a configured profile's persistent
        dict, or the fresh dict of a Docker profile); on a miss, class and config are left as
        they were. No other configured dict changes. */
    twostate predicate Applied(found: Option<nat>, image: string, env: Environment)
      reads this, childConfig, DefaultDicts()
    {
      var n := |defaultProfiles|;
      var tags := JupyterhubTags(env.imageTags);
      (forall j :: 0 <= j < n && defaultProfiles[j].options != childConfig ==>
         defaultProfiles[j].options.entries == old(defaultProfiles[j].options.entries)) &&
      match found
      case None =>
        childClass == old(childClass) && childConfig == old(childConfig) &&
        (forall j :: 0 <= j < n ==>
           defaultProfiles[j].options.entries == old(defaultProfiles[j].options.entries))
      case Some(i) =>
        if i < n then
          childClass == Some(defaultProfiles[i].kind) &&
          childConfig == defaultProfiles[i].options &&
          childConfig.entries == old(defaultProfiles[i].options.entries)["image" := Text(image)]
        else
          i < n + |tags| &&
          childClass == Some(SystemUserSpawner) &&
          fresh(childConfig) &&
          childConfig.entries ==
            DockerArgs(tags[i - n], userName, dockerSpawnerArgs, env.nvidiaArgs)["image" := Text(image)]
    }

    /** Lines 184-189 of `select_profile`: delegate to the profile's class and take its own
        dict, with "image" set, as the child config. */
    method Install(p: Profile, image: string)
      modifies this`childClass, this`childConfig, p.options
      ensures childClass == Some(p.kind) && childConfig == p.options
      ensures childConfig.entries == old(p.options.entries)["image" := Text(image)]
      ensures forall j :: 0 <= j < |defaultProfiles| && defaultProfiles[j].options != p.options ==>
        defaultProfiles[j].options.entries == old(defaultProfiles[j].options.entries)
    {
      childClass := Some(p.kind);
      childConfig := p.options;
      childConfig.entries := childConfig.entries["image" := Text(image)];
    }

    /** The loop of `select_profile`: the position of the first profile whose key is
        `profile`, found by scanning the list and stopping at the first hit. */
    static method FindProfile(ps: seq<Profile>, profile: string) returns (found: Option<nat>, hit: Option<Profile>)
      ensures found == FirstMatch(Keys(HeadersOf(ps)), profile)
      ensures found.Some? <==> hit.Some?
      ensures found.Some? ==> found.value < |ps| && hit.value == ps[found.value]
    {
      ghost var keys := Keys(HeadersOf(ps));
      assert |keys| == |ps|;
      found, hit := None, None;
      var i := 0;
      while i < |ps|
        invariant 0 <= i <= |ps|
        invariant forall j :: 0 <= j < i ==> keys[j] != profile
      {
        assert keys[i] == ps[i].key;
        if ps[i].key == profile {
          found, hit := Some(i), Some(ps[i]);
          FirstMatchAt(keys, profile, i);
          break;
        }
        i := i + 1;
      }
      if found.None? {
        FirstMatchIsFirst(keys, profile);
      }
    }

    /** Lines 182-183 of `select_profile`: read `profiles` once and look `profile` up in it,
        giving the position of the first match and the profile found there. */
    method LookUp(profile: string, env: Environment) returns (found: Option<nat>, hit: Option<Profile>)
      ensures found == FirstMatch(Keys(ProfileHeaders(env)), profile)
      ensures found.Some? <==> hit.Some?
      ensures found.Some? && found.value < |defaultProfiles| ==> hit.value == defaultProfiles[found.value]
      ensures found.Some? ==> found.value < |defaultProfiles| + |JupyterhubTags(env.imageTags)|
      ensures found.Some? && found.value >= |defaultProfiles| ==>
        BuiltFor(hit.value, JupyterhubTags(env.imageTags)[found.value - |defaultProfiles|], env.nvidiaArgs)
    {
      var ps;
      ghost var docker;
      ps, docker := Profiles(env);
      found, hit := FindProfile(ps, profile);
      if found.Some? && found.value >= |defaultProfiles| {
        assert hit.value == docker[found.value - |defaultProfiles|];
      }
    }

    /** `select_profile`: `found` is the position of the first profile whose key is `profile`. */
    method SelectProfile(profile: string, image: string, env: Environment) returns (ghost found: Option<nat>)
      modifies this`childClass, this`childConfig, DefaultDicts()
      ensures found == FirstMatch(Keys(ProfileHeaders(env)), profile)
      ensures Applied(found, image, env)
    {
      var hit;
      found, hit := LookUp(profile, env);
      if hit.Some? {
        Install(hit.value, image);
      }
    }

    /** `options_from_form`, with the default image taken from the default image list as
        evidently intended: it reads `profiles` for the first profile key. */
    method OptionsFromForm(formdata: map<string, seq<string>>, env: Environment)
      returns (r: Result<map<string, string>>)
      ensures r == FormData.OptionsFromForm(formdata, Keys(ProfileHeaders(env)), defaultProfileImage)
    {
      var ps, _ := Profiles(env);
      var keys := seq(|ps|, i requires 0 <= i < |ps| => ps[i].key);
      assert keys == Keys(HeadersOf(ps));
      r := FormData.OptionsFromForm(formdata, keys, defaultProfileImage);
    }

    /** `construct_child`: take the selection from the submitted options (empty when
        missing) and select accordingly. */
    method ConstructChild(env: Environment) returns (ghost found: Option<nat>)
      modifies this`childProfile, this`profileImage, this`childClass, this`childConfig, DefaultDicts()
      ensures childProfile == (if "profile" in userOptions then userOptions["profile"] else "")
      ensures profileImage == (if "dockerImage" in userOptions then userOptions["dockerImage"] else "")
      ensures found == FirstMatch(Keys(ProfileHeaders(env)), childProfile)
      ensures Applied(found, profileImage, env)
    {
      childProfile := Get(userOptions, "profile", "");
      profileImage := Get(userOptions, "dockerImage", "");
      found := SelectProfile(childProfile, profileImage, env);
    }

    /** `load_child_class`: restore the selection from a saved state, falling back to the
        empty selection when either entry is missing, and select accordingly. */
    method LoadChildClass(state: map<string, Value>, env: Environment) returns (ghost found: Option<nat>)
      requires Restorable(state)
      modifies this`childProfile, this`profileImage, this`childClass, this`childConfig, DefaultDicts()
      ensures Selection(childProfile, profileImage) == Restore(state)
      ensures found == FirstMatch(Keys(ProfileHeaders(env)), childProfile)
      ensures Applied(found, profileImage, env)
    {
      if "profile" in state {
        childProfile := state["profile"].s;
        if "dockerImage" in state {
          profileImage := state["dockerImage"].s;
        } else {
          childProfile := "";
          profileImage := "";
        }
      } else {
        childProfile := "";
        profileImage := "";
      }
      found := SelectProfile(childProfile, profileImage, env);
    }

    /** `get_state`: the base class's state (`base`) with the selection added. */
    method GetState(base: map<string, Value>) returns (state: map<string, Value>)
      ensures state == Persist(base, Selection(childProfile, profileImage))
      ensures Restorable(state) && Restore(state) == Selection(childProfile, profileImage)
    {
      state := base;
      state := state["profile" := Text(childProfile)];
      state := state["dockerImage" := Text(profileImage)];
      PersistRestore(base, Selection(childProfile, profileImage));
    }

    /** `clear_state`: forget the selection. */
    method ClearState()
      modifies this`childProfile, this`profileImage
      ensures childProfile == "" && profileImage == ""
    {
      childProfile := "";
      profileImage := "";
    }

    /** The text of the selection form: every profile, then the images of every group of
        the user, each list with its first entry marked. Empty profiles leave nothing to
        mark, which the source reports as an IndexError. */
    function FormText(env: Environment): (r: Result<string>)
      reads this
      ensures r.Err? <==> |defaultProfiles| == 0 && |JupyterhubTags(env.imageTags)| == 0
      ensures r.Err? ==> r.error == IndexError
    {
      var hs := ProfileHeaders(env);
      if |hs| == 0 then Err(IndexError)
      else
        var images := GroupImages(groupImages, defaultProfileImage, groups);
        Ok(RenderForm(RenderOptions(MarkFirst(ProfileRecords(hs), firstTemplate)),
                      RenderOptions(MarkFirst(ImageRecords(images), firstTemplate))))
    }

    /** The image loop of `options_form`: the records of each group's images, group by
        group, none of them marked yet. */
    method CollectImageRecords() returns (tempImages: seq<OptionRecord>)
      ensures tempImages == ImageRecords(GroupImages(groupImages, defaultProfileImage, groups))
    {
      tempImages := [];
      for k := 0 to |groups|
        invariant tempImages == ImageRecords(GroupImages(groupImages, defaultProfileImage, groups[..k]))
      {
        var images := ImagesFor(groupImages, defaultProfileImage, groups[k]);
        assert groups[..k + 1] == groups[..k] + [groups[k]];
        GroupImagesSnoc(groupImages, defaultProfileImage, groups[..k], groups[k]);
        ImageRecordsAppend(GroupImages(groupImages, defaultProfileImage, groups[..k]), images);
        tempImages := tempImages + ImageRecords(images);
      }
      assert groups[..|groups|] == groups;
    }

    /** `options_form`: build the profile records from `profiles`, mark the first one, collect
        the image records group by group, mark the first one if any, and render. */
    method OptionsForm(env: Environment) returns (r: Result<string>)
      ensures r == FormText(env)
    {
      var ps, _ := Profiles(env);
      var tempKeys := seq(|ps|, i requires 0 <= i < |ps| => OptionRecord(ps[i].display, ps[i].key, Some(ps[i].kind), ""));
      assert tempKeys == ProfileRecords(HeadersOf(ps));
      if |tempKeys| == 0 {
        return Err(IndexError);
      }
      tempKeys := tempKeys[0 := tempKeys[0].(first := firstTemplate)];
      assert tempKeys == MarkFirst(ProfileRecords(ProfileHeaders(env)), firstTemplate);
      var tempImages := CollectImageRecords();
      if tempImages != [] {
        tempImages := tempImages[0 := tempImages[0].(first := firstTemplate)];
      }
      assert tempImages == MarkFirst(ImageRecords(GroupImages(groupImages, defaultProfileImage, groups)), firstTemplate);
      var text := RenderOptions(tempKeys);
      var textImages := RenderOptions(tempImages);
      r := Ok(RenderForm(text, textImages));
    }
  }
}
