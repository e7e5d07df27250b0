/** Synthesis of one profile per Docker image tag whose name ends in "jupyterhub". */
module DockerProfiles {
  import opened Values
  import opened Profiles

  predicate StartsWith(s: string, prefix: string)
  {
    |prefix| <= |s| && s[..|prefix|] == prefix
  }

  predicate EndsWith(s: string, suffix: string)
  {
    |suffix| <= |s| && s[|s| - |suffix|..] == suffix
  }

  /** Whether Python's `re.match("^.*jupyterhub$", tag)` succeeds: `.` matches anything but a
      line feed, and `$` matches at the end or just before one final line feed. */
  predicate TagMatches(tag: string)
  {
    '\n' !in Body(tag) && EndsWith(Body(tag), "jupyterhub")
  }

  /** The regular expression read literally: a line of any length, then "jupyterhub",
      then the end of the tag or a final line feed. */
  ghost predicate PatternMatchesAt(tag: string, k: int)
  {
    0 <= k <= |tag| && '\n' !in tag[..k] && (tag[k..] == "jupyterhub" || tag[k..] == "jupyterhub\n")
  }

  /** The tag without one final line feed, the part that `.*jupyterhub` has to cover. */
  function Body(tag: string): string
  {
    if |tag| > 0 && tag[|tag| - 1] == '\n' then tag[..|tag| - 1] else tag
  }

  lemma TagMatchesPattern(tag: string)
    ensures TagMatches(tag) <==> exists k :: PatternMatchesAt(tag, k)
  {
    if TagMatches(tag) {
      MatchGivesPosition(tag);
    }
    if k :| PatternMatchesAt(tag, k) {
      PositionGivesMatch(tag, k);
    }
  }

  lemma MatchGivesPosition(tag: string)
    requires TagMatches(tag)
    ensures PatternMatchesAt(tag, |Body(tag)| - 10)
  {
    var body := Body(tag);
    var k := |body| - 10;
    assert body == tag[..|body|];
    assert tag[..k] == body[..k];
    assert '\n' !in tag[..k] by {
      forall j | 0 <= j < k ensures tag[..k][j] != '\n' {
        assert tag[..k][j] == body[j];
      }
    }
    if body == tag {
      assert tag[k..] == "jupyterhub";
    } else {
      assert tag == body + "\n";
      assert tag[k..] == body[k..] + "\n";
    }
  }

  lemma PositionGivesMatch(tag: string, k: int)
    requires PatternMatchesAt(tag, k)
    ensures TagMatches(tag)
  {
    var head := tag[..k];
    assert '\n' !in "jupyterhub";
    if tag[k..] == "jupyterhub" {
      assert tag == head + "jupyterhub";
      assert tag[|tag| - 1] == 'b';
      assert Body(tag) == tag;
      assert tag[|tag| - 10..] == "jupyterhub";
    } else {
      assert tag == head + "jupyterhub\n";
      assert tag[|tag| - 1] == '\n';
      assert Body(tag) == head + "jupyterhub";
      assert Body(tag)[|Body(tag)| - 10..] == "jupyterhub";
    }
  }

  /** For tags without line feeds (all real Docker tags) the filter is "ends with jupyterhub". */
  lemma PlainTagMatches(tag: string)
    requires '\n' !in tag
    ensures TagMatches(tag) <==> EndsWith(tag, "jupyterhub")
  {
  }

  /** The tags of all images, image by image, in listing order. */
  function AllTags(imageTags: seq<seq<string>>): seq<string>
  {
    if imageTags == [] then [] else imageTags[0] + AllTags(imageTags[1..])
  }

  function FilterTags(tags: seq<string>): seq<string>
  {
    if tags == [] then []
    else if TagMatches(tags[0]) then [tags[0]] + FilterTags(tags[1..])
    else FilterTags(tags[1..])
  }

  /** The filter keeps exactly the matching tags. */
  lemma {:induction false} FilterTagsKeepsMatching(tags: seq<string>)
    ensures |FilterTags(tags)| <= |tags|
    ensures forall t :: t in FilterTags(tags) <==> t in tags && TagMatches(t)
  {
    if tags != [] {
      FilterTagsKeepsMatching(tags[1..]);
      assert tags == [tags[0]] + tags[1..];
    }
  }

  /** The filter keeps the listing order: filtering a concatenation concatenates the results. */
  lemma {:induction false} FilterTagsAppend(a: seq<string>, b: seq<string>)
    ensures FilterTags(a + b) == FilterTags(a) + FilterTags(b)
  {
    if a == [] {
      assert a + b == b;
    } else {
      assert (a + b)[1..] == a[1..] + b;
      FilterTagsAppend(a[1..], b);
    }
  }

  /** `_jupyterhub_docker_tags`: every tag of every image, filtered by the pattern. */
  function JupyterhubTags(imageTags: seq<seq<string>>): seq<string>
  {
    FilterTags(AllTags(imageTags))
  }

  /** Every tag of every listed image is in the flattened listing, and nothing else. */
  lemma {:induction false} AllTagsMembers(imageTags: seq<seq<string>>)
    ensures forall t :: t in AllTags(imageTags) <==> exists i :: 0 <= i < |imageTags| && t in imageTags[i]
  {
    if imageTags != [] {
      AllTagsMembers(imageTags[1..]);
      forall t | exists i :: 0 <= i < |imageTags| && t in imageTags[i]
        ensures t in AllTags(imageTags)
      {
        var i :| 0 <= i < |imageTags| && t in imageTags[i];
        if i > 0 {
          assert t in imageTags[1..][i - 1];
        }
      }
    }
  }

  /** Listing more images appends their tags: images keep their listing order. */
  lemma {:induction false} AllTagsAppend(a: seq<seq<string>>, b: seq<seq<string>>)
    ensures AllTags(a + b) == AllTags(a) + AllTags(b)
  {
    if a == [] {
      assert a + b == b;
    } else {
      assert (a + b)[1..] == a[1..] + b;
      AllTagsAppend(a[1..], b);
    }
  }

  /** The offered tags are exactly the matching tags of the listed images. */
  lemma JupyterhubTagsSelects(imageTags: seq<seq<string>>)
    ensures forall t :: t in JupyterhubTags(imageTags) <==>
      TagMatches(t) && exists i :: 0 <= i < |imageTags| && t in imageTags[i]
  {
    AllTagsMembers(imageTags);
    FilterTagsKeepsMatching(AllTags(imageTags));
  }

  /** The offered tags follow the listing: image by image, and within an image tag by tag. */
  lemma JupyterhubTagsAppend(a: seq<seq<string>>, b: seq<seq<string>>)
    ensures JupyterhubTags(a + b) == JupyterhubTags(a) + JupyterhubTags(b)
  {
    AllTagsAppend(a, b);
    FilterTagsAppend(AllTags(a), AllTags(b));
  }

  /** The profile key of a Docker image. */
  function DockerKey(image: string): string
  {
    "docker-" + image
  }

  /** Different images get different keys, and the image can be read back from its key. */
  lemma DockerKeyInjective(a: string, b: string)
    ensures DockerKey(a) == DockerKey(b) <==> a == b
    ensures StartsWith(DockerKey(a), "docker-") && DockerKey(a)[7..] == a
  {
    if DockerKey(a) == DockerKey(b) {
      assert a == DockerKey(a)[7..];
    }
  }

  /** The display name of a Docker profile: the GPU marker, then the image. */
  function DockerLabel(nvidiaArgs: map<string, Value>, image: string): string
  {
    "Docker: (" + (if nvidiaArgs != map[] then "w/GPU" else "no GPU") + "): " + image
  }

  /** The label says "w/GPU" exactly when the sidecar described GPU arguments, and ends
      with the image. */
  lemma DockerLabelMarksGpu(nvidiaArgs: map<string, Value>, image: string)
    ensures StartsWith(DockerLabel(nvidiaArgs, image), "Docker: (w/GPU): ") <==> |nvidiaArgs| > 0
    ensures StartsWith(DockerLabel(nvidiaArgs, image), "Docker: (no GPU): ") <==> |nvidiaArgs| == 0
    ensures EndsWith(DockerLabel(nvidiaArgs, image), image)
  {
    var gpu := if nvidiaArgs != map[] then "w/GPU" else "no GPU";
    var text := DockerLabel(nvidiaArgs, image);
    assert text == ("Docker: (" + gpu + "): ") + image;
    assert text[9] == gpu[0];
    assert text[|text| - |image|..] == image;
  }

  /** The spawner arguments of a Docker profile: a base pair merged with two dicts. */
  function DockerArgs(image: string, userName: string, spawnerArgs: map<string, Value>,
                      nvidiaArgs: map<string, Value>): map<string, Value>
  {
    map["container_image" := Text(image), "network_name" := Text(userName)] + spawnerArgs + nvidiaArgs
  }

  /** The merge order: the GPU arguments override the configured DockerSpawner arguments,
      which override the base `container_image` and `network_name`; no key is lost. */
  lemma DockerArgsPrecedence(image: string, userName: string, spawnerArgs: map<string, Value>,
                             nvidiaArgs: map<string, Value>)
    ensures var m := DockerArgs(image, userName, spawnerArgs, nvidiaArgs);
      && m.Keys == {"container_image", "network_name"} + spawnerArgs.Keys + nvidiaArgs.Keys
      && (forall k :: k in nvidiaArgs ==> m[k] == nvidiaArgs[k])
      && (forall k :: k in spawnerArgs && k !in nvidiaArgs ==> m[k] == spawnerArgs[k])
      && ("container_image" !in spawnerArgs && "container_image" !in nvidiaArgs ==>
            m["container_image"] == Text(image))
      && ("network_name" !in spawnerArgs && "network_name" !in nvidiaArgs ==>
            m["network_name"] == Text(userName))
  {
  }

  function DockerHeader(nvidiaArgs: map<string, Value>, image: string): ProfileHeader
  {
    ProfileHeader(DockerLabel(nvidiaArgs, image), DockerKey(image), SystemUserSpawner)
  }

  /** `_docker_profiles` without the option dicts: one header per matching tag, in order. */
  function DockerHeaders(nvidiaArgs: map<string, Value>, tags: seq<string>): seq<ProfileHeader>
  {
    seq(|tags|, i requires 0 <= i < |tags| => DockerHeader(nvidiaArgs, tags[i]))
  }

  /** Docker profile keys are unique exactly when the tags are. */
  lemma DockerKeysUnique(nvidiaArgs: map<string, Value>, tags: seq<string>, i: nat, j: nat)
    requires i < |tags| && j < |tags|
    ensures Keys(DockerHeaders(nvidiaArgs, tags))[i] == Keys(DockerHeaders(nvidiaArgs, tags))[j]
      <==> tags[i] == tags[j]
  {
    DockerKeyInjective(tags[i], tags[j]);
  }

  /** Looking up `docker-<tag>` among the Docker profiles finds the first occurrence of the
      tag itself. */
  lemma DockerKeyFindsTag(nvidiaArgs: map<string, Value>, tags: seq<string>, tag: string)
    ensures FirstMatch(Keys(DockerHeaders(nvidiaArgs, tags)), DockerKey(tag)) == FirstMatch(tags, tag)
  {
    var keys := Keys(DockerHeaders(nvidiaArgs, tags));
    var key := DockerKey(tag);
    forall i | 0 <= i < |tags| ensures keys[i] == key <==> tags[i] == tag {
      DockerKeyInjective(tags[i], tag);
    }
    FirstMatchIsFirst(keys, key);
    FirstMatchIsFirst(tags, tag);
    if tag in tags {
      var r := FirstMatch(tags, tag).value;
      assert keys[r] == key;
      var q := FirstMatch(keys, key).value;
      assert tags[q] == tag;
    }
  }

  /** Every synthesized profile comes from a listed tag that matches the pattern, and every
      such tag yields one: `docker-<tag>` is a key exactly for the matching tags. */
  lemma DockerKeysFromMatchingTags(imageTags: seq<seq<string>>, nvidiaArgs: map<string, Value>, tag: string)
    ensures DockerKey(tag) in Keys(DockerHeaders(nvidiaArgs, JupyterhubTags(imageTags)))
      <==> tag in AllTags(imageTags) && TagMatches(tag)
  {
    var tags := JupyterhubTags(imageTags);
    var keys := Keys(DockerHeaders(nvidiaArgs, tags));
    if DockerKey(tag) in keys {
      var i :| 0 <= i < |keys| && keys[i] == DockerKey(tag);
      DockerKeyInjective(tags[i], tag);
      assert tags[i] == tag;
    }
    FilterTagsKeepsMatching(AllTags(imageTags));
    if tag in AllTags(imageTags) && TagMatches(tag) {
      assert tag in tags;
      var i :| 0 <= i < |tags| && tags[i] == tag;
      assert keys[i] == DockerKey(tag);
    }
  }
}
