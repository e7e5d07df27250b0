# CustomDockerProfilesSpawner, modelled in Dafny

This project models `CustomDockerProfilesSpawner` from wrapspawner's `customwrap.py`. It is a
JupyterHub spawner that wraps another spawner. The user picks a *profile* and a Docker image on
an HTML form. The profile names the spawner class to delegate to and the option dict to hand it.
The profiles on offer are:

- the configured `default_profiles`;
- one synthesized profile per local Docker image tag whose name ends in `jupyterhub`.

The images on offer come from the user's groups.

The model has these modules:

- `Values`: Python values, `dict.get`, and the two exceptions the model represents
  (`IndexError` and `TypeError`).
- `Profiles`: profile headers (display name, key, spawner class) and the first-match lookup that
  `select_profile` performs.
- `DockerProfiles`: the `^.*jupyterhub$` tag filter, and the label, key and spawner arguments of
  a synthesized Docker profile.
- `FormRender`: the option records and the default templates of the selection form.
- `FormData`: `options_from_form`, as written and as evidently intended.
- `SessionState`: the two selection strings saved by `get_state` and restored by
  `load_child_class`.
- `CustomWrap`: the spawner as a class whose methods update its selection fields, child class
  and child config in place.

Option dicts are objects (`OptionDict`), because the source shares them. `select_profile` stores
the selected profile's own dict as `child_config` and then writes `"image"` into it. A
configured profile's dict therefore keeps that image after the call. A Docker profile's dict is
new on every read of `profiles`. The contracts say which dict is aliased and which is fresh.

Two behaviours of the code are easy to miss, and the model keeps both:

- `select_profile` does not copy the profile's dict. It aliases and mutates it
  (`customwrap.py:185-189`; see `Applied`).
- Submitting the form does not fall back to defaults. `options_from_form` raises on every call
  (`customwrap.py:177`; see Findings).

The Docker daemon's image listing and the GPU sidecar's answer are inputs (`Environment`). The
base spawner's state dict is an input to `GetState`.

## Model

| member | source | states |
|---|---|---|
| Profiles.FirstMatchIsFirst | wrapspawner/wrapspawner/customwrap.py:182-193 | the lookup finds nothing exactly when no profile has the key; otherwise it finds an index holding the key, and no earlier index holds it |
| Profiles.FirstMatchAt | wrapspawner/wrapspawner/customwrap.py:182-193 | the index where a scan that stops at its first hit breaks is the first-match index |
| Profiles.FirstMatchShadows | wrapspawner/wrapspawner/customwrap.py:182-183 | earlier profiles shadow later ones: a key present in the front part is found there whatever follows; otherwise the search falls through to the back part, shifted by the front's length |
| DockerProfiles.TagMatchesPattern | wrapspawner/wrapspawner/customwrap.py:171 | the tag filter accepts a tag exactly when `^.*jupyterhub$` matches it under `re.match`: a line-feed-free prefix, then `jupyterhub`, then the end or one final line feed |
| DockerProfiles.PlainTagMatches | wrapspawner/wrapspawner/customwrap.py:171 | for a tag without line feeds, the filter is "ends with jupyterhub" |
| DockerProfiles.FilterTagsKeepsMatching | wrapspawner/wrapspawner/customwrap.py:248-258 | the filtered tags are exactly the listed tags that match, and there are no more of them than listed tags |
| DockerProfiles.FilterTagsAppend | wrapspawner/wrapspawner/customwrap.py:251-258 | filtering keeps listing order: the filter of a concatenation is the concatenation of the filters |
| DockerProfiles.JupyterhubTagsSelects | wrapspawner/wrapspawner/customwrap.py:248-258 | the offered tags are exactly the tags of some listed image that match the pattern |
| DockerProfiles.JupyterhubTagsAppend | wrapspawner/wrapspawner/customwrap.py:251-258 | the offered tags follow the daemon's listing: the tags of earlier images come first |
| DockerProfiles.DockerKeyInjective | wrapspawner/wrapspawner/customwrap.py:243 | two images get the same `docker-` key exactly when they are the same image, and the image can be read back from its key |
| DockerProfiles.DockerLabelMarksGpu | wrapspawner/wrapspawner/customwrap.py:240-242 | the label starts with `Docker: (w/GPU): ` exactly when the GPU arguments are non-empty, and with `Docker: (no GPU): ` exactly when they are empty; it ends with the image |
| DockerProfiles.DockerArgsPrecedence | wrapspawner/wrapspawner/customwrap.py:237-239 | the merged arguments have every key of the three sources; GPU arguments override configured DockerSpawner arguments, which override `container_image` and `network_name` |
| DockerProfiles.DockerKeysUnique | wrapspawner/wrapspawner/customwrap.py:264-268 | two Docker profiles have the same key exactly when they come from the same tag |
| DockerProfiles.DockerKeyFindsTag | wrapspawner/wrapspawner/customwrap.py:243 | looking up `docker-<tag>` among the Docker profiles finds the first occurrence of that tag |
| DockerProfiles.DockerKeysFromMatchingTags | wrapspawner/wrapspawner/customwrap.py:248-268 | `docker-<tag>` is a Docker profile key exactly when the tag is listed by the daemon and matches the pattern |
| FormRender.ImagesFor | wrapspawner/wrapspawner/customwrap.py:274-277 | a non-empty group name gives that group's images, or none for an unknown group; the empty name gives the default image list |
| FormRender.GroupImagesSnoc | wrapspawner/wrapspawner/customwrap.py:300-304 | adding a group to the end adds its images to the end: the order the form loop collects them in |
| FormRender.UnknownGroupsContributeNothing | wrapspawner/wrapspawner/customwrap.py:274-277 | groups that are neither the empty name nor in the table contribute no images |
| FormRender.ProfileOptions | wrapspawner/wrapspawner/customwrap.py:295-298 | one profile record per profile, in order, carrying its display name, key and class, with only the first one marked |
| FormRender.ImageOptions | wrapspawner/wrapspawner/customwrap.py:300-307 | one image record per image, in order, carrying its display name and reference, with only the first one marked |
| FormRender.ExactlyOneMarked | wrapspawner/wrapspawner/customwrap.py:298 | with a non-empty marker, a non-empty record list ends up with exactly one marked record, and an empty one with none |
| FormRender.RenderOptionsAppend | wrapspawner/wrapspawner/customwrap.py:309-312 | joining rendered records distributes over concatenation |
| FormRender.RenderOptionFields | wrapspawner/wrapspawner/customwrap.py:95-113 | an option element starts with `<option value="`, then the record's key, closed by a double quote, and ends with the display name and `</option>` |
| FormRender.RenderFormPlacesLists | wrapspawner/wrapspawner/customwrap.py:79-89 | the rendered form is the `profile` select opening, the profile options, the close of that select and the `dockerImage` select opening, the image options, and the closing text, in that order and with nothing else |
| FormData.OptionsFromFormAsWritten | wrapspawner/wrapspawner/customwrap.py:173-178 | as written, `options_from_form` raises for every submission and every profile list: IndexError exactly when there is no profile or the submitted `profile` list is empty, TypeError otherwise |
| FormData.AsWrittenRejectsCompleteForm | wrapspawner/wrapspawner/customwrap.py:177 | a submission carrying both fields still raises TypeError |
| FormData.OptionsFromForm | wrapspawner/wrapspawner/customwrap.py:173-178 | corrected decoding succeeds exactly when there is a profile and a default image and no submitted field is an empty list; it then has exactly the two keys, each the first submitted value or else the first profile key or first default image; every failure is an IndexError |
| FormData.EmptyFormSelectsDefaults | wrapspawner/wrapspawner/customwrap.py:174-177 | an empty submission selects the first profile key and the first default image |
| SessionState.PersistRestore | wrapspawner/wrapspawner/customwrap.py:201-214 | restoring a saved state gives back the saved selection |
| SessionState.Persist | wrapspawner/wrapspawner/customwrap.py:210-214 | the saved state has the keys of the base state plus `profile` and `dockerImage`, holding the two selection strings; every other entry of the base state is unchanged |
| SessionState.Restore | wrapspawner/wrapspawner/customwrap.py:201-207 | with both entries present, the selection holds their strings; a state missing either entry restores the empty selection, even when the other entry is present |
| CustomWrap.CustomDockerProfilesSpawner.constructor | wrapspawner/wrapspawner/customwrap.py:42-169 | the configuration is as given; the selection is empty; no child class is chosen; the child config is a new empty dict |
| CustomWrap.CustomDockerProfilesSpawner.Shipped | wrapspawner/wrapspawner/customwrap.py:116-169 | the shipped defaults: one `singleuser` profile whose option dict is the shared class-level one passed in, images for `group_a` and `group_b`, the `base` default image, no extra Docker arguments, the `selected` marker |
| CustomWrap.CustomDockerProfilesSpawner.ConfiguredProfilesComeFirst | wrapspawner/wrapspawner/customwrap.py:270-272 | a key of a configured profile is found among the configured profiles, whatever the Docker daemon lists |
| CustomWrap.CustomDockerProfilesSpawner.DockerKeySelectsTag | wrapspawner/wrapspawner/customwrap.py:264-272 | if no configured profile has the key `docker-<tag>`, that key selects the profile of the first listing of the tag, after the configured profiles |
| CustomWrap.CustomDockerProfilesSpawner.DockerProfile | wrapspawner/wrapspawner/customwrap.py:236-246 | the profile has the GPU-marked label, the `docker-` key and the system-user class, and a new dict holding the merged arguments |
| CustomWrap.CustomDockerProfilesSpawner.DockerProfiles | wrapspawner/wrapspawner/customwrap.py:264-268 | one profile per tag, in tag order, with the Docker headers, each with a new dict of that tag's arguments |
| CustomWrap.CustomDockerProfilesSpawner.Profiles | wrapspawner/wrapspawner/customwrap.py:270-272 | the configured profiles themselves (same dicts), then newly built Docker profiles for the matching tags in listing order; the headers are those of `ProfileHeaders` |
| CustomWrap.CustomDockerProfilesSpawner.Install | wrapspawner/wrapspawner/customwrap.py:184-189 | the child class is the profile's; the child config is the profile's own dict, with `image` set; no other configured dict changes |
| CustomWrap.CustomDockerProfilesSpawner.FindProfile | wrapspawner/wrapspawner/customwrap.py:182-183 | the scan reports the first-match index of the key and the profile at that index, or nothing |
| CustomWrap.CustomDockerProfilesSpawner.LookUp | wrapspawner/wrapspawner/customwrap.py:182-183 | the first-match index over all offered profiles; a configured profile is returned as is; a Docker profile is a new system-user profile for the tag at that position |
| CustomWrap.CustomDockerProfilesSpawner.SelectProfile | wrapspawner/wrapspawner/customwrap.py:180-193 | on a hit at the first matching profile: its class, its own dict as child config with `image` set (a configured dict is mutated in place; a Docker dict is new); on a miss nothing changes; other configured dicts never change |
| CustomWrap.CustomDockerProfilesSpawner.OptionsFromForm | wrapspawner/wrapspawner/customwrap.py:173-178 | decodes a submission against the keys of the offered profiles and the default images, as the corrected `FormData.OptionsFromForm` |
| CustomWrap.CustomDockerProfilesSpawner.ConstructChild | wrapspawner/wrapspawner/customwrap.py:195-198 | the selection is taken from the submitted options (empty strings when missing) and then applied as by `select_profile` |
| CustomWrap.CustomDockerProfilesSpawner.LoadChildClass | wrapspawner/wrapspawner/customwrap.py:201-208 | the selection is restored from the saved state (both strings, or both empty when either key is missing) and then applied as by `select_profile` |
| CustomWrap.CustomDockerProfilesSpawner.GetState | wrapspawner/wrapspawner/customwrap.py:210-214 | the base state with the two selection entries added, from which `LoadChildClass` restores the same selection |
| CustomWrap.CustomDockerProfilesSpawner.ClearState | wrapspawner/wrapspawner/customwrap.py:216-219 | both selection strings become empty |
| CustomWrap.CustomDockerProfilesSpawner.CollectImageRecords | wrapspawner/wrapspawner/customwrap.py:300-304 | the image records of all the user's groups, group by group, none marked |
| CustomWrap.CustomDockerProfilesSpawner.FormText | wrapspawner/wrapspawner/customwrap.py:279-315 | the form text is an IndexError exactly when there is no configured profile and no matching Docker tag, and a rendered form otherwise |
| CustomWrap.CustomDockerProfilesSpawner.OptionsForm | wrapspawner/wrapspawner/customwrap.py:279-315 | with no profiles, an IndexError; otherwise the default form with every profile and then every group image rendered in order, the first entry of each list marked |

## Left out

- Docker image discovery and its failure are not modelled. `docker.from_env().images.list()` is
  replaced by the tag lists in `Environment`. The exception raised when the `docker` package is
  missing is not modelled.
- The GPU sidecar probe (`_nvidia_args`) is left out. It needs HTTP and JSON parsing. Its answer
  is the map `Environment.nvidiaArgs`, and an unreachable sidecar is the empty map. The source
  calls the probe once per tag. The model uses one answer for all tags, so a sidecar whose answer
  changes between tags is not captured.
- The behaviour of the `WrapSpawner` base class is not part of this model. That covers the
  `super().construct_child()` call, the base state (a parameter of `GetState`) and the base
  `clear_state`.
- The `inspect(...)` debug calls are left out, and so are the commented-out asyncio code and
  `self.admin_access`, because they produce no result.
- The `profiles` trait at lines 46-63 and the `options_form` trait at line 76 are left out. The
  properties of the same names at lines 270-272 and 279-315 shadow them.
- Only the default `form_template`, `input_template` and `input_image_template` are modelled. The
  templates can be configured, and general `str.format` is not modelled. The `{type}` field is
  not used by the default templates.
- traitlets validation is left out: coercion of `Unicode` values, `minlen` and `TraitError`.
  `user_options` is a map from strings to strings.
- `group_images` is a class attribute in the source, shared by all instances. The model keeps it
  as a per-instance constant, since nothing mutates it.
- CustomWrap.CustomDockerProfilesSpawner.Shipped: does not state the entries of the shipped
  profile's dict. The dict is the class-level default, shared by all instances, and holds
  `{"image": "sbrambla"}` only until some instance's `select_profile` writes into it.
- LoadChildClass: requires the saved entries, when present, to be strings, as `get_state`
  writes them. Non-string values are not modelled.
- FormData.OptionsFromFormAsWritten: `self.profiles` reads the Docker daemon again. The model
  takes the profile keys as a parameter.

## Findings

| source | as written | input that shows it | evidently intended | confidence | as-written member | corrected member |
|---|---|---|---|---|---|---|
| wrapspawner/wrapspawner/customwrap.py:177 | the default `[self.images[0][1]]` subscripts the bound method `images`, and it is evaluated before `get`, so `options_from_form` raises TypeError on every call | `{"profile": ["local"], "dockerImage": ["jupyterhub/singleuser"]}` with profile keys `["local"]` | `self.images()[0][1]`, the first default image | not executed | FormData.AsWrittenRejectsCompleteForm | FormData.OptionsFromForm |
