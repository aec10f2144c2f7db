# Registry image widgets: the images core, in Dafny

This project models `images.js` of the Cockpit registry image widgets: the
Angular factories and scope functions that turn OpenShift `Image` and
`ImageStream` objects into what the widgets display. It models:

- `imageLayers` and `imageDockerConfig`, which resolve an image's layers and
  its Docker configuration through a chain of fallbacks. Each memoises its
  result per image object in a WeakMap.
- `imageSignatures`, which labels every signature of an image
  ("Verified", "Failed verification", "Unverified") in place.
- `signatureDetails` and `overallVerification`, which summarise the labels.
- `imagestreamTags`, which merges an image stream's spec tags and status tags
  by name.
- `imagestreamEachTagItem`, which visits every item of every status tag.
- `imagestreamTagFromName`, which splits an `ImageStreamTag` or
  `ImageStreamImage` reference into stream and tag.
- `configCommand`, which prints an image's command line behind a `$` or
  `#` prompt.
- The listing's row expansion state.
- The panels' tab selector.

Modules, one file each:

| file | module | source |
|---|---|---|
| `records.dfy` | `Records` | the API objects the core reads; `Image`, `ImageStream` and `Signature` are classes, because the caches key on object identity and `imageSignatures` writes `verified` into the signature objects |
| `strings.dfy` | `Strings` | JavaScript `split` and `join` on a one-character separator, and their round trips |
| `tag_names.dfy` | `TagNames` | `imagestreamTagFromName` |
| `layers.dfy` | `Layers` | `imageLayers`, `imageDockerConfig` and their caches |
| `signatures.dfy` | `Signatures` | `imageSignatures`, `signatureDetails`, `overallVerification` |
| `stream_tags.dfy` | `StreamTags` | `imagestreamEachTagItem`, `imagestreamTags` and its cache |
| `image_config.dfy` | `ImageConfig` | `configCommand` |
| `listing.dfy` | `Listing` | `identifier`, `imagestreamExpanded`, `imagestreamToggle` |
| `panels.dfy` | `Panels` | the `tab` function of the image and image-stream panels |

JavaScript truthiness is modelled by the presence of an `Option`. Arrays
and objects are truthy even when empty, and the empty string is falsy, so
an empty `User` is checked explicitly. Each WeakMap is a `map` field keyed
by the object's identity. Each cache class keeps a `Valid()` invariant:
every entry equals what the uncached computation gives for its key. Each
`Get` method proves that it returns the uncached value, and that a cache
hit changes nothing. Two calls on the same object therefore return the
same value.

## Model

| member | source | states |
|---|---|---|
| Strings.Split | images.js:153 | `s.split(d)` gives at least one part, and no part contains the separator |
| Strings.Join | images.js:158-160 | `parts.join(d)`: "" for no parts; the result starts with the first part, and holds `d` exactly when there are two parts or more, or some part holds `d` |
| Strings.JoinSplit | images.js:153-158 | joining the parts of `s.split(d)` with `d` gives back `s` |
| Strings.SplitJoin | images.js:224-225 | splitting `parts.join(d)` on `d` gives back the parts, provided there is at least one part and none contains `d` |
| Strings.SplitIsSingle | images.js:153-154 | `s.split(d)` has exactly one part iff `s` does not contain `d` |
| Strings.SplitAtSeparator | images.js:153-158 | splitting `p + d + t`, where `p` has no `d`, gives `p` followed by the parts of `t` |
| Strings.SplitHead | images.js:225 | the first part of `s.split(d)` is `h` iff `s` is `h`, or starts with `h` followed by `d` (for an `h` without `d`) |
| TagNames.Delimiter | images.js:148-151 | the delimiter is "@" iff `from.kind` is "ImageStreamImage", ":" iff it is "ImageStreamTag", and there is none otherwise (including an absent `from`) |
| TagNames.TagFromName | images.js:146-163 | the image stream is needed only for a name without the delimiter; without a delimiter the result is the empty array with no `qualified`; with one it has two elements, the second defined, and `qualified` is their join with the delimiter (`undefined` printed as "") |
| TagNames.TagFromQualifiedName | images.js:152-160 | a name containing the delimiter is cut at its first delimiter: the stream part has no delimiter, stream + delimiter + tag is the name, and `qualified` is the name itself |
| TagNames.TagFromBareName | images.js:154-155 | a name without the delimiter gives `[imagestream.spec.name, name]`, qualified as spec name + delimiter + name |
| TagNames.TagFromJoinedName | images.js:152-159 | a reference written as stream + delimiter + tag, with a delimiter-free stream, reads back as exactly `[stream, tag]`, even when the tag holds delimiters |
| Layers.LayersOf | images.js:101-108 | no layers for an absent image; the manifest `history` when the manifest has one; otherwise `dockerImageLayers`, or none |
| Layers.ConfigOf | images.js:73-85 | the value computed and cached: `undefined` for an absent image; the top layer's `v1Compatibility.config` when there is one; otherwise `dockerImageMetadata.Config`, `undefined` when that is missing |
| Layers.DockerConfig | images.js:87 | `config \|\| { }`: the computed config, or the empty record in place of `undefined` |
| Layers.ManifestHistoryWins | images.js:101-108 | a manifest with `history` decides the layers, whatever `dockerImageLayers` holds |
| Layers.TopLayerConfigWins | images.js:75-79 | when the top layer's `v1Compatibility` has a `config`, that is the configuration, whatever `dockerImageMetadata` holds |
| Layers.NoConfigIsEmpty | images.js:71-87 | without a layer config and a metadata `Config`, or without an image, the configuration is `{ }` |
| Layers.LayerCache.Get | images.js:97-112 | returns the manifest history, else `dockerImageLayers`, else `[]`; caches every present image; a cached image is answered from the cache, unchanged; the cache invariant is kept |
| Layers.ConfigCache.Get | images.js:70-88 | returns the top-layer config, else the metadata `Config`, else `{ }`; caches the computed value, `undefined` included, and on a computation the layer cache gains the image's layers; an image cached with a config is answered unchanged, and one cached as `undefined` is recomputed |
| Signatures.FindTrusted | images.js:362-364 | `find` of the first condition whose `type` is "Trusted" (the same search as images.js:252-254): its index, with no trusted condition before it, or none when no condition is trusted |
| Signatures.SignatureStatus | images.js:359-374 | "Verified" iff `conditions` is present and one of them is trusted; "Failed verification" iff it is present and none is trusted, the empty list included; "Unverified" iff it is absent |
| Signatures.SignatureDetails | images.js:249-260 | non-empty iff the signature is verified; then it is "reason / message" of the first trusted condition, with a missing field printed as "undefined" |
| Signatures.LabelAll | images.js:377-382 | sets `verified` of every signature, in place, to its status, and returns the same signatures in the same order |
| Signatures.SignatureCache.Get | images.js:353-386 | returns the image's own signatures, each labelled with its status; `[]` for an absent image or one without signatures, which are not cached; a cached image is answered unchanged |
| Signatures.OverallVerification | images.js:405-426 | as written: "Unsigned" for no signatures, otherwise the label of the last signature, since both branches of the loop assign it |
| Signatures.OverallVerificationFailedWins | images.js:405-426 | the fold the guard aims at: "Unsigned" for none, "Failed verification" when any signature failed, else the last label |
| Signatures.VerdictsDiffer | images.js:415-422 | the two verdicts differ exactly when some signature failed and the last one did not |
| Signatures.FailureOverwritten | images.js:415-422 | a failed signature followed by a verified one is reported "Verified" as written, and "Failed verification" by the corrected fold |
| StreamTags.EachTagItem | images.js:27-35 | the callback receives, in order, every item of every status tag, tag by tag; a stream without status, or a tag without items, contributes none |
| StreamTags.VisitsAreTagItems | images.js:27-35 | a (tag, item) pair is visited iff the tag is a status tag and the item is one of its items |
| StreamTags.VisitCount | images.js:27-35 | the number of visits is the total number of items |
| StreamTags.Last | images.js:126-133 | the entry a later write leaves in place: present iff some entry has the name, and then no later entry has it |
| StreamTags.WithSpecsAt | images.js:126-129 | after the spec loop, a name is present iff it was before or a spec tag has it, and its record holds the last such spec tag |
| StreamTags.WithStatusesAt | images.js:130-133 | after the status loop, a name is present iff it was before or a status tag has it, and its record holds the last such status tag |
| StreamTags.TagIndexAt | images.js:125-133 | the merged index has a record for a name iff a spec or status tag has it; the record carries that name, the stream, the last spec tag and the last status tag of that name |
| StreamTags.BuildTags | images.js:124-137 | lists each record of the merged index exactly once, and nothing else |
| StreamTags.TagsCache.Get | images.js:120-140 | `[]` for an absent stream; otherwise a listing of the merge, cached; a cached stream is answered with the very list cached for it |
| StreamTags.AsWrittenAgreesOffPrototype | images.js:125-133 | when no tag name is a property a plain object inherits, the merge as written (`build` a plain `{ }`) is exactly the merge of this model |
| StreamTags.TagIndexAsWritten | images.js:125-133 | the `build` object as written is the merge of this model, except that every name a plain object inherits (such as "constructor") holds the inherited function instead of the name's record |
| StreamTags.SpecsAgree | images.js:126-129 | the spec loop as written follows the spec loop of this model, name by name, inherited names holding the inherited function |
| StreamTags.StatusesAgree | images.js:130-133 | the status loop as written follows the status loop of this model, name by name, inherited names holding the inherited function |
| StreamTags.ConstructorTagMisnamed | images.js:125-136 | as written, a tag named "constructor" is listed as the shared `Object` function, shown as "Object"; this model lists a record named "constructor" that belongs to the stream |
| ImageConfig.Prompt | images.js:225-228 | the prompt is "$ " or "# " |
| ImageConfig.ConfigCommand | images.js:216-229 | "" iff there is no config; otherwise the prompt, followed by Entrypoint then Cmd joined by single spaces |
| ImageConfig.RootPrompt | images.js:225-228 | the root prompt "# " shows iff `User` is absent or empty, is "root", or starts with "root:" |
| ImageConfig.CommandWordsRoundTrip | images.js:220-224 | when there is at least one word and no word holds a space, splitting the line after the prompt on spaces gives back Entrypoint followed by Cmd (with no words the line after the prompt is "", which splits to one empty word) |
| Listing.Identifier | images.js:445-450 | the identifier is namespace, name and, for a tag row, the tag name, joined by "/" |
| Listing.IdentifierParts | images.js:445-450 | an identifier splits on "/" into namespace, name and, for a tag row, the tag name |
| Listing.IdentifierInjective | images.js:445-450 | two rows share an identifier only when they are the same stream row or the same tag row of the same stream |
| Listing.Toggled | images.js:459-463 | toggling adds the row's key iff it was absent, with value true, and leaves every other key as it was |
| Listing.ToggleTwice | images.js:459-463 | toggling a row twice restores the expansion map |
| Listing.ToggleLeavesOtherRows | images.js:445-463 | with plain names, toggling one row leaves the expansion of every other row as it was |
| Listing.RowExpansion.IsExpanded | images.js:453-455 | a row is expanded iff its identifier is a key of `expanded`, which under the invariant is iff its stored flag is true |
| Listing.RowExpansion.Toggle | images.js:458-465 | the row is expanded afterwards iff it was not before; no other row changes; the map holds only `true` |
| Panels.TabState.Tab | images.js:522-528 | with an event, selects `name`; without one, changes nothing; answers whether `name` is the selected tab (the image-stream panel repeats it at images.js:558-564) |

## Left out

- Parsing: `JSON.parse` of `dockerImageManifest` and of each history entry's
  `v1Compatibility` (images.js:53-57) is not modelled. An image carries the
  manifest already parsed, and parse errors are not modelled.
- The `imageDockerManifest` cache: it only memoises the parse, which is left
  out as above.
- WeakMap garbage collection: the caches are maps that never drop entries.
- `angular.copy` is a value copy. Tags are datatype values, so the copy is
  the value itself.
- The directive definitions, `$watch`, `templateUrl` and the scope wiring
  (images.js:167-215, 230-248, 261-346, 397-403, 470-521, 529-557,
  565-568) are Angular plumbing around the modelled functions and are not
  modelled.
- `imagestreamActivate` (images.js:429-440): it navigates with `$location`
  and emits an Angular event, so it depends on the router and the event bus.
- `ev.preventDefault()` and `ev.stopPropagation()`: browser event handling.
  An event is modelled only as present or absent.
- StreamTags.BuildTags: the listing order, which is the `for ... in` order,
  is left open.
- StreamTags.EachTagItem: the callback and its `this` are not modelled. The
  method returns the calls the callback would receive, in order.
- StreamTags.TagsCache.Get: requires a status on a cache miss. The source
  throws a TypeError when `status` is missing. It also throws when `spec`
  is missing, which the model rules out by giving every stream a `spec`.
- TagNames.TagFromName: `from.name` is always a string. The source throws
  when it is missing and the kind selects a delimiter. The function requires
  a present image stream only for a name without the delimiter
  (images.js:155), the one path where the source reads it.
- StreamTags.TagIndexAsWritten: the tag name "__proto__" is not modelled.
  On a plain object, `build["__proto__"]` is Object.prototype itself, so
  writing `.spec` into it changes every object of the page.
- Signatures.OverallVerification: `imageByTag` is a callback the embedding
  page supplies. The method takes the signatures `imageSignatures` returns
  for that image.
- Config fields other than Entrypoint, Cmd and User are not modelled. That
  includes `Labels`, which only the directives read.
- An Entrypoint or Cmd given as a string rather than an array is not
  modelled. `result.push.apply(result, config.Entrypoint)` (images.js:221,
  223) then throws a TypeError, because `Function.prototype.apply` needs an
  object as its argument list. The model's `Option<seq<string>>` cannot
  express a string there.

## Findings

| source | as written | input that shows it | evidently intended | confidence | as-written member | corrected member |
|---|---|---|---|---|---|---|
| images.js:415-422 | both branches of the loop assign the current label, so the verdict is the last signature's label | labels ["Failed verification", "Verified"] give "Verified" | once a signature failed verification, the verdict stays "Failed verification" (the first branch tests `overall === "Failed verification"` for this) | medium, not executed | Signatures.OverallVerification, Signatures.FailureOverwritten | Signatures.OverallVerificationFailedWins |
| images.js:125-136 | `build` is a plain `{ }`, so `build[tag.name] \|\| {...}` finds the functions it inherits from Object.prototype | a stream whose only tag is named "constructor" lists the global `Object` function, named "Object", with no `imagestream` | one record per tag name, whatever the name (`Object.create(null)` or a `Map`) | high, not executed | StreamTags.ConstructorTagMisnamed, StreamTags.TagIndexAsWritten | StreamTags.TagIndexAt, StreamTags.BuildTags |
