/** Image-stream tags: the `imagestreamEachTagItem` enumeration and the
    `imagestreamTags` factory that merges spec and status tags by name. */
module StreamTags {
  import opened Records

  /** One call of the `imagestreamEachTagItem` callback. */
  datatype Visit = Visit(tag: StatusTag, item: TagItem)

  /** `(imagestream.status || {}).tags || []`. */
  function StatusTagsOf(imagestream: ImageStream): seq<StatusTag> {
    match imagestream.status
    case None => []
    case Some(status) => status.tags
  }

  /** `tag.items || []`. */
  function ItemsOf(tag: StatusTag): seq<TagItem> {
    tag.items.GetOr([])
  }

  /** The visits of one tag: its items in order. */
  function VisitsOf(tag: StatusTag): seq<Visit> {
    seq(|ItemsOf(tag)|, i requires 0 <= i < |ItemsOf(tag)| => Visit(tag, ItemsOf(tag)[i]))
  }

  /** The visits of `tags`: each tag's items in order, tag by tag. */
  function Visits(tags: seq<StatusTag>): seq<Visit>
    decreases |tags|
  {
    if |tags| == 0 then [] else Visits(tags[..|tags| - 1]) + VisitsOf(tags[|tags| - 1])
  }

  /** `imagestreamEachTagItem(imagestream, callback)`, returning the calls
      the callback receives in the order it receives them. */
  method EachTagItem(imagestream: ImageStream) returns (visits: seq<Visit>)
    ensures visits == Visits(StatusTagsOf(imagestream))
  {
    var tags := StatusTagsOf(imagestream);
    visits := [];
    var t := 0;
    while t < |tags|
      invariant 0 <= t <= |tags|
      invariant visits == Visits(tags[..t])
    {
      var items := ItemsOf(tags[t]);
      var i := 0;
      while i < |items|
        invariant 0 <= i <= |items|
        invariant visits == Visits(tags[..t]) + VisitsOf(tags[t])[..i]
      {
        visits := visits + [Visit(tags[t], items[i])];
        i := i + 1;
      }
      assert tags[..t + 1][..t] == tags[..t];
      t := t + 1;
    }
    assert tags[..t] == tags;
  }

  /** Every (tag, item) pair of the stream is visited, and nothing else. */
  lemma {:induction false} VisitsAreTagItems(tags: seq<StatusTag>, v: Visit)
    ensures v in Visits(tags) <==>
      exists t | 0 <= t < |tags| :: v.tag == tags[t] && v.item in ItemsOf(tags[t])
    decreases |tags|
  {
    if |tags| > 0 {
      var last := tags[|tags| - 1];
      var prefix := tags[..|tags| - 1];
      VisitsAreTagItems(prefix, v);
      assert v in VisitsOf(last) <==> v.tag == last && v.item in ItemsOf(last) by {
        if v.tag == last && v.item in ItemsOf(last) {
          var i :| 0 <= i < |ItemsOf(last)| && ItemsOf(last)[i] == v.item;
          assert VisitsOf(last)[i] == v;
        }
      }
      assert forall t | 0 <= t < |prefix| :: prefix[t] == tags[t];
    }
  }

  /** The number of callback calls is the total number of items. */
  lemma {:induction false} VisitCount(tags: seq<StatusTag>)
    ensures |Visits(tags)| == ItemCount(tags)
    decreases |tags|
  {
    if |tags| > 0 {
      VisitCount(tags[..|tags| - 1]);
    }
  }

  function ItemCount(tags: seq<StatusTag>): nat
    decreases |tags|
  {
    if |tags| == 0 then 0 else ItemCount(tags[..|tags| - 1]) + |ItemsOf(tags[|tags| - 1])|
  }

  /** One merged tag of `imagestreamTags`. */
  datatype TagRecord = TagRecord(name: string, imagestream: ImageStream, spec: Option<SpecTag>, status: Option<StatusTag>)

  function SpecKey(tag: SpecTag): string { tag.name }
  function StatusKey(tag: StatusTag): string { tag.tag }

  /** The last entry of `entries` whose key is `name`: the one whose copy
      the merge keeps, since a later entry overwrites an earlier one. */
  function Last<T>(entries: seq<T>, key: T -> string, name: string): (last: Option<T>)
    ensures last.Some? <==> exists i | 0 <= i < |entries| :: key(entries[i]) == name
    ensures last.Some? ==> exists i | 0 <= i < |entries| ::
      && entries[i] == last.value
      && key(entries[i]) == name
      && forall j | i < j < |entries| :: key(entries[j]) != name
    decreases |entries|
  {
    if |entries| == 0 then None
    else if key(entries[|entries| - 1]) == name then Some(entries[|entries| - 1])
    else
      var prefix := entries[..|entries| - 1];
      assert forall i | 0 <= i < |prefix| :: prefix[i] == entries[i];
      Last(prefix, key, name)
  }

  /** The record `build[name] || { name, imagestream }` starts from. */
  function Base(build: map<string, TagRecord>, imagestream: ImageStream, name: string): TagRecord {
    if name in build then build[name] else TagRecord(name, imagestream, None, None)
  }

  /** One step of the spec loop: attach `tag` under `.spec`. */
  function WithSpec(build: map<string, TagRecord>, imagestream: ImageStream, tag: SpecTag): map<string, TagRecord> {
    build[tag.name := Base(build, imagestream, tag.name).(spec := Some(tag))]
  }

  /** One step of the status loop: attach `tag` under `.status`. */
  function WithStatus(build: map<string, TagRecord>, imagestream: ImageStream, tag: StatusTag): map<string, TagRecord> {
    build[tag.tag := Base(build, imagestream, tag.tag).(status := Some(tag))]
  }

  function WithSpecs(build: map<string, TagRecord>, imagestream: ImageStream, tags: seq<SpecTag>): map<string, TagRecord>
    decreases |tags|
  {
    if |tags| == 0 then build
    else WithSpec(WithSpecs(build, imagestream, tags[..|tags| - 1]), imagestream, tags[|tags| - 1])
  }

  function WithStatuses(build: map<string, TagRecord>, imagestream: ImageStream, tags: seq<StatusTag>): map<string, TagRecord>
    decreases |tags|
  {
    if |tags| == 0 then build
    else WithStatus(WithStatuses(build, imagestream, tags[..|tags| - 1]), imagestream, tags[|tags| - 1])
  }

  /** The dictionary `build` once both loops have run. */
  function TagIndex(imagestream: ImageStream): map<string, TagRecord>
    requires imagestream.status.Some?
  {
    WithStatuses(WithSpecs(map[], imagestream, imagestream.spec.tags), imagestream, imagestream.status.value.tags)
  }

  lemma {:induction false} WithSpecsAt(build: map<string, TagRecord>, imagestream: ImageStream, tags: seq<SpecTag>, name: string)
    ensures var after, last := WithSpecs(build, imagestream, tags), Last(tags, SpecKey, name);
      && (name in after <==> name in build || last.Some?)
      && (name in after ==> after[name] == if last.Some? then Base(build, imagestream, name).(spec := last) else build[name])
    decreases |tags|
  {
    if |tags| > 0 {
      WithSpecsAt(build, imagestream, tags[..|tags| - 1], name);
    }
  }

  lemma {:induction false} WithStatusesAt(build: map<string, TagRecord>, imagestream: ImageStream, tags: seq<StatusTag>, name: string)
    ensures var after, last := WithStatuses(build, imagestream, tags), Last(tags, StatusKey, name);
      && (name in after <==> name in build || last.Some?)
      && (name in after ==> after[name] == if last.Some? then Base(build, imagestream, name).(status := last) else build[name])
    decreases |tags|
  {
    if |tags| > 0 {
      WithStatusesAt(build, imagestream, tags[..|tags| - 1], name);
    }
  }

  /** The merge, name by name: a name has a record iff it is the `name` of
      a spec tag or the `tag` of a status tag; the record carries that name,
      the stream, and a copy of the last spec entry and of the last status
      entry of that name (each absent when the name does not occur there). */
  lemma TagIndexAt(imagestream: ImageStream, name: string)
    requires imagestream.status.Some?
    ensures var index := TagIndex(imagestream);
      var spec, status := Last(imagestream.spec.tags, SpecKey, name), Last(imagestream.status.value.tags, StatusKey, name);
      && (name in index <==> spec.Some? || status.Some?)
      && (name in index ==> index[name] == TagRecord(name, imagestream, spec, status))
  {
    var specs := WithSpecs(map[], imagestream, imagestream.spec.tags);
    WithSpecsAt(map[], imagestream, imagestream.spec.tags, name);
    WithStatusesAt(specs, imagestream, imagestream.status.value.tags, name);
  }

  /** `tags` lists the merge: one record per name of the index, each the
      index's record for its name. The order (that of `for ... in`) is left
      open. */
  ghost predicate IsTagListing(imagestream: ImageStream, tags: seq<TagRecord>)
    requires imagestream.status.Some?
  {
    var index := TagIndex(imagestream);
    && (forall k | 0 <= k < |tags| :: tags[k].name in index && index[tags[k].name] == tags[k])
    && (forall k, l | 0 <= k < l < |tags| :: tags[k].name != tags[l].name)
    && (forall name | name in index :: exists k | 0 <= k < |tags| :: tags[k].name == name)
  }

  /** The uncached body of `imagestreamTags(imagestream)`: fill `build` from
      the spec tags, then from the status tags, then list its values. */
  method BuildTags(imagestream: ImageStream) returns (tags: seq<TagRecord>)
    requires imagestream.status.Some?
    ensures IsTagListing(imagestream, tags)
  {
    var build: map<string, TagRecord> := map[];
    var specTags := imagestream.spec.tags;
    var i := 0;
    while i < |specTags|
      invariant 0 <= i <= |specTags|
      invariant build == WithSpecs(map[], imagestream, specTags[..i])
    {
      var tag := specTags[i];
      var record := if tag.name in build then build[tag.name] else TagRecord(tag.name, imagestream, None, None);
      build := build[tag.name := record.(spec := Some(tag))];
      assert specTags[..i + 1][..i] == specTags[..i];
      i := i + 1;
    }
    assert specTags[..i] == specTags;
    var statusTags := imagestream.status.value.tags;
    var specs := build;
    var j := 0;
    while j < |statusTags|
      invariant 0 <= j <= |statusTags|
      invariant build == WithStatuses(specs, imagestream, statusTags[..j])
    {
      var tag := statusTags[j];
      var record := if tag.tag in build then build[tag.tag] else TagRecord(tag.tag, imagestream, None, None);
      build := build[tag.tag := record.(status := Some(tag))];
      assert statusTags[..j + 1][..j] == statusTags[..j];
      j := j + 1;
    }
    assert statusTags[..j] == statusTags;
    assert build == TagIndex(imagestream);
    forall name | name in build
      ensures build[name].name == name
    {
      TagIndexAt(imagestream, name);
    }
    tags := [];
    var names := build.Keys;
    ghost var listed: seq<string> := [];
    while names != {}
      invariant names <= build.Keys
      invariant |listed| == |tags|
      invariant forall k | 0 <= k < |tags| :: listed[k] in build && listed[k] !in names && tags[k] == build[listed[k]]
      invariant forall k, l | 0 <= k < l < |tags| :: listed[k] != listed[l]
      invariant forall name | name in build && name !in names :: name in listed
      decreases |names|
    {
      var name :| name in names;
      tags := tags + [build[name]];
      listed := listed + [name];
      names := names - {name};
    }
  }

  /** What `build[name]` holds in the merge as written, where `build` is a
      plain object `{ }`: a record of the merge, or a function the object
      inherits from Object.prototype, which `build[name] || {...}` keeps
      because a function is truthy. */
  datatype Slot = Own(record: TagRecord) | Builtin(functionName: string)

  /** The functions a plain object inherits under a property name, by the
      `name` each function reports. */
  function Inherited(key: string): Option<string> {
    if key == "constructor" then Some("Object")
    else if key in ["hasOwnProperty", "isPrototypeOf", "propertyIsEnumerable", "toLocaleString",
                    "toString", "valueOf", "__defineGetter__", "__defineSetter__",
                    "__lookupGetter__", "__lookupSetter__"] then Some(key)
    else None
  }

  /** `build[name] = build[name] || { name, imagestream }` as written. */
  function SlotFor(build: map<string, Slot>, imagestream: ImageStream, name: string): Slot {
    if name in build then build[name]
    else match Inherited(name)
      case Some(f) => Builtin(f)
      case None => Own(TagRecord(name, imagestream, None, None))
  }

  /** One step of the spec loop as written. On an inherited function the
      copy lands on that shared function, outside the merge's records. */
  function WithSpecAsWritten(build: map<string, Slot>, imagestream: ImageStream, tag: SpecTag): map<string, Slot> {
    match SlotFor(build, imagestream, tag.name)
    case Own(r) => build[tag.name := Own(r.(spec := Some(tag)))]
    case Builtin(f) => build[tag.name := Builtin(f)]
  }

  /** One step of the status loop as written. */
  function WithStatusAsWritten(build: map<string, Slot>, imagestream: ImageStream, tag: StatusTag): map<string, Slot> {
    match SlotFor(build, imagestream, tag.tag)
    case Own(r) => build[tag.tag := Own(r.(status := Some(tag)))]
    case Builtin(f) => build[tag.tag := Builtin(f)]
  }

  function WithSpecsAsWritten(build: map<string, Slot>, imagestream: ImageStream, tags: seq<SpecTag>): map<string, Slot>
    decreases |tags|
  {
    if |tags| == 0 then build
    else WithSpecAsWritten(WithSpecsAsWritten(build, imagestream, tags[..|tags| - 1]), imagestream, tags[|tags| - 1])
  }

  function WithStatusesAsWritten(build: map<string, Slot>, imagestream: ImageStream, tags: seq<StatusTag>): map<string, Slot>
    decreases |tags|
  {
    if |tags| == 0 then build
    else WithStatusAsWritten(WithStatusesAsWritten(build, imagestream, tags[..|tags| - 1]), imagestream, tags[|tags| - 1])
  }

  /** The `build` object once both loops of `imagestreamTags` have run, as
      written: the merge of this model, except that every name a plain object
      inherits holds that inherited function instead of the name's record. */
  function TagIndexAsWritten(imagestream: ImageStream): (index: map<string, Slot>)
    requires imagestream.status.Some?
    ensures index == AsWritten(TagIndex(imagestream))
  {
    assert AsWritten(map[]) == map[];
    SpecsAgree(map[], imagestream, imagestream.spec.tags);
    StatusesAgree(WithSpecs(map[], imagestream, imagestream.spec.tags), imagestream, imagestream.status.value.tags);
    WithStatusesAsWritten(WithSpecsAsWritten(map[], imagestream, imagestream.spec.tags),
                          imagestream, imagestream.status.value.tags)
  }

  /** The name the listing shows for an entry of `build`. */
  function ShownName(slot: Slot): string {
    match slot
    case Own(r) => r.name
    case Builtin(f) => f
  }

  /** What the `build` object as written holds where this model's merge
      holds `build`: the inherited function under an inherited name, the
      record under any other. */
  function AsWritten(build: map<string, TagRecord>): map<string, Slot> {
    map name | name in build :: match Inherited(name) case Some(f) => Builtin(f) case None => Own(build[name])
  }

  /** A merge of this model, every entry its own record. */
  function AsSlots(build: map<string, TagRecord>): map<string, Slot> {
    map name | name in build :: Own(build[name])
  }

  /** Away from the inherited names the merge as written is the merge of
      this model, record for record. */
  lemma AsWrittenAgreesOffPrototype(imagestream: ImageStream)
    requires imagestream.status.Some?
    requires forall i | 0 <= i < |imagestream.spec.tags| :: Inherited(imagestream.spec.tags[i].name).None?
    requires forall i | 0 <= i < |imagestream.status.value.tags| :: Inherited(imagestream.status.value.tags[i].tag).None?
    ensures TagIndexAsWritten(imagestream) == AsSlots(TagIndex(imagestream))
  {
    forall name | name in TagIndex(imagestream)
      ensures Inherited(name).None?
    {
      TagIndexAt(imagestream, name);
    }
  }

  /** The spec loop as written follows the spec loop of this model. */
  lemma {:induction false} SpecsAgree(build: map<string, TagRecord>, imagestream: ImageStream, tags: seq<SpecTag>)
    ensures WithSpecsAsWritten(AsWritten(build), imagestream, tags) == AsWritten(WithSpecs(build, imagestream, tags))
    decreases |tags|
  {
    if |tags| > 0 {
      var prefix, tag := tags[..|tags| - 1], tags[|tags| - 1];
      SpecsAgree(build, imagestream, prefix);
      var before := WithSpecs(build, imagestream, prefix);
      assert WithSpecAsWritten(AsWritten(before), imagestream, tag) == AsWritten(WithSpec(before, imagestream, tag));
    }
  }

  /** The status loop as written follows the status loop of this model. */
  lemma {:induction false} StatusesAgree(build: map<string, TagRecord>, imagestream: ImageStream, tags: seq<StatusTag>)
    ensures WithStatusesAsWritten(AsWritten(build), imagestream, tags) == AsWritten(WithStatuses(build, imagestream, tags))
    decreases |tags|
  {
    if |tags| > 0 {
      var prefix, tag := tags[..|tags| - 1], tags[|tags| - 1];
      StatusesAgree(build, imagestream, prefix);
      var before := WithStatuses(build, imagestream, prefix);
      assert WithStatusAsWritten(AsWritten(before), imagestream, tag) == AsWritten(WithStatus(before, imagestream, tag));
    }
  }

  /** The input that shows it: a stream whose only tag is named
      "constructor" is listed, as written, with an entry named "Object" (the
      shared `Object` function), where this model lists a record named
      "constructor" that belongs to the stream. */
  lemma ConstructorTagMisnamed(imagestream: ImageStream)
    requires imagestream.spec.tags == [SpecTag("constructor")]
    requires imagestream.status == Some(StreamStatus([]))
    ensures TagIndexAsWritten(imagestream) == map["constructor" := Builtin("Object")]
    ensures ShownName(TagIndexAsWritten(imagestream)["constructor"]) == "Object"
    ensures TagIndex(imagestream)["constructor"] == TagRecord("constructor", imagestream, Some(SpecTag("constructor")), None)
  {
    var tags := imagestream.spec.tags;
    assert tags[..0] == [];
    assert WithSpecsAsWritten(map[], imagestream, tags) == map["constructor" := Builtin("Object")];
    assert WithSpecs(map[], imagestream, tags) == map["constructor" := TagRecord("constructor", imagestream, Some(tags[0]), None)];
  }

  /** The `imagestreamTags` factory and its identity-keyed cache. */
  class TagsCache {
    var weak: map<ImageStream, seq<TagRecord>>

    /** Every cached entry lists the merge of its stream. */
    ghost predicate Valid()
      reads this
    {
      forall imagestream | imagestream in weak ::
        imagestream.status.Some? && IsTagListing(imagestream, weak[imagestream])
    }

    constructor ()
      ensures Valid() && weak == map[]
    {
      weak := map[];
    }

    /** `imagestreamTags(imagestream)`: [] for an absent stream; a cached
        stream is answered with the very list cached for it (same records,
        same order); any other stream is merged and cached. Merging reads
        `imagestream.status.tags`, so it needs a status. */
    method Get(imagestream: ImageStream?) returns (tags: seq<TagRecord>)
      requires Valid()
      requires imagestream != null && imagestream !in weak ==> imagestream.status.Some?
      modifies this
      ensures Valid()
      ensures imagestream == null ==> tags == [] && weak == old(weak)
      ensures imagestream != null ==> imagestream.status.Some? && IsTagListing(imagestream, tags)
      ensures imagestream != null ==> weak == old(weak)[imagestream := tags]
      ensures imagestream != null && imagestream in old(weak) ==> tags == old(weak)[imagestream] && weak == old(weak)
    {
      if imagestream == null {
        return [];
      }
      if imagestream in weak {
        return weak[imagestream];
      }
      tags := BuildTags(imagestream);
      weak := weak[imagestream := tags];
    }
  }
}
