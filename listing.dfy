/** The row state of the image-stream listing (`registryImageListingFunc`):
    which rows are expanded, keyed by a composite row identifier. */
module Listing {
  import opened Records
  import opened Strings
  import opened StreamTags

  /** `identifier(imagestream, tag)`: "namespace/name", with "/tagname"
      appended for a tag row. */
  function Identifier(imagestream: ImageStream, tag: Option<TagRecord>): (id: string)
    ensures id == Join(RowParts(imagestream, tag), '/')
  {
    var ns, name := imagestream.metadata.namespace, imagestream.metadata.name;
    var id := ns + "/" + name;
    JoinTwo(ns, name, '/');
    if tag.Some? then
      JoinTwo(name, tag.value.name, '/');
      assert RowParts(imagestream, tag)[1..] == [name, tag.value.name];
      id + "/" + tag.value.name
    else id
  }

  /** The parts an identifier is made of. */
  function RowParts(imagestream: ImageStream, tag: Option<TagRecord>): seq<string> {
    [imagestream.metadata.namespace, imagestream.metadata.name] + if tag.Some? then [tag.value.name] else []
  }

  /** Object names, namespaces and tag names never contain "/". */
  predicate PlainNames(imagestream: ImageStream, tag: Option<TagRecord>) {
    && '/' !in imagestream.metadata.namespace
    && '/' !in imagestream.metadata.name
    && (tag.Some? ==> '/' !in tag.value.name)
  }

  /** An identifier splits on "/" back into its parts. */
  lemma IdentifierParts(imagestream: ImageStream, tag: Option<TagRecord>)
    requires PlainNames(imagestream, tag)
    ensures Split(Identifier(imagestream, tag), '/') == RowParts(imagestream, tag)
  {
    SplitJoin(RowParts(imagestream, tag), '/');
  }

  /** Distinct rows have distinct identifiers: rows with plain names share
      an identifier only when they are the same stream row or the same tag
      row. */
  lemma IdentifierInjective(a: ImageStream, s: Option<TagRecord>, b: ImageStream, t: Option<TagRecord>)
    requires PlainNames(a, s) && PlainNames(b, t)
    requires Identifier(a, s) == Identifier(b, t)
    ensures a.metadata == b.metadata
    ensures s.Some? <==> t.Some?
    ensures s.Some? ==> s.value.name == t.value.name
  {
    IdentifierParts(a, s);
    IdentifierParts(b, t);
    var p, q := RowParts(a, s), RowParts(b, t);
    assert p == q;
    assert p[0] == q[0] && p[1] == q[1];
    assert a.metadata == ObjectMeta(p[0], p[1]) && b.metadata == ObjectMeta(q[0], q[1]);
    if s.Some? {
      assert p[2] == q[2];
    }
  }

  /** Toggling a row: remove its key when present, add it otherwise. */
  function Toggled(expanded: map<string, bool>, id: string): (after: map<string, bool>)
    ensures id in after <==> id !in expanded
    ensures forall other | other != id :: other in after <==> other in expanded
    ensures forall key | key in after :: after[key] == (key == id || expanded[key])
  {
    if id in expanded then expanded - {id} else expanded[id := true]
  }

  /** Toggling the same row twice restores the map, given that every
      present key maps to true as the listing keeps it. */
  lemma ToggleTwice(expanded: map<string, bool>, id: string)
    requires forall key | key in expanded :: expanded[key]
    ensures Toggled(Toggled(expanded, id), id) == expanded
  {
    var twice := Toggled(Toggled(expanded, id), id);
    assert twice.Keys == expanded.Keys;
    assert forall key | key in twice :: twice[key] == expanded[key];
  }

  /** Toggling a row leaves the expansion of every other row as it was,
      when names are plain: distinct rows never share a key. */
  lemma ToggleLeavesOtherRows(expanded: map<string, bool>, a: ImageStream, s: Option<TagRecord>, b: ImageStream, t: Option<TagRecord>)
    requires PlainNames(a, s) && PlainNames(b, t)
    requires a.metadata != b.metadata || s.Some? != t.Some? || (s.Some? && t.Some? && s.value.name != t.value.name)
    ensures Identifier(a, s) in Toggled(expanded, Identifier(b, t)) <==> Identifier(a, s) in expanded
  {
    if Identifier(a, s) == Identifier(b, t) {
      IdentifierInjective(a, s, b, t);
    }
  }

  /** The `expanded` map of one listing. */
  class RowExpansion {
    var expanded: map<string, bool>

    /** The listing only ever stores `true`. */
    ghost predicate Valid()
      reads this
    {
      forall id | id in expanded :: expanded[id]
    }

    constructor ()
      ensures Valid() && expanded == map[]
    {
      expanded := map[];
    }

    /** `imagestreamExpanded(imagestream, tag)`: the `in` test on the row's
        key, which under the invariant reads the same as the stored flag. */
    predicate IsExpanded(imagestream: ImageStream, tag: Option<TagRecord>)
      reads this
      ensures Valid() ==> (IsExpanded(imagestream, tag) <==>
        Identifier(imagestream, tag) in expanded && expanded[Identifier(imagestream, tag)])
    {
      Identifier(imagestream, tag) in expanded
    }

    /** `imagestreamToggle(imagestream, tag, ev)`: flips the row between
        expanded and collapsed and no other row. */
    method Toggle(imagestream: ImageStream, tag: Option<TagRecord>)
      requires Valid()
      modifies this
      ensures Valid()
      ensures expanded == Toggled(old(expanded), Identifier(imagestream, tag))
      ensures IsExpanded(imagestream, tag) <==> !old(IsExpanded(imagestream, tag))
      ensures forall id | id != Identifier(imagestream, tag) :: id in expanded <==> id in old(expanded)
    {
      var id := Identifier(imagestream, tag);
      if id in expanded {
        expanded := expanded - {id};
      } else {
        expanded := expanded[id := true];
      }
    }
  }
}
