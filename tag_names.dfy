/** The factory `imagestreamTagFromName`: splitting the name of an
    `ImageStreamTag` or `ImageStreamImage` reference into stream and tag. */
module TagNames {
  import opened Records
  import opened Strings

  const IMAGE_STREAM_IMAGE := "ImageStreamImage"
  const IMAGE_STREAM_TAG := "ImageStreamTag"

  /** The array the factory returns, with the two extra properties it may
      set on it. An element is `None` where the array holds `undefined`. */
  datatype NameRef = NameRef(parts: seq<Option<string>>, delimiter: Option<char>, qualified: Option<string>)

  /** How `Array.prototype.join` prints an element: `undefined` as "". */
  function Text(part: Option<string>): string {
    part.GetOr("")
  }

  /** The elements as `join` prints them. */
  function Texts(parts: seq<Option<string>>): seq<string> {
    seq(|parts|, i requires 0 <= i < |parts| => Text(parts[i]))
  }

  /** The delimiter the kind of `from` selects: "@" for an image reference,
      ":" for a tag reference, none otherwise. */
  function Delimiter(from: Option<ObjectRef>): (d: Option<char>)
    ensures d == Some('@') <==> from.Some? && from.value.kind == IMAGE_STREAM_IMAGE
    ensures d == Some(':') <==> from.Some? && from.value.kind == IMAGE_STREAM_TAG
    ensures d.Some? ==> d.value == '@' || d.value == ':'
  {
    if from.Some? && from.value.kind == IMAGE_STREAM_IMAGE then Some('@')
    else if from.Some? && from.value.kind == IMAGE_STREAM_TAG then Some(':')
    else None
  }

  /** `imagestreamTagFromName(imagestream, from)`. A name without the
      delimiter names a tag of `imagestream` itself, which must then be
      there; otherwise the part before the first delimiter is the stream and
      the rest is the tag, and `imagestream` is never read. */
  function TagFromName(imagestream: ImageStream?, from: Option<ObjectRef>): (r: NameRef)
    requires Delimiter(from).Some? && Delimiter(from).value !in from.value.name ==> imagestream != null
    ensures r.delimiter == Delimiter(from)
    ensures r.delimiter.None? ==> r.parts == [] && r.qualified.None?
    ensures r.delimiter.Some? ==> |r.parts| == 2 && r.parts[1].Some?
    ensures r.delimiter.Some? ==> r.qualified == Some(Join(Texts(r.parts), r.delimiter.value))
  {
    match Delimiter(from)
    case None => NameRef([], None, None)
    case Some(d) =>
      SplitIsSingle(from.value.name, d);
      var parts := Split(from.value.name, d);
      var result := if |parts| == 1 then [imagestream.spec.name, Some(parts[0])]
                    else [Some(parts[0]), Some(Join(parts[1..], d))];
      NameRef(result, Some(d), Some(Join(Texts(result), d)))
  }

  /** A name that contains the delimiter is cut at its first delimiter: the
      stream part holds no delimiter, the two parts put back together are the
      name, and `qualified` is the name itself. */
  lemma TagFromQualifiedName(imagestream: ImageStream?, from: Option<ObjectRef>)
    requires Delimiter(from).Some?
    requires Delimiter(from).value in from.value.name
    ensures var r, d := TagFromName(imagestream, from), Delimiter(from).value;
      && r.parts[0].Some?
      && d !in r.parts[0].value
      && r.parts[0].value + [d] + r.parts[1].value == from.value.name
      && r.qualified == Some(from.value.name)
  {
    var d, name := Delimiter(from).value, from.value.name;
    var parts := Split(name, d);
    SplitIsSingle(name, d);
    JoinSplit(name, d);
    assert [parts[0]] + parts[1..] == parts;
    var r := TagFromName(imagestream, from);
    assert Texts(r.parts) == [parts[0], Join(parts[1..], d)];
    JoinTwo(parts[0], Join(parts[1..], d), d);
  }

  /** A name without the delimiter is a tag of `imagestream`: the result is
      `[imagestream.spec.name, name]`, and `qualified` prints an undefined
      stream name as "". */
  lemma TagFromBareName(imagestream: ImageStream, from: Option<ObjectRef>)
    requires Delimiter(from).Some?
    requires Delimiter(from).value !in from.value.name
    ensures var r, d := TagFromName(imagestream, from), Delimiter(from).value;
      && r.parts == [imagestream.spec.name, Some(from.value.name)]
      && r.qualified == Some(Text(imagestream.spec.name) + [d] + from.value.name)
  {
    SplitNoSeparator(from.value.name, Delimiter(from).value);
    var r := TagFromName(imagestream, from);
    assert Texts(r.parts) == [Text(imagestream.spec.name), from.value.name];
    JoinTwo(Text(imagestream.spec.name), from.value.name, Delimiter(from).value);
  }

  /** Reading back a reference written as `stream + d + tag`: a
      delimiter-free stream name comes back as the first part and the whole
      of `tag` (delimiters included) as the second. */
  lemma TagFromJoinedName(imagestream: ImageStream?, kind: string, stream: string, tag: string)
    requires kind == IMAGE_STREAM_TAG || kind == IMAGE_STREAM_IMAGE
    requires Delimiter(Some(ObjectRef(kind, ""))).value !in stream
    ensures var d := Delimiter(Some(ObjectRef(kind, ""))).value;
      TagFromName(imagestream, Some(ObjectRef(kind, stream + [d] + tag))).parts == [Some(stream), Some(tag)]
  {
    var d := Delimiter(Some(ObjectRef(kind, ""))).value;
    SplitAtSeparator(stream, tag, d);
    JoinSplit(tag, d);
    assert (stream + [d] + tag)[|stream|] == d;
    SplitIsSingle(stream + [d] + tag, d);
  }
}
