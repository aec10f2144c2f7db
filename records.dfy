/** The registry's image and image-stream records, as the UI module receives
    them: already fetched and already parsed from JSON.

    JavaScript truthiness is modelled by presence: an array or an object is
    truthy even when empty, so "absent or undefined" is `None` and every
    present value, empty or not, is `Some`. A `null` field is not modelled. */
module Records {

  datatype Option<+T> = None | Some(value: T) {
    /** The value, or `default` when absent (the `x || default` idiom). */
    function GetOr(default: T): T {
      match this
      case Some(v) => v
      case None => default
    }
  }

  /** A Docker container configuration (the `Config` object of Docker's
      image JSON); only the fields the command line reads are kept. */
  datatype Config = Config(
    entrypoint: Option<seq<string>>,
    cmd: Option<seq<string>>,
    user: Option<string>)

  /** The empty record `{ }`. */
  const EmptyConfig := Config(None, None, None)

  /** A parsed `v1Compatibility` blob of a manifest history entry. */
  datatype Compat = Compat(config: Option<Config>)

  /** One layer: an entry of the manifest `history` or of
      `dockerImageLayers`. Only `v1Compatibility` is read here; the name and
      size the templates show are not kept. */
  datatype Layer = Layer(v1Compatibility: Option<Compat>)

  /** The parsed `dockerImageManifest`; `{ }` is `Manifest(None)`. */
  datatype Manifest = Manifest(history: Option<seq<Layer>>)

  /** `dockerImageMetadata`, of which only `Config` is read. */
  datatype Metadata = Metadata(config: Option<Config>)

  /** A signature condition; `kind` is the JSON field `type`. */
  datatype Condition = Condition(kind: string, reason: Option<string>, message: Option<string>)

  /** An image signature. The factory `imageSignatures` writes `verified` on
      the very objects held by the image, so a signature is a reference. */
  class Signature {
    const conditions: Option<seq<Condition>>
    var verified: Option<string>

    constructor (conditions: Option<seq<Condition>>)
      ensures this.conditions == conditions && verified == None
    {
      this.conditions := conditions;
      verified := None;
    }
  }

  /** An image. The caches are keyed by the identity of this object, so two
      images with equal contents are still two keys. */
  class Image {
    const dockerImageManifest: Option<Manifest>
    const dockerImageLayers: Option<seq<Layer>>
    const dockerImageMetadata: Option<Metadata>
    const signatures: Option<seq<Signature>>

    constructor (manifest: Option<Manifest>, layers: Option<seq<Layer>>,
                 metadata: Option<Metadata>, signatures: Option<seq<Signature>>)
      ensures dockerImageManifest == manifest && dockerImageLayers == layers
      ensures dockerImageMetadata == metadata && this.signatures == signatures
    {
      dockerImageManifest := manifest;
      dockerImageLayers := layers;
      dockerImageMetadata := metadata;
      this.signatures := signatures;
    }
  }

  datatype ObjectMeta = ObjectMeta(namespace: string, name: string)

  /** A `from` reference of a spec tag: `kind` and `name`. */
  datatype ObjectRef = ObjectRef(kind: string, name: string)

  /** One entry of a status tag's history. */
  datatype TagItem = TagItem(image: string, dockerImageReference: string)

  /** An entry of `spec.tags`, keyed by `name`. Its `from` reference, which
      only the templates read, is not kept. */
  datatype SpecTag = SpecTag(name: string)

  /** An entry of `status.tags`, keyed by `tag`. */
  datatype StatusTag = StatusTag(tag: string, items: Option<seq<TagItem>>)

  /** `spec`. An absent `tags` list is the empty list: `angular.forEach`
      skips an undefined collection. */
  datatype StreamSpec = StreamSpec(name: Option<string>, tags: seq<SpecTag>)

  /** `status`, with the same convention for `tags`. */
  datatype StreamStatus = StreamStatus(tags: seq<StatusTag>)

  /** An image stream, keyed by identity in the tag cache. */
  class ImageStream {
    const metadata: ObjectMeta
    const spec: StreamSpec
    const status: Option<StreamStatus>

    constructor (metadata: ObjectMeta, spec: StreamSpec, status: Option<StreamStatus>)
      ensures this.metadata == metadata && this.spec == spec && this.status == status
    {
      this.metadata := metadata;
      this.spec := spec;
      this.status := status;
    }
  }
}
