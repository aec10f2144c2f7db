/** The factories `imageLayers` and `imageDockerConfig`: resolving an
    image's layers and its effective Docker configuration through a chain of
    fallbacks, each memoised per image object. */
module Layers {
  import opened Records

  /** `imageDockerManifest(image)` for a present image: the parsed manifest,
      `{ }` when the image carries none. */
  function ManifestOf(image: Image): Manifest {
    image.dockerImageManifest.GetOr(Manifest(None))
  }

  /** The layers of `image`: the manifest `history` when the manifest has
      one, else `dockerImageLayers` when present, else none. */
  function LayersOf(image: Image?): (layers: seq<Layer>)
    ensures image == null ==> layers == []
    ensures image != null && image.dockerImageManifest.Some? && image.dockerImageManifest.value.history.Some? ==>
              layers == image.dockerImageManifest.value.history.value
    ensures image != null && (image.dockerImageManifest.None? || image.dockerImageManifest.value.history.None?) ==>
              layers == image.dockerImageLayers.GetOr([])
  {
    if image == null then []
    else match ManifestOf(image).history
      case Some(history) => history
      case None => image.dockerImageLayers.GetOr([])
  }

  /** The value the config factory computes and caches: the `config` of the
      top layer's `v1Compatibility` when there is one, else
      `dockerImageMetadata.Config`, else `undefined` (`None`). */
  function ConfigOf(image: Image?): (config: Option<Config>)
    ensures image == null ==> config.None?
    ensures image != null && TopLayerConfig(LayersOf(image)).Some? ==> config == TopLayerConfig(LayersOf(image))
    ensures image != null && TopLayerConfig(LayersOf(image)).None? ==>
              config == if image.dockerImageMetadata.Some? then image.dockerImageMetadata.value.config else None
  {
    if image == null then None
    else
      var layers := LayersOf(image);
      var compat := if |layers| > 0 then layers[0].v1Compatibility else None;
      if compat.Some? && compat.value.config.Some? then compat.value.config
      else match image.dockerImageMetadata
        case Some(meta) => meta.config
        case None => None
  }

  /** The `config` of the top layer's `v1Compatibility`, when both are there. */
  function TopLayerConfig(layers: seq<Layer>): Option<Config> {
    if |layers| > 0 && layers[0].v1Compatibility.Some? then layers[0].v1Compatibility.value.config else None
  }

  /** What `imageDockerConfig(image)` returns: the computed config, or the
      empty record `{ }` in place of `undefined`. */
  function DockerConfig(image: Image?): (config: Config)
    ensures ConfigOf(image).Some? ==> config == ConfigOf(image).value
    ensures ConfigOf(image).None? ==> config == EmptyConfig
  {
    ConfigOf(image).GetOr(EmptyConfig)
  }

  /** A manifest with a `history` decides the layers: `dockerImageLayers`
      is then never consulted. */
  lemma ManifestHistoryWins(a: Image, b: Image)
    requires a.dockerImageManifest == b.dockerImageManifest
    requires ManifestOf(a).history.Some?
    ensures LayersOf(a) == LayersOf(b) == ManifestOf(a).history.value
  {
  }

  /** A top layer that carries a config decides the configuration:
      `dockerImageMetadata` is then never consulted. */
  lemma TopLayerConfigWins(a: Image, b: Image)
    requires LayersOf(a) == LayersOf(b) && |LayersOf(a)| > 0
    requires LayersOf(a)[0].v1Compatibility.Some?
    requires LayersOf(a)[0].v1Compatibility.value.config.Some?
    ensures DockerConfig(a) == DockerConfig(b) == LayersOf(a)[0].v1Compatibility.value.config.value
  {
  }

  /** Without layer config and without metadata config the configuration is
      the empty record `{ }`, as it is for an absent image. */
  lemma NoConfigIsEmpty(image: Image?)
    requires image != null ==> ConfigOf(image).None?
    ensures DockerConfig(image) == EmptyConfig
  {
  }

  /** The `imageLayers` factory and its identity-keyed cache. */
  class LayerCache {
    var weak: map<Image, seq<Layer>>

    /** Every cached entry is the layer list of its image. */
    ghost predicate Valid()
      reads this
    {
      forall image | image in weak :: weak[image] == LayersOf(image)
    }

    constructor ()
      ensures Valid() && weak == map[]
    {
      weak := map[];
    }

    /** `imageLayers(image)`: a cached image is answered from the cache and
        leaves it unchanged; any other image is resolved and cached. */
    method Get(image: Image?) returns (layers: seq<Layer>)
      requires Valid()
      modifies this
      ensures Valid()
      ensures layers == LayersOf(image)
      ensures image == null ==> weak == old(weak)
      ensures image != null ==> weak == old(weak)[image := layers]
      ensures image != null && image in old(weak) ==> weak == old(weak)
    {
      if image == null {
        return [];
      }
      if image in weak {
        layers := weak[image];
        return;
      }
      var manifest := ManifestOf(image);
      if manifest.history.Some? {
        layers := manifest.history.value;
      } else if image.dockerImageLayers.Some? {
        layers := image.dockerImageLayers.value;
      } else {
        layers := [];
      }
      weak := weak[image := layers];
    }
  }

  /** The `imageDockerConfig` factory, its identity-keyed cache, and the
      `imageLayers` factory it shares with the rest of the module. */
  class ConfigCache {
    const layers: LayerCache
    var weak: map<Image, Option<Config>>

    /** Every cached entry is the config computed for its image, `None`
        standing for a cached `undefined`. */
    ghost predicate Valid()
      reads this, layers
    {
      && layers.Valid()
      && forall image | image in weak :: weak[image] == ConfigOf(image)
    }

    constructor (layers: LayerCache)
      requires layers.Valid()
      ensures Valid() && this.layers == layers && weak == map[]
    {
      this.layers := layers;
      weak := map[];
    }

    /** `imageDockerConfig(image)`. A cached `undefined` is falsy, so such
        an image is resolved (and cached) again; the answer is the same. */
    method Get(image: Image?) returns (config: Config)
      requires Valid()
      modifies this, layers
      ensures Valid()
      ensures config == DockerConfig(image)
      ensures image == null ==> weak == old(weak) && layers.weak == old(layers.weak)
      ensures image != null ==> weak == old(weak)[image := ConfigOf(image)]
      ensures image != null && !(image in old(weak) && old(weak)[image].Some?) ==>
                layers.weak == old(layers.weak)[image := LayersOf(image)]
      ensures image != null && image in old(weak) && old(weak)[image].Some? ==>
                weak == old(weak) && layers.weak == old(layers.weak)
    {
      if image == null {
        return EmptyConfig;
      }
      if image in weak && weak[image].Some? {
        return weak[image].value;
      }
      var resolved: Option<Config> := None;
      var all := layers.Get(image);
      var compat: Option<Compat> := None;
      if |all| > 0 {
        compat := all[0].v1Compatibility;
      }
      if compat.Some? && compat.value.config.Some? {
        resolved := compat.value.config;
      } else {
        var meta := image.dockerImageMetadata.GetOr(Metadata(None));
        if meta.config.Some? {
          resolved := meta.config;
        }
      }
      weak := weak[image := resolved];
      config := resolved.GetOr(EmptyConfig);
    }
  }
}
