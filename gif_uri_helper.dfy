/**
 * The module-level URI table and its lookup (src/gifUriHelper.ts).
 */
module GifUriHelper {
  import opened Wrappers

  /** One chao type's state name -> URI record. */
  type GifUris = map<string, string>

  /** Chao type -> that type's `GifUris`. */
  type ChaoTypeUris = map<string, GifUris>

  /**
   * `generateGifUri`: the URI stored for (chaoType, stateName), and '' when the
   * table is not initialised, the type is unknown or the state name is unknown.
   */
  function GenerateGifUri(uris: Option<ChaoTypeUris>, chaoType: string, stateName: string): (r: string)
    ensures uris.Some? && chaoType in uris.value && stateName in uris.value[chaoType]
            ==> r == uris.value[chaoType][stateName]
    ensures !(uris.Some? && chaoType in uris.value && stateName in uris.value[chaoType]) ==> r == ""
  {
    if uris.None? then ""
    else if chaoType !in uris.value then ""
    else if stateName !in uris.value[chaoType] then ""
    else uris.value[chaoType][stateName]
  }

  /** The lookup never invents a URI: a non-empty result is a stored entry. */
  lemma GeneratedUriIsStored(uris: Option<ChaoTypeUris>, chaoType: string, stateName: string)
    requires GenerateGifUri(uris, chaoType, stateName) != ""
    ensures uris.Some? && chaoType in uris.value
    ensures GenerateGifUri(uris, chaoType, stateName) in uris.value[chaoType].Values
  {
  }

  /** Holder of the module variable `globalChaoTypeUris`. */
  class GifUriRegistry {
    var globalChaoTypeUris: Option<ChaoTypeUris>

    /** Before `initializeGifUris` is called the table is absent. */
    constructor ()
      ensures globalChaoTypeUris == None
    {
      globalChaoTypeUris := None;
    }

    /** `initializeGifUris`: replaces the whole table, so the last call wins. */
    method InitializeGifUris(chaoTypeUris: ChaoTypeUris)
      modifies this
      ensures globalChaoTypeUris == Some(chaoTypeUris)
    {
      globalChaoTypeUris := Some(chaoTypeUris);
    }
  }
}
