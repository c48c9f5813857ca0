/**
 * The wrapped video player, seen only from the outside: the values the adapter hands it
 * and the log of the calls the adapter makes on it. Nothing of the engine is modelled.
 */
module PlayerApi {
  import opened Dom

  /** An opaque source descriptor; only its presence matters to the adapter. */
  datatype SourceConfig = SourceConfig(token: nat)

  /** A value in the player configuration object. */
  datatype ConfigValue = BoolValue(b: bool) | OpaqueValue(token: nat)

  /** The player configuration object, as a map from property names to values. */
  type PlayerConfig = map<string, ConfigValue>

  /** One call the adapter made on a player after constructing it. */
  datatype PlayerCall =
    | CallSetVideoElement(video: VideoElement)
    | CallLoad(source: SourceConfig)
    | CallUnload
    | CallDestroy

  /** A constructed player: the container and configuration it was built with, and its call log. */
  class Player {
    const containerId: nat
    const config: PlayerConfig
    var calls: seq<PlayerCall>

    /** `new Player(containerElement, config)`. */
    constructor (containerId: nat, config: PlayerConfig)
      ensures this.containerId == containerId && this.config == config
      ensures calls == []
    {
      this.containerId := containerId;
      this.config := config;
      calls := [];
    }

    method SetVideoElement(video: VideoElement)
      modifies this
      ensures calls == old(calls) + [CallSetVideoElement(video)]
    {
      calls := calls + [CallSetVideoElement(video)];
    }

    method Load(source: SourceConfig)
      modifies this
      ensures calls == old(calls) + [CallLoad(source)]
    {
      calls := calls + [CallLoad(source)];
    }

    method Unload()
      modifies this
      ensures calls == old(calls) + [CallUnload]
    {
      calls := calls + [CallUnload];
    }

    /** Starts the asynchronous destroy; its settlement is a separate event. */
    method Destroy()
      modifies this
      ensures calls == old(calls) + [CallDestroy]
    {
      calls := calls + [CallDestroy];
    }
  }
}
