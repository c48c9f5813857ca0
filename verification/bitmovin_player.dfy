/**
 * The lifecycle adapter: a component that builds one player per mount inside its own
 * container under the root element, attaches a UI, keeps the player's source in step with
 * the `source` prop, and tears the player down on unmount.
 *
 * The host framework's effect scheduling is replaced by explicit calls: `AttachRoot` (the
 * root ref handler), `Mount` (the mount effect, which returns its cleanup as a `Teardown`),
 * `ObserveSource` (the source effect), `DestroyPlayer` (the cleanup) and `SettleDestroy`
 * (the settlement of the player's asynchronous destroy).
 */
module BitmovinPlayerAdapter {
  import opened Wrappers
  import opened Dom
  import opened PlayerApi
  import opened PlayerUi
  import opened ReactRefs
  import SourceSync

  /** The `ui` prop: `undefined`, `false`, or an object that may carry either factory. */
  datatype UiProp =
    | UiUndefined
    | UiDisabled
    | UiObject(containerFactory: Option<UiFactory>, variantsFactory: Option<UiFactory>, config: Option<UiConfig>)

  /** How a settled destroy ended; cleanup does not depend on it. */
  datatype DestroyOutcome = Fulfilled | Rejected

  /** What the mount effect's cleanup captured: the player, the root and its own container. */
  datatype Teardown = Teardown(player: Player, root: RootElement, containerId: nat)

  const UiKey: string := "ui"

  /** `setRef`: a callback ref is invoked with the value, an object ref gets it in `.current`. */
  method SetRef<T>(ref: Ref<T>, value: T)
    modifies ref.Target()
    ensures ref.ObjectRef? ==> ref.slot.current == value
    ensures ref.CallbackRef? ==> ref.callback.received == old(ref.callback.received) + [value]
  {
    match ref
    case CallbackRef(callback) => callback.Invoke(value);
    case ObjectRef(slot) => slot.current := value;
  }

  /**
   * `initializePlayerUi`: the calls made on the UI library and on the user's factories.
   * Exactly one UI is attached unless the UI is disabled, and then nothing is called; at
   * most one factory is invoked, and what it built is what the manager is given.
   */
  function InitializePlayerUi<P>(player: P, ui: UiProp): (calls: seq<UiCall<P>>)
    ensures AttachmentCount(calls) == if ui.UiDisabled? then 0 else 1
    ensures calls == [] <==> ui.UiDisabled?
    ensures FactoryInvocationCount(calls) <= 1
    ensures forall i :: 0 <= i < |calls| && calls[i].InvokeFactory? ==>
              && i + 1 < |calls|
              && calls[i + 1].NewUiManager?
              && calls[i + 1].player == player
              && calls[i + 1].composition.factory == calls[i].factory
  {
    if ui.UiDisabled? then []
    else if ui.UiObject? && ui.containerFactory.Some? then
      var factory := ui.containerFactory.value;
      FactoryThenAttachCounts(factory, NewUiManager(player, ContainerFrom(factory), ui.config));
      [InvokeFactory(factory), NewUiManager(player, ContainerFrom(factory), ui.config)]
    else if ui.UiObject? && ui.variantsFactory.Some? then
      var factory := ui.variantsFactory.value;
      FactoryThenAttachCounts(factory, NewUiManager(player, VariantsFrom(factory), ui.config));
      [InvokeFactory(factory), NewUiManager(player, VariantsFrom(factory), ui.config)]
    else
      [BuildDefaultUi(player)]
  }

  /**
   * Which UI is chosen: a container factory wins over a variants factory, a variants
   * factory is used only without a container factory, and `undefined` or an object with
   * neither gives the library's default UI.
   */
  lemma UiStrategyPrecedence<P>(player: P, ui: UiProp)
    ensures ui.UiObject? && ui.containerFactory.Some? ==>
              InitializePlayerUi(player, ui)
              == [InvokeFactory(ui.containerFactory.value),
                  NewUiManager(player, ContainerFrom(ui.containerFactory.value), ui.config)]
    ensures ui.UiObject? && ui.containerFactory.None? && ui.variantsFactory.Some? ==>
              InitializePlayerUi(player, ui)
              == [InvokeFactory(ui.variantsFactory.value),
                  NewUiManager(player, VariantsFrom(ui.variantsFactory.value), ui.config)]
    ensures ui.UiUndefined? || (ui.UiObject? && ui.containerFactory.None? && ui.variantsFactory.None?) ==>
              InitializePlayerUi(player, ui) == [BuildDefaultUi(player)]
  {
  }

  /**
   * `convertConfig`: a copy of the configuration whose `ui` is false and whose other
   * properties are the original's.
   */
  function ConvertConfig(original: PlayerConfig): (converted: PlayerConfig)
    ensures UiKey in converted && converted[UiKey] == BoolValue(false)
    ensures converted.Keys == original.Keys + {UiKey}
    ensures forall k :: k in original && k != UiKey ==> converted[k] == original[k]
  {
    original[UiKey := BoolValue(false)]
  }

  /** A configuration is the converted copy of another exactly when it agrees with it off `ui` and has `ui` false. */
  lemma ConvertConfigCharacterized(original: PlayerConfig, candidate: PlayerConfig)
    ensures candidate == ConvertConfig(original) <==>
              && UiKey in candidate && candidate[UiKey] == BoolValue(false)
              && candidate.Keys == original.Keys + {UiKey}
              && forall k :: k in original && k != UiKey ==> candidate[k] == original[k]
  {
    var converted := ConvertConfig(original);
    if && UiKey in candidate && candidate[UiKey] == BoolValue(false)
       && candidate.Keys == original.Keys + {UiKey}
       && forall k :: k in original && k != UiKey ==> candidate[k] == original[k]
    {
      forall k | k in candidate ensures candidate[k] == converted[k] {
        if k != UiKey {
          assert k in original;
        }
      }
    }
  }

  /** Whatever `ui` the caller put in the configuration is ignored, so converting twice changes nothing. */
  lemma ConvertConfigIgnoresUi(original: PlayerConfig, ui: ConfigValue)
    ensures ConvertConfig(original[UiKey := ui]) == ConvertConfig(original)
    ensures ConvertConfig(ConvertConfig(original)) == ConvertConfig(original)
  {
  }

  /** `preparePlayerElements`: a fresh container holding a fresh video, appended to the root. */
  method PreparePlayerElements(document: Document, root: RootElement) returns (containerId: nat, video: VideoElement)
    requires root.Valid() && IdsBelow(root.children, document.nextId)
    modifies document, root
    ensures root.Valid() && IdsBelow(root.children, document.nextId)
    ensures !HasChild(old(root.children), containerId)
    ensures containerId != video.id
    ensures old(document.nextId) <= containerId < document.nextId
    ensures old(document.nextId) <= video.id < document.nextId
    ensures root.children == old(root.children) + [PlayerContainer(containerId, true, [video])]
  {
    containerId := document.CreateElement();
    var videoId := document.CreateElement();
    video := VideoElement(videoId);
    RemoveAbsent(root.children, containerId);
    root.AppendChild(PlayerContainer(containerId, true, [video]));
  }

  /** `initializePlayer`: construct the player on the container, then hand it the video. */
  method InitializePlayer(containerId: nat, video: VideoElement, convertedConfig: PlayerConfig) returns (player: Player)
    ensures fresh(player)
    ensures player.containerId == containerId && player.config == convertedConfig
    ensures player.calls == [CallSetVideoElement(video)]
  {
    player := new Player(containerId, convertedConfig);
    player.SetVideoElement(video);
  }

  /**
   * `destroyPlayer` up to the asynchronous part: the instance's own container is hidden at
   * once and the player's destroy is started. No other container changes.
   */
  method DestroyPlayer(t: Teardown)
    requires t.root.Valid()
    modifies t.player, t.root
    ensures t.root.Valid()
    ensures t.root.children == Hide(old(t.root.children), t.containerId)
    ensures t.player.calls == old(t.player.calls) + [CallDestroy]
  {
    t.root.HideChild(t.containerId);
    t.player.Destroy();
  }

  /**
   * The continuation of `destroyPlayer`, run on either outcome of the destroy: remove the
   * instance's container from the root. `found` is false when it was no longer a child.
   */
  method SettleDestroy(t: Teardown, outcome: DestroyOutcome) returns (found: bool)
    requires t.root.Valid()
    modifies t.root
    ensures t.root.Valid()
    ensures found == HasChild(old(t.root.children), t.containerId)
    ensures t.root.children == Remove(old(t.root.children), t.containerId)
  {
    found := t.root.RemoveChild(t.containerId);
  }

  /** One instance of the component, with its props, its refs and its player state. */
  class BitmovinPlayer {
    const config: PlayerConfig
    const ui: UiProp
    const playerRefProp: Option<Ref<Player>>
    const forwardedRef: Option<Ref<RootElement?>>
    const document: Document
    /** Set once, from the `source` prop at creation. */
    const isInitialSourceEmpty: bool
    var isSourceChangedAtLeastOnce: bool
    var rootContainerElement: RootElement?
    var player: Player?
    /** Every call made on the UI library and the UI factories by this instance's mounts. */
    var uiCalls: seq<UiCall<Player>>

    ghost predicate Valid()
      reads this, document, rootContainerElement
    {
      rootContainerElement != null ==>
        rootContainerElement.Valid() && IdsBelow(rootContainerElement.children, document.nextId)
    }

    function Flags(): SourceSync.SyncFlags
      reads this
    {
      SourceSync.SyncFlags(isInitialSourceEmpty, isSourceChangedAtLeastOnce)
    }

    /** The objects that setting the player ref changes. */
    function PlayerRefTargets(): set<object>
    {
      if playerRefProp.Some? then {playerRefProp.value.Target()} else {}
    }

    /** The objects that setting the forwarded root ref changes. */
    function ForwardedRefTargets(): set<object>
    {
      if forwardedRef.Some? then {forwardedRef.value.Target()} else {}
    }

    constructor (config: PlayerConfig, source: Option<SourceConfig>, ui: UiProp,
                 playerRefProp: Option<Ref<Player>>, forwardedRef: Option<Ref<RootElement?>>,
                 document: Document)
      ensures this.config == config && this.ui == ui && this.document == document
      ensures this.playerRefProp == playerRefProp && this.forwardedRef == forwardedRef
      ensures Flags() == SourceSync.InitialFlags(source)
      ensures rootContainerElement == null && player == null && uiCalls == []
      ensures Valid()
    {
      this.config := config;
      this.ui := ui;
      this.playerRefProp := playerRefProp;
      this.forwardedRef := forwardedRef;
      this.document := document;
      isInitialSourceEmpty := source.None?;
      isSourceChangedAtLeastOnce := false;
      rootContainerElement := null;
      player := null;
      uiCalls := [];
    }

    /** The root ref handler: record the element, and pass it on to the forwarded ref. */
    method AttachRoot(element: RootElement?)
      requires element != null ==> element.Valid() && IdsBelow(element.children, document.nextId)
      modifies this`rootContainerElement, ForwardedRefTargets()
      ensures rootContainerElement == element && Valid()
      ensures forwardedRef.Some? && forwardedRef.value.ObjectRef? ==> forwardedRef.value.slot.current == element
      ensures forwardedRef.Some? && forwardedRef.value.CallbackRef? ==>
                forwardedRef.value.callback.received == old(forwardedRef.value.callback.received) + [element]
    {
      rootContainerElement := element;
      if forwardedRef.Some? {
        SetRef(forwardedRef.value, element);
      }
    }

    /**
     * The mount effect. Without a root element it does nothing. Otherwise it appends one
     * new visible container holding one new video to the root, leaving the existing
     * children as they were; constructs a player on that container with the converted
     * configuration and hands it the video; attaches the UI; publishes the player through
     * the player ref; and returns the cleanup's captures.
     */
    method Mount() returns (cleanup: Option<Teardown>)
      requires Valid()
      modifies this`player, this`uiCalls, document, rootContainerElement, PlayerRefTargets()
      ensures Valid()
      ensures old(rootContainerElement) == null ==>
                && cleanup == None && player == old(player) && uiCalls == old(uiCalls)
                && document.nextId == old(document.nextId)
                && unchanged(PlayerRefTargets())
      ensures old(rootContainerElement) != null ==>
                && cleanup.Some?
                && var t := cleanup.value;
                && t.root == rootContainerElement
                && t.player == player && fresh(t.player)
                && !HasChild(old(rootContainerElement.children), t.containerId)
                && |t.player.calls| == 1 && t.player.calls[0].CallSetVideoElement?
                && old(document.nextId) <= t.containerId < document.nextId
                && old(document.nextId) <= t.player.calls[0].video.id < document.nextId
                && rootContainerElement.children
                   == old(rootContainerElement.children) + [PlayerContainer(t.containerId, true, [t.player.calls[0].video])]
                && t.player.containerId == t.containerId
                && t.player.config == ConvertConfig(config)
                && uiCalls == old(uiCalls) + InitializePlayerUi(t.player, ui)
                && (playerRefProp.Some? && playerRefProp.value.ObjectRef? ==> playerRefProp.value.slot.current == t.player)
                && (playerRefProp.Some? && playerRefProp.value.CallbackRef? ==>
                      playerRefProp.value.callback.received == old(playerRefProp.value.callback.received) + [t.player])
    {
      var root := rootContainerElement;
      if root == null {
        return None;
      }
      var containerId, video := PreparePlayerElements(document, root);
      var convertedConfig := ConvertConfig(config);
      var initializedPlayer := InitializePlayer(containerId, video, convertedConfig);
      uiCalls := uiCalls + InitializePlayerUi(initializedPlayer, ui);
      if playerRefProp.Some? {
        SetRef(playerRefProp.value, initializedPlayer);
      }
      player := initializedPlayer;
      cleanup := Some(Teardown(initializedPlayer, root, containerId));
    }

    /**
     * The source effect, proved against `SourceSync.Observe`: without a player nothing
     * happens; otherwise the player receives exactly the calls the decision prescribes and
     * the flags move as it says.
     */
    method ObserveSource(source: Option<SourceConfig>)
      modifies this`isSourceChangedAtLeastOnce, player
      ensures var step := SourceSync.Observe(old(Flags()), player != null, source);
              && Flags() == step.flags
              && (player != null ==> player.calls == old(player.calls) + step.calls)
    {
      if player == null {
        return;
      }
      if source.Some? {
        player.Load(source.value);
        isSourceChangedAtLeastOnce := true;
      } else {
        var shouldSkipUnload := isInitialSourceEmpty && !isSourceChangedAtLeastOnce;
        if !shouldSkipUnload {
          player.Unload();
          isSourceChangedAtLeastOnce := true;
        }
      }
    }
  }
}
