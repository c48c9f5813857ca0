/**
 * Client runs of the adapter: the render and double-invoke sequences of the component's
 * test file, and a source that is set, cleared and set again. Each builds its own document,
 * root element and component, so it changes nothing that existed before.
 */
module Scenarios {
  import opened Wrappers
  import opened Dom
  import opened PlayerApi
  import opened BitmovinPlayerAdapter

  /**
   * Rendering with a configuration and no source, then running the source effect once the
   * player is set: one visible container, one video, and no unload.
   */
  method RenderWithoutSource(config: PlayerConfig) returns (containers: nat, visible: nat, videos: nat, calls: seq<PlayerCall>)
    ensures containers == 1 && visible == 1 && videos == 1
    ensures CallUnload !in calls && CallDestroy !in calls
  {
    var document := new Document();
    var root := new RootElement();
    var component := new BitmovinPlayer(config, None, UiUndefined, None, None, document);
    component.AttachRoot(root);
    var cleanup := component.Mount();
    assert root.children == [] + [PlayerContainer(cleanup.value.containerId, true, [cleanup.value.player.calls[0].video])];
    assert root.children[1..] == [];
    assert VideoCount(root.children) == |root.children[0].videos| + VideoCount([]);
    assert VisibleCount(root.children) == 1 + VisibleCount([]);
    component.ObserveSource(None);
    containers, visible, videos := |root.children|, VisibleCount(root.children), VideoCount(root.children);
    calls := component.player.calls;
  }

  /**
   * The first half of the double-invoke mount: mount, unmount, mount again. The root then
   * holds the first container hidden and the second visible, each with its video; the
   * first player has been handed its video and destroyed, the second only handed its video.
   */
  method MountUnmountMount(config: PlayerConfig) returns (root: RootElement, first: Teardown, second: Teardown)
    ensures fresh(root) && root.Valid() && first.root == root && second.root == root
    ensures first.containerId != second.containerId
    ensures first.player != second.player
    ensures exists va: VideoElement, vb: VideoElement ::
              && va != vb
              && root.children == [PlayerContainer(first.containerId, false, [va]),
                                   PlayerContainer(second.containerId, true, [vb])]
              && first.player.calls == [CallSetVideoElement(va), CallDestroy]
              && second.player.calls == [CallSetVideoElement(vb)]
  {
    var document := new Document();
    root := new RootElement();
    var component := new BitmovinPlayer(config, None, UiUndefined, None, None, document);
    component.AttachRoot(root);
    var mounted := component.Mount();
    first := mounted.value;
    var a := first.containerId;
    var va := first.player.calls[0].video;
    assert root.children == [] + [PlayerContainer(a, true, [va])];
    DestroyPlayer(first);
    assert first.player.calls == [CallSetVideoElement(va), CallDestroy];
    mounted := component.Mount();
    second := mounted.value;
    var b := second.containerId;
    var vb := second.player.calls[0].video;
    assert root.children == Hide([] + [PlayerContainer(a, true, [va])], a) + [PlayerContainer(b, true, [vb])];
    assert HasChild(Hide([] + [PlayerContainer(a, true, [va])], a), a);
    StrictModeCollapse([], a, b, va, vb);
  }

  /**
   * The double-invoke mount of the test file: mount, unmount, mount again, then the first
   * player's destroy settles with `outcome`. Before settlement there are two videos and
   * one visible container; afterwards one of each, the container left being the second
   * player's; the first player was destroyed once, the second not at all.
   */
  method StrictModeRender(config: PlayerConfig, outcome: DestroyOutcome)
    returns (videosBefore: nat, visibleBefore: nat, videosAfter: nat, visibleAfter: nat,
             firstCalls: seq<PlayerCall>, secondCalls: seq<PlayerCall>, survivorIsSecond: bool)
    ensures videosBefore == 2 && visibleBefore == 1
    ensures videosAfter == 1 && visibleAfter == 1
    ensures survivorIsSecond
    ensures |firstCalls| == 2 && firstCalls[0].CallSetVideoElement? && firstCalls[1] == CallDestroy
    ensures multiset(firstCalls)[CallDestroy] == 1
    ensures |secondCalls| == 1 && CallDestroy !in secondCalls
  {
    var root, first, second := MountUnmountMount(config);
    var va: VideoElement, vb: VideoElement :|
      && va != vb
      && root.children == [PlayerContainer(first.containerId, false, [va]),
                           PlayerContainer(second.containerId, true, [vb])]
      && first.player.calls == [CallSetVideoElement(va), CallDestroy]
      && second.player.calls == [CallSetVideoElement(vb)];
    var hidden := PlayerContainer(first.containerId, false, [va]);
    var survivor := PlayerContainer(second.containerId, true, [vb]);
    VideoCountConcat([hidden], [survivor]);
    VisibleCountConcat([hidden], [survivor]);
    videosBefore, visibleBefore := VideoCount(root.children), VisibleCount(root.children);
    var found := SettleDestroy(first, outcome);
    assert root.children == [survivor] by {
      RemoveConcat([hidden], [survivor], first.containerId);
      assert [hidden, survivor] == [hidden] + [survivor];
    }
    videosAfter, visibleAfter := VideoCount(root.children), VisibleCount(root.children);
    survivorIsSecond := |root.children| == 1 && root.children[0].id == second.containerId;
    firstCalls, secondCalls := first.player.calls, second.player.calls;
  }

  /**
   * A component created with source `a`: once mounted, the source is loaded; clearing the
   * prop unloads it; setting `b` loads `b`.
   */
  method SourceSetClearedAndSetAgain(config: PlayerConfig, a: SourceConfig, b: SourceConfig) returns (calls: seq<PlayerCall>)
    ensures |calls| == 4 && calls[0].CallSetVideoElement?
    ensures calls[1..] == [CallLoad(a), CallUnload, CallLoad(b)]
  {
    var document := new Document();
    var root := new RootElement();
    var component := new BitmovinPlayer(config, Some(a), UiUndefined, None, None, document);
    component.AttachRoot(root);
    var cleanup := component.Mount();
    component.ObserveSource(Some(a));
    component.ObserveSource(None);
    component.ObserveSource(Some(b));
    calls := component.player.calls;
  }
}
