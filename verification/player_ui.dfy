/**
 * The UI overlay library and the user's UI factories, seen only as the calls made on them.
 * A factory is identified by a token; what it builds is named after the factory.
 */
module PlayerUi {
  import opened Wrappers

  datatype UiFactory = UiFactory(token: nat)

  datatype UiConfig = UiConfig(token: nat)

  /** What a factory built: a UI container, or a list of UI variants. */
  datatype UiComposition = ContainerFrom(factory: UiFactory) | VariantsFrom(factory: UiFactory)

  datatype UiCall<P> =
    | InvokeFactory(factory: UiFactory)
    | NewUiManager(player: P, composition: UiComposition, config: Option<UiConfig>)
    | BuildDefaultUi(player: P)

  /** A call that attaches a UI to the player. */
  predicate IsAttachment<P>(c: UiCall<P>)
  {
    c.NewUiManager? || c.BuildDefaultUi?
  }

  function AttachmentCount<P>(calls: seq<UiCall<P>>): nat
  {
    if calls == [] then 0 else (if IsAttachment(calls[0]) then 1 else 0) + AttachmentCount(calls[1..])
  }

  function FactoryInvocationCount<P>(calls: seq<UiCall<P>>): nat
  {
    if calls == [] then 0 else (if calls[0].InvokeFactory? then 1 else 0) + FactoryInvocationCount(calls[1..])
  }

  /** Invoking a factory and then attaching is one attachment and one factory invocation. */
  lemma FactoryThenAttachCounts<P>(factory: UiFactory, attach: UiCall<P>)
    requires IsAttachment(attach)
    ensures AttachmentCount([InvokeFactory(factory), attach]) == 1
    ensures FactoryInvocationCount([InvokeFactory(factory), attach]) == 1
  {
    var calls := [InvokeFactory(factory), attach];
    assert calls[1..] == [attach];
    assert [attach][1..] == [];
    assert AttachmentCount([attach]) == 1 && FactoryInvocationCount([attach]) == 0;
  }
}
