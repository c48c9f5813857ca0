/**
 * The decision the source effect takes each time it observes the `source` prop: load the
 * source, unload, or do nothing. Two flags drive it: whether the source was empty when the
 * component was created, and whether a load or unload has happened at least once.
 */
module SourceSync {
  import opened Wrappers
  import opened PlayerApi

  datatype SyncFlags = SyncFlags(initialSourceEmpty: bool, changedAtLeastOnce: bool)

  /** The flags after one or more observations, and the player calls they issued. */
  datatype Step = Step(flags: SyncFlags, calls: seq<PlayerCall>)

  /** The flags at creation: the source was empty or not, and nothing has changed yet. */
  function InitialFlags(initialSource: Option<SourceConfig>): SyncFlags
  {
    SyncFlags(initialSource.None?, false)
  }

  /** The first unload is skipped when no source was ever given and nothing happened yet. */
  predicate ShouldSkipUnload(f: SyncFlags)
  {
    f.initialSourceEmpty && !f.changedAtLeastOnce
  }

  /** One run of the source effect, with or without a player handle set. */
  function Observe(f: SyncFlags, hasPlayer: bool, source: Option<SourceConfig>): (r: Step)
    ensures !hasPlayer ==> r == Step(f, [])
    ensures r.flags.initialSourceEmpty == f.initialSourceEmpty
    ensures f.changedAtLeastOnce ==> r.flags.changedAtLeastOnce
    ensures hasPlayer && source.Some? ==> r.calls == [CallLoad(source.value)] && r.flags.changedAtLeastOnce
    ensures hasPlayer && source.None? ==> (r.calls == [] <==> ShouldSkipUnload(f))
    ensures hasPlayer && source.None? && ShouldSkipUnload(f) ==> r.flags == f
    ensures hasPlayer && source.None? && !ShouldSkipUnload(f) ==> r.calls == [CallUnload] && r.flags.changedAtLeastOnce
  {
    if !hasPlayer then Step(f, [])
    else if source.Some? then Step(f.(changedAtLeastOnce := true), [CallLoad(source.value)])
    else if ShouldSkipUnload(f) then Step(f, [])
    else Step(f.(changedAtLeastOnce := true), [CallUnload])
  }

  /** A run of observations while the player handle is set, oldest first. */
  function ObserveAll(f: SyncFlags, sources: seq<Option<SourceConfig>>): Step
    decreases |sources|
  {
    if sources == [] then Step(f, [])
    else
      var before := ObserveAll(f, sources[..|sources| - 1]);
      var last := Observe(before.flags, true, sources[|sources| - 1]);
      Step(last.flags, before.calls + last.calls)
  }

  predicate AllAbsent(sources: seq<Option<SourceConfig>>)
  {
    forall j :: 0 <= j < |sources| ==> sources[j].None?
  }

  /**
   * Reference behaviour, stated without the flags: a present source is loaded; an absent
   * one is unloaded unless the initial source was empty and every earlier observation
   * was absent too.
   */
  function ExpectedCall(initialSourceEmpty: bool, earlier: seq<Option<SourceConfig>>, current: Option<SourceConfig>): seq<PlayerCall>
  {
    match current
    case Some(s) => [CallLoad(s)]
    case None => if initialSourceEmpty && AllAbsent(earlier) then [] else [CallUnload]
  }

  function ExpectedCalls(initialSourceEmpty: bool, sources: seq<Option<SourceConfig>>): seq<PlayerCall>
    decreases |sources|
  {
    if sources == [] then []
    else
      var earlier := sources[..|sources| - 1];
      ExpectedCalls(initialSourceEmpty, earlier) + ExpectedCall(initialSourceEmpty, earlier, sources[|sources| - 1])
  }

  /**
   * The flags after a run from creation: "initial source empty" never changes, and
   * "changed at least once" holds exactly when something was observed and it was not the
   * case that the initial source was empty and every observation absent.
   */
  lemma {:induction false} FlagsAfter(initialSource: Option<SourceConfig>, sources: seq<Option<SourceConfig>>)
    ensures ObserveAll(InitialFlags(initialSource), sources).flags
         == SyncFlags(initialSource.None?, |sources| > 0 && !(initialSource.None? && AllAbsent(sources)))
  {
    if sources != [] {
      var earlier := sources[..|sources| - 1];
      FlagsAfter(initialSource, earlier);
      if initialSource.None? && AllAbsent(earlier) && sources[|sources| - 1].None? {
        assert AllAbsent(sources) by {
          forall j | 0 <= j < |sources| ensures sources[j].None? {
            if j < |earlier| {
              assert sources[j] == earlier[j];
            }
          }
        }
      }
      if !AllAbsent(earlier) {
        var j :| 0 <= j < |earlier| && !earlier[j].None?;
        assert sources[j] == earlier[j];
      }
    }
  }

  /** The calls of any run from creation are exactly the reference calls. */
  lemma {:induction false} ObserveAllMatchesReference(initialSource: Option<SourceConfig>, sources: seq<Option<SourceConfig>>)
    ensures ObserveAll(InitialFlags(initialSource), sources).calls == ExpectedCalls(initialSource.None?, sources)
  {
    if sources != [] {
      var earlier := sources[..|sources| - 1];
      ObserveAllMatchesReference(initialSource, earlier);
      FlagsAfter(initialSource, earlier);
    }
  }

  /** Running two stretches one after the other is running their concatenation. */
  lemma {:induction false} ObserveAllConcat(f: SyncFlags, xs: seq<Option<SourceConfig>>, ys: seq<Option<SourceConfig>>)
    ensures var first := ObserveAll(f, xs);
            var second := ObserveAll(first.flags, ys);
            ObserveAll(f, xs + ys) == Step(second.flags, first.calls + second.calls)
    decreases |ys|
  {
    if ys == [] {
      assert xs + ys == xs;
    } else {
      var ys' := ys[..|ys| - 1];
      assert (xs + ys)[..|xs + ys| - 1] == xs + ys';
      assert (xs + ys)[|xs + ys| - 1] == ys[|ys| - 1];
      ObserveAllConcat(f, xs, ys');
    }
  }

  /**
   * Along any run, "initial source empty" keeps its value and "changed at least once",
   * once true, stays true.
   */
  lemma {:induction false} FlagsMonotone(f: SyncFlags, sources: seq<Option<SourceConfig>>)
    ensures ObserveAll(f, sources).flags.initialSourceEmpty == f.initialSourceEmpty
    ensures f.changedAtLeastOnce ==> ObserveAll(f, sources).flags.changedAtLeastOnce
    decreases |sources|
  {
    if sources != [] {
      FlagsMonotone(f, sources[..|sources| - 1]);
    }
  }

  /** From an empty initial source, a run of absent sources never unloads (nor loads). */
  lemma {:induction false} AbsentFromEmptyStartNeverUnloads(sources: seq<Option<SourceConfig>>)
    requires AllAbsent(sources)
    ensures ObserveAll(InitialFlags(None), sources).calls == []
  {
    if sources != [] {
      var earlier := sources[..|sources| - 1];
      assert AllAbsent(earlier) by {
        forall j | 0 <= j < |earlier| ensures earlier[j].None? {
          assert earlier[j] == sources[j];
        }
      }
      AbsentFromEmptyStartNeverUnloads(earlier);
      FlagsAfter(None, earlier);
    }
  }

  /** Present, then absent, then present again: load, unload, load, whatever came before. */
  lemma LoadUnloadLoad(f: SyncFlags, a: SourceConfig, b: SourceConfig)
    ensures ObserveAll(f, [Some(a), None, Some(b)]).calls == [CallLoad(a), CallUnload, CallLoad(b)]
  {
    var run := [Some(a), None, Some(b)];
    assert run[..2] == [Some(a), None];
    assert run[..2][..1] == [Some(a)];
    assert [Some(a)][..0] == [];
    assert ObserveAll(f, []) == Step(f, []);
    var s1 := ObserveAll(f, [Some(a)]);
    assert s1 == Step(f.(changedAtLeastOnce := true), [] + [CallLoad(a)]);
    assert s1.calls == [CallLoad(a)] && s1.flags.changedAtLeastOnce;
    var s2 := ObserveAll(f, [Some(a), None]);
    assert s2.calls == [CallLoad(a), CallUnload] && s2.flags.changedAtLeastOnce;
  }

  /**
   * Whatever was observed before, setting, clearing and setting the source again appends
   * exactly load, unload, load to the calls made so far.
   */
  lemma LoadUnloadLoadAfterAnyPrefix(f: SyncFlags, earlier: seq<Option<SourceConfig>>, a: SourceConfig, b: SourceConfig)
    ensures ObserveAll(f, earlier + [Some(a), None, Some(b)]).calls
         == ObserveAll(f, earlier).calls + [CallLoad(a), CallUnload, CallLoad(b)]
  {
    ObserveAllConcat(f, earlier, [Some(a), None, Some(b)]);
    LoadUnloadLoad(ObserveAll(f, earlier).flags, a, b);
  }
}
