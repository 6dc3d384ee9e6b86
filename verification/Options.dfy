/** Two ways of using setAutoResendEnabled in which no write of the option is harmful. */
module Options {
  import opened Payload
  import opened EngineSpec
  import opened World
  import opened Everywhere

  // Switched on only ---------------------------------------------------------------------------

  /** The option is only ever switched on. */
  ghost predicate NeverOff(es: seq<Event>) {
    forall i :: 0 <= i < |es| ==> es[i] != ReadOption(false)
  }

  ghost predicate OptionsOn(w: World) {
    forall o :: o in w.options ==> o.enable && (!o.start ==> w.core.auto)
  }

  lemma OnWrite(w: World, call: OptionCall)
    requires OptionsOn(w) && Enabled(w, WriteOption(call))
    ensures OptionsOn(Next(w, WriteOption(call)))
  {}

  lemma OnStep(w: World, e: Event)
    requires OptionsOn(w) && Enabled(w, e) && e != ReadOption(false)
    ensures OptionsOn(Next(w, e))
  {
    if e.WriteOption? { OnWrite(w, e.call); } else { OptionKept(w, e); }
  }

  /** Only the two steps of setAutoResendEnabled touch the option. */
  lemma OptionKept(w: World, e: Event)
    requires Enabled(w, e) && !e.WriteOption?
    ensures Next(w, e).core.auto == w.core.auto
    ensures Next(w, e).options ==
            w.options + if e.ReadOption? then multiset{OptionCall(e.enable, e.enable && !w.core.auto)} else multiset{}
  {
    if e.StartScans? { OptionKeptByScan(w, false); }
    else if e.CallbackScans? { OptionKeptByScan(w, true); }
    else if Internal(e) { OptionKeptInside(w, e); }
    else { OptionKeptOutside(w, e); }
  }

  lemma OptionKeptByScan(w: World, byCallback: bool)
    ensures Scans(w, byCallback).core.auto == w.core.auto && Scans(w, byCallback).options == w.options
  {}

  lemma OptionKeptInside(w: World, e: Event)
    requires Enabled(w, e) && Internal(e) && !e.StartScans? && !e.CallbackScans?
    ensures Next(w, e).core.auto == w.core.auto && Next(w, e).options == w.options
  {}

  lemma OptionKeptOutside(w: World, e: Event)
    requires Enabled(w, e) && !Internal(e) && !e.WriteOption?
    ensures Next(w, e).core.auto == w.core.auto
    ensures Next(w, e).options ==
            w.options + if e.ReadOption? then multiset{OptionCall(e.enable, e.enable && !w.core.auto)} else multiset{}
  {}

  lemma {:induction false} OnIsHarmless(w: World, es: seq<Event>, v: World)
    requires OptionsOn(w) && NeverOff(es) && Runs(w, es, v)
    ensures HarmlessWrites(w, es)
    decreases |es|
  {
    if es != [] {
      OnStep(w, es[0]);
      OnIsHarmless(Next(w, es[0]), es[1..], v);
    }
  }

  // One call at a time --------------------------------------------------------------------------

  /** No call of setAutoResendEnabled begins before the last one has written. */
  ghost predicate OneCallAtATime(w: World, es: seq<Event>)
    decreases |es|
  {
    es == [] || (Enabled(w, es[0]) && (es[0].ReadOption? ==> w.options == multiset{})
        && OneCallAtATime(Next(w, es[0]), es[1..]))
  }

  function HasRetries(): Msg -> bool { (m: Msg) => m.retries > 0 }

  /** At most one call is between its read and its write, and what it read still holds. */
  ghost predicate Alone(w: World) {
    w.options == multiset{} || exists o :: w.options == multiset{o} && o.start == (o.enable && !w.core.auto)
  }

  lemma AloneStep(w: World, e: Event)
    requires Alone(w) && Enabled(w, e) && (e.ReadOption? ==> w.options == multiset{})
    ensures Alone(Next(w, e))
  {
    if e.WriteOption? {
      assert multiset{e.call} - multiset{e.call} == multiset{};
    } else {
      OptionKept(w, e);
      if e.ReadOption? {
        var o := OptionCall(e.enable, e.enable && !w.core.auto);
        assert Next(w, e).options == multiset{o};
      }
    }
  }

  /** What manual mode delivers among sendable messages, auto mode delivers too. */
  lemma AloneIsHarmless(w: World, call: OptionCall)
    requires Alone(w) && Every(w.core, HasRetries()) && Enabled(w, WriteOption(call))
    ensures Harmless(w, call)
  {
    forall s | !call.start && DeliverableIn(w.core.pools, s, call.enable)
        ensures DeliverableIn(w.core.pools, s, w.core.auto) {
      assert All(w.core.pools[s].messages, HasRetries());
    }
  }

  lemma {:induction false} AloneRun(w: World, es: seq<Event>, v: World)
    requires Inv(w) && Alone(w) && Every(w.core, HasRetries()) && OneCallAtATime(w, es)
        && AddsSatisfy(es, HasRetries()) && Runs(w, es, v)
    ensures HarmlessWrites(w, es)
    decreases |es|
  {
    if es != [] {
      var e := es[0];
      if e.WriteOption? { AloneIsHarmless(w, e.call); }
      InvStep(w, e);
      AloneStep(w, e);
      EveryStep(w, e, HasRetries());
      AloneRun(Next(w, e), es[1..], v);
    }
  }

  /** From any reachable state in which none is lost, no wakeup is lost when the option is only switched on,
      nor when it is switched at will by one call at a time and every message has retries left. */
  lemma NothingLostByOptions(w0: World, before: seq<Event>, w: World, es: seq<Event>, v: World)
    requires Initial(w0) && Runs(w0, before, w) && Awake(w) && Runs(w, es, v)
    requires (OptionsOn(w) && NeverOff(es))
             || (Alone(w) && Every(w.core, HasRetries()) && OneCallAtATime(w, es) && AddsSatisfy(es, HasRetries()))
    ensures NoneLost(w, es) && HarmlessWrites(w, es)
  {
    InvRun(w0, before, w);
    if OptionsOn(w) && NeverOff(es) { OnIsHarmless(w, es, v); } else { AloneRun(w, es, v); }
    NoLostWakeup(w0, before, w, es, v);
  }

  /** The start is such a state, for both. */
  lemma StartIsQuiet(w: World)
    requires Initial(w)
    ensures Awake(w) && OptionsOn(w) && Alone(w) && Every(w.core, HasRetries())
  {}
}
