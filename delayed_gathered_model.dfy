/** org.thymeleaf.engine.DelayedGatheredModel: a gathered sub-tree of events
    whose replay is deferred, allowed once, and closes the context level
    that was opened when gathering began. */
module Engine {
  import opened Results

  /** One structural event of the template, as the parser emits it. */
  datatype Event =
    | DocumentStart
    | DocumentEnd
    | OpenElement(name: string)
    | CloseElement(name: string)
    | Text(content: string)
    | Comment(content: string)
    | CDATASection(content: string)
    | DocType(content: string)
    | ProcessingInstruction(target: string, content: string)

  const ALREADY_PROCESSED :=
    "This delayed model has already been processed. Execution can only take place once"

  /** The engine context, reduced to its level counter: the number of
      variable levels opened above the root. */
  class EngineContext {
    var level: nat

    constructor ()
      ensures level == 0
    {
      level := 0;
    }

    method IncreaseLevel()
      modifies this
      ensures level == old(level) + 1
    {
      level := level + 1;
    }

    /** Closing the root level is refused and changes nothing. */
    method DecreaseLevel() returns (o: Outcome)
      modifies this
      ensures old(level) > 0 ==> o == Done && level == old(level) - 1
      ensures old(level) == 0 ==> o == Fail(LevelUnderflow) && level == 0
    {
      if level == 0 {
        o := Fail(LevelUnderflow);
      } else {
        level := level - 1;
        o := Done;
      }
    }
  }

  /** The handler the gathered events are replayed into.  It records the
      events it has accepted; `fault` says for which events it throws, and
      what, instead of accepting them.  It is handed the engine context and
      may change it, but whatever levels it opens while handling one event
      it closes again before returning. */
  class TemplateHandler {
    var handled: seq<Event>
    const fault: Event -> Option<Failure>

    constructor (fault: Event -> Option<Failure>)
      ensures handled == [] && this.fault == fault
    {
      handled := [];
      this.fault := fault;
    }

    method HandleEvent(event: Event, context: EngineContext) returns (o: Outcome)
      modifies this, context
      ensures context.level == old(context.level)
      ensures fault(event).None? ==> o == Done && handled == old(handled) + [event]
      ensures fault(event).Some? ==> o == Fail(fault(event).value) && handled == old(handled)
    {
      match fault(event)
      case None =>
        handled := handled + [event];
        o := Done;
      case Some(failure) =>
        o := Fail(failure);
    }
  }

  /** How many events a replay delivers before the first one the handler
      throws on: all of them when it throws on none. */
  function FirstFault(events: seq<Event>, fault: Event -> Option<Failure>): (k: nat)
    ensures k <= |events|
    ensures forall i :: 0 <= i < k ==> fault(events[i]).None?
    ensures k < |events| ==> fault(events[k]).Some?
  {
    if events == [] then 0
    else if fault(events[0]).Some? then 0
    else 1 + FirstFault(events[1..], fault)
  }

  /** Replay of a gathered model: its events, in order, into the handler,
      stopping at the first failure, which is passed on. */
  method ReplayGathered(events: seq<Event>, handler: TemplateHandler, context: EngineContext) returns (o: Outcome)
    modifies handler, context
    ensures context.level == old(context.level)
    ensures var k := FirstFault(events, handler.fault);
      && handler.handled == old(handler.handled) + events[..k]
      && (k == |events| ==> o == Done)
      && (k < |events| ==> o == Fail(handler.fault(events[k]).value))
  {
    var i := 0;
    while i < |events|
      invariant i <= |events|
      invariant forall j :: 0 <= j < i ==> handler.fault(events[j]).None?
      invariant handler.handled == old(handler.handled) + events[..i]
      invariant context.level == old(context.level)
    {
      o := handler.HandleEvent(events[i], context);
      if o.Fail? {
        return;
      }
      assert events[..i + 1] == events[..i] + [events[i]];
      i := i + 1;
    }
    o := Done;
  }

  class DelayedGatheredModel {
    const context: EngineContext
    const gathered: seq<Event>
    var processed: bool

    constructor (context: EngineContext, gathered: seq<Event>)
      ensures !processed
      ensures this.context == context && this.gathered == gathered
    {
      this.context := context;
      this.gathered := gathered;
      processed := false;
    }

    /** The one-shot flag, as it stands. */
    function IsProcessed(): (b: bool)
      reads this
      ensures b == processed
    {
      processed
    }

    /** Already processed: fail and touch nothing.  Otherwise replay the
        events, then close one context level, then set the flag; a failure
        at either step is passed on and leaves the flag unset. */
    method Process(handler: TemplateHandler) returns (o: Outcome)
      modifies this, context, handler
      ensures processed <==> old(processed) || o == Done
      ensures old(processed) ==>
        && o == Fail(TemplateProcessing(ALREADY_PROCESSED))
        && handler.handled == old(handler.handled)
        && context.level == old(context.level)
      ensures !old(processed) ==>
        var k := FirstFault(gathered, handler.fault);
        && handler.handled == old(handler.handled) + gathered[..k]
        && (k < |gathered| ==>
              o == Fail(handler.fault(gathered[k]).value) && context.level == old(context.level))
        && (k == |gathered| && old(context.level) > 0 ==>
              o == Done && context.level == old(context.level) - 1)
        && (k == |gathered| && old(context.level) == 0 ==>
              o == Fail(LevelUnderflow) && context.level == 0)
    {
      if processed {
        o := Fail(TemplateProcessing(ALREADY_PROCESSED));
        return;
      }
      o := ReplayGathered(gathered, handler, context);
      if o.Fail? {
        return;
      }
      o := context.DecreaseLevel();
      if o.Fail? {
        return;
      }
      processed := true;
    }
  }

  /** Gathering opens a level, the deferred replay closes it: when the replay
      succeeds the level is back where it was, and a second replay fails
      without delivering the events again. */
  method GatherAndReplayTwice(context: EngineContext, gathered: seq<Event>, handler: TemplateHandler)
    returns (first: Outcome, second: Outcome)
    modifies context, handler
    ensures first == Done <==> FirstFault(gathered, handler.fault) == |gathered|
    ensures first == Done ==>
      && context.level == old(context.level)
      && handler.handled == old(handler.handled) + gathered
      && second == Fail(TemplateProcessing(ALREADY_PROCESSED))
  {
    context.IncreaseLevel();
    var model := new DelayedGatheredModel(context, gathered);
    first := model.Process(handler);
    second := model.Process(handler);
  }
}
