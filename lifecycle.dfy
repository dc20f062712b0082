/**
 * The process-wide `_model` and its two readers: the health probe and the
 * remove-background endpoint. `_model` starts as `None` and is written only
 * by the startup hook.
 */
module Lifecycle {
  import opened Optional
  import opened Handler

  /** The handle returned by `WithoutBG.opensource()`; its inside belongs to the external package. */
  datatype Model = OpenSourceModel

  /** The health endpoint's JSON object. */
  datatype Health = Health(status: string, version: string, service: string, modelsLoaded: bool)

  /** The backend process; `model` is the module global `_model`. */
  class Backend {
    var model: Option<Model>

    /** Module import: `_model` is `None` until startup has run. */
    constructor ()
      ensures model == None
      ensures !ModelsLoaded()
    {
      model := None;
    }

    /** `_model is not None`. */
    predicate ModelsLoaded()
      reads this
    {
      model.Some?
    }

    /** The startup hook: store the freshly loaded model; the process is ready from now on. */
    method StartupEvent(loaded: Model)
      modifies this
      ensures model == Some(loaded)
      ensures ModelsLoaded()
    {
      model := Some(loaded);
    }

    /** The health probe: fixed status and service name, the package version, and the readiness flag. */
    method HealthCheck(version: string) returns (h: Health)
      ensures h.status == "healthy" && h.service == "withoutbg-api" && h.version == version
      ensures h.modelsLoaded <==> model.Some?
    {
      h := Health("healthy", version, "withoutbg-api", model != None);
    }

    /** The endpoint, reading `_model` for the local path and changing nothing. */
    method RemoveBackground(req: Request, env: Collaborators) returns (run: Run)
      ensures run == Handle(req, env, ModelsLoaded())
      ensures InPipelineOrder(run.stages)
      ensures !ModelsLoaded() && run.reply.Ok? ==> run.stages[2].provider.Remote?
    {
      run := Handle(req, env, model.Some?);
    }
  }

  /** What happens to the process, in order: the startup hook runs, or a client probes health. */
  datatype Event = Startup | HealthProbe

  /** Whether the model is loaded after `events`, starting from readiness `loaded`. */
  function ReadyAfter(loaded: bool, events: seq<Event>): bool
  {
    loaded || Startup in events
  }

  /** The `models_loaded` value each health probe in `events` reports, in order. */
  function Probes(loaded: bool, events: seq<Event>): (seen: seq<bool>)
    decreases |events|
  {
    if events == [] then []
    else if events[0] == Startup then Probes(true, events[1..])
    else [loaded] + Probes(loaded, events[1..])
  }

  /**
   * Runs `events` against a live backend, one after the other: a startup calls
   * the startup hook, a probe calls the health check and records what it reports.
   * What the backend reports is exactly what `Probes` predicts.
   */
  method Replay(b: Backend, events: seq<Event>, loaded: Model, version: string) returns (seen: seq<bool>)
    modifies b
    ensures seen == Probes(old(b.ModelsLoaded()), events)
    ensures b.ModelsLoaded() == ReadyAfter(old(b.ModelsLoaded()), events)
  {
    ghost var start := b.ModelsLoaded();
    seen := [];
    var i := 0;
    while i < |events|
      invariant 0 <= i <= |events|
      invariant b.ModelsLoaded() == ReadyAfter(start, events[..i])
      invariant Probes(start, events) == seen + Probes(b.ModelsLoaded(), events[i..])
    {
      assert events[..i + 1] == events[..i] + [events[i]];
      assert events[i..] == [events[i]] + events[i + 1..];
      if events[i] == Startup {
        b.StartupEvent(loaded);
      } else {
        var h := b.HealthCheck(version);
        seen := seen + [h.modelsLoaded];
      }
      i := i + 1;
    }
    assert events[..i] == events;
  }

  /** Running two stretches of events one after the other: the second starts from the first's readiness. */
  lemma {:induction false} ProbesAppend(loaded: bool, a: seq<Event>, b: seq<Event>)
    ensures Probes(loaded, a + b) == Probes(loaded, a) + Probes(ReadyAfter(loaded, a), b)
    decreases |a|
  {
    if a == [] {
      assert a + b == b;
    } else {
      assert (a + b)[1..] == a[1..] + b;
      var next := if a[0] == Startup then true else loaded;
      ProbesAppend(next, a[1..], b);
      assert ReadyAfter(next, a[1..]) == ReadyAfter(loaded, a) by {
        assert a == [a[0]] + a[1..];
      }
    }
  }

  /** Once ready, every later probe reports ready. */
  lemma {:induction false} ProbesWhenReady(events: seq<Event>)
    ensures forall i :: 0 <= i < |Probes(true, events)| ==> Probes(true, events)[i]
    decreases |events|
  {
    if events != [] {
      ProbesWhenReady(events[1..]);
    }
  }

  /** Before startup, and with no startup among the events, every probe reports not ready. */
  lemma {:induction false} ProbesBeforeStartup(events: seq<Event>)
    requires Startup !in events
    ensures forall i :: 0 <= i < |Probes(false, events)| ==> !Probes(false, events)[i]
    decreases |events|
  {
    if events != [] {
      assert Startup !in events[1..] by {
        assert events == [events[0]] + events[1..];
      }
      ProbesBeforeStartup(events[1..]);
    }
  }

  /** Readiness never reverts: a probe that saw the model loaded is followed only by probes that see it too. */
  lemma {:induction false} ReadinessNeverReverts(loaded: bool, events: seq<Event>)
    ensures forall i, j :: 0 <= i < j < |Probes(loaded, events)| && Probes(loaded, events)[i] ==>
              Probes(loaded, events)[j]
    decreases |events|
  {
    if events == [] {
    } else if events[0] == Startup {
      ProbesWhenReady(events[1..]);
    } else if loaded {
      ProbesWhenReady(events);
    } else {
      ReadinessNeverReverts(false, events[1..]);
    }
  }

  /** Every probe after a startup reports ready, and every probe from a fresh process without one reports not ready. */
  lemma ProbesAroundStartup(before: seq<Event>, after: seq<Event>)
    requires Startup !in before
    ensures Probes(false, before + [Startup] + after) == Probes(false, before) + Probes(true, after)
    ensures forall i :: 0 <= i < |Probes(false, before)| ==> !Probes(false, before)[i]
    ensures forall i :: 0 <= i < |Probes(true, after)| ==> Probes(true, after)[i]
  {
    ProbesAppend(false, before, [Startup] + after);
    assert before + [Startup] + after == before + ([Startup] + after);
    assert Probes(false, [Startup] + after) == Probes(true, after) by {
      assert ([Startup] + after)[1..] == after;
    }
    ProbesBeforeStartup(before);
    ProbesWhenReady(after);
  }
}
