/**
 The lifecycle of the telemetry bootstrap: one module-level state, changed by configure, shutdown
 and reset calls in any order, with every failure the SDK may throw at configure.
 */
module Telemetry {
  import opened Basics

  // ---------------------------------------------------------------- what the SDK may do

  /** Outcomes of building the file exporter and its reader or processor. */
  datatype FileOutcome =
    | Dedicated(raises: bool)      // the OTLP-JSON file exporter is installed; no handle is opened
    | OpenFails
    | ConsoleFails                 // the handle is open, building the console exporter raises
    | Fallback(raises: bool)       // the handle is recorded; the reader or processor may still raise

  /** Outcomes of the exporters that hold no file. */
  datatype PlainOutcome = Added | NotInstalled | Raises

  datatype Exporter = Plain(outcome: PlainOutcome) | File(file: FileOutcome)

  /** Building a provider, then installing it globally. */
  datatype ProviderOutcome = NotBuilt | BuiltNotInstalled | Installed

  datatype Env = Env(
    enabled: bool,                 // the SDK imports, the configuration resolves and says enabled
    metrics: seq<Exporter>,
    meter: ProviderOutcome,
    tracer: ProviderOutcome,       // NotBuilt: the trace SDK is missing or the constructor raises
    traces: Option<Exporter>)

  // ---------------------------------------------------------------- state

  /** File handles: numbered as they are opened; `closes` lists the close calls. */
  datatype Files = Files(metrics: Option<nat>, traces: Option<nat>, handles: nat, closes: seq<nat>)

  /**
   Providers: numbered as they are built; `meters` and `tracers` count those built since the last
   reset, `shutdowns` lists the shutdown calls.
   */
  datatype Providers = Providers(
    meter: Option<nat>, tracer: Option<nat>, built: nat, meters: nat, tracers: nat, shutdowns: seq<nat>)

  datatype Snap = Snap(configured: bool, shutdown: bool, files: Files, providers: Providers)

  const START := Snap(false, false, Files(None, None, 0, []), Providers(None, None, 0, 0, 0, []))

  // ---------------------------------------------------------------- specification

  /** What building one exporter does: whether it opens a handle, keeps it, and goes through. */
  datatype Effect = Effect(opens: bool, keeps: bool, ok: bool)

  function EffectOf(e: Exporter): Effect {
    match e
    case Plain(o) => Effect(false, false, o != Raises)
    case File(Dedicated(raises)) => Effect(false, false, !raises)
    case File(OpenFails) => Effect(false, false, false)
    case File(ConsoleFails) => Effect(true, false, false)
    case File(Fallback(raises)) => Effect(true, true, !raises)
  }

  /** Open a handle and close it again at once. */
  function OpenAndClose(f: Files): Files {
    f.(handles := f.handles + 1, closes := f.closes + [f.handles])
  }

  function AddMetrics(f: Files, e: Effect): Files {
    if !e.opens then f
    else if e.keeps then f.(handles := f.handles + 1, metrics := Some(f.handles))
    else OpenAndClose(f)
  }

  function AddTraces(f: Files, e: Effect): Files {
    if !e.opens then f
    else if e.keeps then f.(handles := f.handles + 1, traces := Some(f.handles))
    else OpenAndClose(f)
  }

  /** The loop over metrics_exporters; false when an exception leaves it. */
  function AddAllMetrics(f: Files, es: seq<Exporter>): (Files, bool)
    decreases |es|
  {
    if es == [] then (f, true)
    else
      var e := EffectOf(es[0]);
      if e.ok then AddAllMetrics(AddMetrics(f, e), es[1..]) else (AddMetrics(f, e), false)
  }

  function AddMeter(p: Providers, o: ProviderOutcome): Providers {
    match o
    case NotBuilt => p
    case BuiltNotInstalled => p.(built := p.built + 1, meters := p.meters + 1)
    case Installed => p.(built := p.built + 1, meters := p.meters + 1, meter := Some(p.built))
  }

  function AddTracer(p: Providers, installed: bool): Providers {
    p.(built := p.built + 1, tracers := p.tracers + 1, tracer := if installed then Some(p.built) else p.tracer)
  }

  /** The tracer provider and its exporter. */
  function TracesSpec(s: Snap, env: Env): Snap {
    if env.tracer == NotBuilt then s
    else
      var e := if env.traces.Some? then EffectOf(env.traces.value) else Effect(false, false, true);
      s.(files := AddTraces(s.files, e),
         providers := AddTracer(s.providers, e.ok && env.tracer == Installed))
  }

  function ConfigureSpec(s: Snap, env: Env): Snap {
    if s.configured then s
    else if !env.enabled then s.(configured := true)
    else
      var (f, ok) := AddAllMetrics(s.files, env.metrics);
      var t := s.(configured := true, files := f);
      if !ok then t
      else
        var u := t.(providers := AddMeter(s.providers, env.meter));
        if env.meter == Installed then TracesSpec(u, env) else u
  }

  function Listed(h: Option<nat>): seq<nat> {
    if h.Some? then [h.value] else []
  }

  /** Close both handles and forget them. */
  function CloseHandles(f: Files): Files {
    f.(closes := f.closes + Listed(f.metrics) + Listed(f.traces), metrics := None, traces := None)
  }

  function StopProviders(p: Providers): Providers {
    p.(shutdowns := p.shutdowns + Listed(p.meter) + Listed(p.tracer))
  }

  function ShutdownSpec(s: Snap): Snap {
    if s.shutdown then s
    else s.(shutdown := true, files := CloseHandles(s.files), providers := StopProviders(s.providers))
  }

  function ResetSpec(s: Snap): Snap {
    Snap(false, false, CloseHandles(s.files),
         s.providers.(meter := None, tracer := None, meters := 0, tracers := 0))
  }

  // ---------------------------------------------------------------- the module

  class TelemetryState {
    var configured: bool
    var shutdown: bool
    var meterProvider: Option<nat>
    var tracerProvider: Option<nat>
    var metricsFileHandle: Option<nat>
    var tracesFileHandle: Option<nat>

    // history
    var handles: nat
    var closes: seq<nat>
    var built: nat
    var meters: nat
    var tracers: nat
    var shutdowns: seq<nat>

    function FilesNow(): Files
      reads this
    {
      Files(metricsFileHandle, tracesFileHandle, handles, closes)
    }

    function ProvidersNow(): Providers
      reads this
    {
      Providers(meterProvider, tracerProvider, built, meters, tracers, shutdowns)
    }

    function Now(): Snap
      reads this
    {
      Snap(configured, shutdown, FilesNow(), ProvidersNow())
    }

    constructor ()
      ensures Now() == START
    {
      configured, shutdown := false, false;
      meterProvider, tracerProvider, metricsFileHandle, tracesFileHandle := None, None, None, None;
      handles, closes, built, meters, tracers, shutdowns := 0, [], 0, 0, 0, [];
    }

    method Configure(env: Env)
      modifies this
      ensures Now() == ConfigureSpec(old(Now()), env)
    {
      if configured { return; }
      configured := true;
      if !env.enabled { return; }
      var ok := ConfigureMetrics(env.metrics);
      if !ok { return; }
      if env.meter == NotBuilt { return; }
      var meter := built;
      built, meters := built + 1, meters + 1;
      if env.meter == BuiltNotInstalled { return; }
      meterProvider := Some(meter);
      ConfigureTraces(env);
    }

    /** The loop over metrics_exporters, with the file handle bookkeeping of its "file" branch. */
    method ConfigureMetrics(es: seq<Exporter>) returns (ok: bool)
      modifies this`handles, this`closes, this`metricsFileHandle
      ensures (FilesNow(), ok) == AddAllMetrics(old(FilesNow()), es)
    {
      var i := 0;
      while i < |es|
        invariant 0 <= i <= |es|
        invariant AddAllMetrics(FilesNow(), es[i..]) == AddAllMetrics(old(FilesNow()), es)
      {
        assert es[i..][1..] == es[i + 1..];
        var e := EffectOf(es[i]);
        if e.opens {
          var h := handles;
          handles := handles + 1;
          if e.keeps {
            metricsFileHandle := Some(h);
          } else {
            closes := closes + [h];
          }
        }
        if !e.ok { return false; }
        i := i + 1;
      }
      return true;
    }

    method ConfigureTraces(env: Env)
      modifies this`handles, this`closes, this`tracesFileHandle, this`built, this`tracers, this`tracerProvider
      ensures Now() == TracesSpec(old(Now()), env)
    {
      if env.tracer == NotBuilt { return; }
      var tracer := built;
      built, tracers := built + 1, tracers + 1;
      var e := if env.traces.Some? then EffectOf(env.traces.value) else Effect(false, false, true);
      if e.opens {
        var h := handles;
        handles := handles + 1;
        if e.keeps {
          tracesFileHandle := Some(h);
        } else {
          closes := closes + [h];
        }
      }
      if e.ok && env.tracer == Installed {
        tracerProvider := Some(tracer);
      }
    }

    method CloseFiles()
      modifies this`closes, this`metricsFileHandle, this`tracesFileHandle
      ensures FilesNow() == CloseHandles(old(FilesNow()))
    {
      if metricsFileHandle.Some? {
        closes := closes + [metricsFileHandle.value];
        metricsFileHandle := None;
      }
      if tracesFileHandle.Some? {
        closes := closes + [tracesFileHandle.value];
        tracesFileHandle := None;
      }
    }

    method Shutdown()
      modifies this
      ensures Now() == ShutdownSpec(old(Now()))
    {
      if shutdown { return; }
      shutdown := true;
      if meterProvider.Some? { shutdowns := shutdowns + [meterProvider.value]; }
      if tracerProvider.Some? { shutdowns := shutdowns + [tracerProvider.value]; }
      CloseFiles();
    }

    method Reset()
      modifies this
      ensures Now() == ResetSpec(old(Now()))
    {
      CloseFiles();
      configured, meterProvider, tracerProvider, shutdown := false, None, None, false;
      meters, tracers := 0, 0;
    }
  }

  // ---------------------------------------------------------------- call sequences

  datatype Action = Configure(env: Env) | Shutdown | Reset

  function Do(s: Snap, a: Action): Snap {
    match a
    case Configure(env) => ConfigureSpec(s, env)
    case Shutdown => ShutdownSpec(s)
    case Reset => ResetSpec(s)
  }

  function DoAll(s: Snap, run: seq<Action>): Snap {
    if run == [] then s else Do(DoAll(s, run[..|run| - 1]), run[|run| - 1])
  }

  function Count(xs: seq<nat>, x: nat): nat {
    if xs == [] then 0 else Count(xs[..|xs| - 1], x) + if xs[|xs| - 1] == x then 1 else 0
  }

  lemma {:induction false} CountAppend(xs: seq<nat>, ys: seq<nat>, x: nat)
    ensures Count(xs + ys, x) == Count(xs, x) + Count(ys, x)
    decreases |ys|
  {
    if ys == [] {
      assert xs + ys == xs;
    } else {
      var n := |ys| - 1;
      assert (xs + ys)[..|xs + ys| - 1] == xs + ys[..n];
      CountAppend(xs, ys[..n], x);
    }
  }

  lemma {:induction false} CountListed(xs: seq<nat>, h: Option<nat>, x: nat)
    ensures Count(xs + Listed(h), x) == Count(xs, x) + if h == Some(x) then 1 else 0
  {
    CountAppend(xs, Listed(h), x);
    if h.Some? {
      assert [h.value][..0] == [];
    }
  }

  lemma {:induction false} CountTwo(xs: seq<nat>, a: Option<nat>, b: Option<nat>, x: nat)
    ensures Count(xs + Listed(a) + Listed(b), x) ==
            Count(xs, x) + (if a == Some(x) then 1 else 0) + (if b == Some(x) then 1 else 0)
  {
    CountListed(xs, a, x);
    CountListed(xs + Listed(a), b, x);
  }

  lemma {:induction false} CountMember(xs: seq<nat>, x: nat)
    ensures x in xs <==> Count(xs, x) > 0
  {
    if xs == [] {
    } else {
      CountMember(xs[..|xs| - 1], x);
      assert xs == xs[..|xs| - 1] + [xs[|xs| - 1]];
    }
  }

  // ---------------------------------------------------------------- handles

  predicate Recorded(f: Files, h: nat) {
    f.metrics == Some(h) || f.traces == Some(h)
  }

  /** The handle is recorded and not closed, or closed once and not recorded. */
  ghost predicate Accounted(f: Files, h: nat) {
    Count(f.closes, h) == if Recorded(f, h) then 0 else 1
  }

  /** No handle is leaked and none is closed twice. */
  ghost predicate FilesOk(f: Files) {
    && (forall h: nat :: h < f.handles ==> Accounted(f, h))
    && (forall h: nat :: h >= f.handles ==> Count(f.closes, h) == 0 && !Recorded(f, h))
    && (f.metrics.Some? ==> f.metrics != f.traces)
  }

  ghost predicate HandlesOk(s: Snap) {
    FilesOk(s.files) && (!s.configured ==> s.files.metrics == None && s.files.traces == None)
  }

  /** How many handles the loop keeps, up to the first exporter that raises. */
  function KeptCount(es: seq<Exporter>): nat {
    if es == [] then 0
    else
      var e := EffectOf(es[0]);
      (if e.keeps then 1 else 0) + if e.ok then KeptCount(es[1..]) else 0
  }

  /** The one slot for a metrics handle is free or taken. */
  function Room(f: Files): nat {
    if f.metrics == None then 1 else 0
  }

  lemma {:induction false} OpenAndCloseOk(f: Files)
    requires FilesOk(f)
    ensures FilesOk(OpenAndClose(f))
  {
    var g := OpenAndClose(f);
    forall h: nat ensures Count(g.closes, h) == Count(f.closes, h) + if h == f.handles then 1 else 0 {
      CountListed(f.closes, Some(f.handles), h);
    }
    forall h: nat | h < g.handles ensures Accounted(g, h) {
      assert h < f.handles ==> Accounted(f, h);
    }
  }

  /** Recording a fresh handle in an empty slot. */
  lemma {:induction false} RecordOk(f: Files, g: Files)
    requires FilesOk(f) && g.closes == f.closes && g.handles == f.handles + 1
    requires
      || (f.metrics == None && g.metrics == Some(f.handles) && g.traces == f.traces)
      || (f.traces == None && g.traces == Some(f.handles) && g.metrics == f.metrics)
    ensures FilesOk(g)
  {
    assert !Recorded(f, f.handles);
    forall h: nat | h < g.handles ensures Accounted(g, h) {
      assert h < f.handles ==> Accounted(f, h);
    }
    forall h: nat | h >= g.handles ensures Count(g.closes, h) == 0 && !Recorded(g, h) {
      assert !Recorded(f, h);
    }
  }

  lemma {:induction false} AddMetricsOk(f: Files, e: Effect)
    requires FilesOk(f) && (e.opens && e.keeps ==> f.metrics == None)
    ensures FilesOk(AddMetrics(f, e))
  {
    if e.opens && e.keeps {
      RecordOk(f, AddMetrics(f, e));
    } else {
      OpenAndCloseOk(f);
    }
  }

  lemma {:induction false} AddTracesOk(f: Files, e: Effect)
    requires FilesOk(f) && f.traces == None
    ensures FilesOk(AddTraces(f, e))
  {
    if e.opens && e.keeps {
      RecordOk(f, AddTraces(f, e));
    } else {
      OpenAndCloseOk(f);
    }
  }

  lemma {:induction false} AddAllMetricsOk(f: Files, es: seq<Exporter>)
    requires FilesOk(f) && f.traces == None && KeptCount(es) <= Room(f)
    ensures FilesOk(AddAllMetrics(f, es).0) && AddAllMetrics(f, es).0.traces == None
    decreases |es|
  {
    if es == [] {
    } else {
      var e := EffectOf(es[0]);
      AddMetricsOk(f, e);
      if e.ok {
        AddAllMetricsOk(AddMetrics(f, e), es[1..]);
      }
    }
  }

  lemma {:induction false} CloseHandlesOk(f: Files)
    requires FilesOk(f)
    ensures FilesOk(CloseHandles(f))
  {
    var g := CloseHandles(f);
    forall h: nat ensures Count(g.closes, h) == Count(f.closes, h) + if Recorded(f, h) then 1 else 0 {
      CountTwo(f.closes, f.metrics, f.traces, h);
    }
    forall h: nat | h < g.handles ensures Accounted(g, h) {
      assert Accounted(f, h);
    }
  }

  // ---------------------------------------------------------------- the leak

  /** A handle that nobody can close any more. */
  ghost predicate Leaked(f: Files, h: nat) {
    h < f.handles && Count(f.closes, h) == 0 && !Recorded(f, h)
  }

  /** No step on the files reaches a leaked handle. */
  ghost predicate FreshStep(f: Files, g: Files) {
    && f.handles <= g.handles
    && (g.closes == f.closes || g.closes == f.closes + Listed(Some(f.handles)))
    && (g.metrics == f.metrics || g.metrics == Some(f.handles))
    && (g.traces == f.traces || g.traces == Some(f.handles))
  }

  lemma {:induction false} FreshKeepsLeak(f: Files, g: Files, h: nat)
    requires Leaked(f, h) && FreshStep(f, g)
    ensures Leaked(g, h)
  {
    CountListed(f.closes, Some(f.handles), h);
  }

  lemma {:induction false} MetricsKeepLeak(f: Files, es: seq<Exporter>, h: nat)
    requires Leaked(f, h)
    ensures Leaked(AddAllMetrics(f, es).0, h)
    decreases |es|
  {
    if es == [] {
    } else {
      var e := EffectOf(es[0]);
      FreshKeepsLeak(f, AddMetrics(f, e), h);
      if e.ok {
        MetricsKeepLeak(AddMetrics(f, e), es[1..], h);
      }
    }
  }

  lemma {:induction false} ConfigureKeepsLeak(s: Snap, env: Env, h: nat)
    requires Leaked(s.files, h)
    ensures Leaked(ConfigureSpec(s, env).files, h)
  {
    if !s.configured && env.enabled {
      MetricsKeepLeak(s.files, env.metrics, h);
      TracesKeepLeak(AddAllMetrics(s.files, env.metrics).0, env, h);
    }
  }

  lemma {:induction false} TracesKeepLeak(f: Files, env: Env, h: nat)
    requires Leaked(f, h)
    ensures forall s: Snap :: s.files == f ==> Leaked(TracesSpec(s, env).files, h)
  {
    FreshKeepsLeak(f, AddTraces(f, if env.traces.Some? then EffectOf(env.traces.value) else Effect(false, false, true)), h);
  }

  /** No later call, of any kind, ever closes a leaked handle. */
  lemma {:induction false} LeakIsForever(s: Snap, run: seq<Action>, h: nat)
    requires Leaked(s.files, h)
    ensures Leaked(DoAll(s, run).files, h)
    decreases |run|
  {
    if run == [] {
    } else {
      LeakIsForever(s, run[..|run| - 1], h);
      StepKeepsLeak(DoAll(s, run[..|run| - 1]), run[|run| - 1], h);
    }
  }

  lemma {:induction false} StepKeepsLeak(s: Snap, a: Action, h: nat)
    requires Leaked(s.files, h)
    ensures Leaked(Do(s, a).files, h)
  {
    CountTwo(s.files.closes, s.files.metrics, s.files.traces, h);
    if a.Configure? {
      ConfigureKeepsLeak(s, a.env, h);
    }
  }

  /** Keeping a second handle loses the first: the only record of it is overwritten. */
  lemma {:induction false} OverwriteLeaks(f: Files, e: Effect)
    requires FilesOk(f) && f.metrics.Some? && e.opens && e.keeps
    ensures Leaked(AddMetrics(f, e), f.metrics.value)
  {
    var h := f.metrics.value;
    assert Recorded(f, h);
    assert h < f.handles && Accounted(f, h);
  }

  /** More kept handles than there is room for: one of them is lost, wherever they are listed. */
  lemma {:induction false} TooManyLeak(f: Files, es: seq<Exporter>) returns (h: nat)
    requires FilesOk(f) && KeptCount(es) > Room(f)
    ensures Leaked(AddAllMetrics(f, es).0, h)
    decreases |es|
  {
    var e := EffectOf(es[0]);
    if e.keeps && f.metrics.Some? {
      h := f.metrics.value;
      OverwriteLeaks(f, e);
      MetricsKeepLeak(AddMetrics(f, e), es[1..], h);
    } else {
      AddMetricsOk(f, e);
      h := TooManyLeak(AddMetrics(f, e), es[1..]);
    }
  }

  lemma {:induction false} LeakIsNotOk(s: Snap, h: nat)
    requires Leaked(s.files, h)
    ensures !HandlesOk(s)
  {
    assert !Accounted(s.files, h);
  }

  lemma {:induction false} ConfigureOk(s: Snap, env: Env)
    requires HandlesOk(s) && !s.configured && env.enabled && KeptCount(env.metrics) <= 1
    ensures HandlesOk(ConfigureSpec(s, env))
  {
    AddAllMetricsOk(s.files, env.metrics);
    var f := AddAllMetrics(s.files, env.metrics).0;
    AddTracesOk(f, if env.traces.Some? then EffectOf(env.traces.value) else Effect(false, false, true));
  }

  /**
   An effective configure keeps the handles accounted for if and only if its metrics exporters keep
   at most one handle; otherwise some handle is lost.
   */
  lemma {:induction false} ConfigureLeaksIff(s: Snap, env: Env)
    requires HandlesOk(s) && !s.configured && env.enabled
    ensures HandlesOk(ConfigureSpec(s, env)) <==> KeptCount(env.metrics) <= 1
    ensures KeptCount(env.metrics) > 1 ==> exists h: nat :: Leaked(ConfigureSpec(s, env).files, h)
  {
    if KeptCount(env.metrics) <= 1 {
      ConfigureOk(s, env);
    } else {
      var h := TooManyLeak(s.files, env.metrics);
      TracesKeepLeak(AddAllMetrics(s.files, env.metrics).0, env, h);
      LeakIsNotOk(ConfigureSpec(s, env), h);
    }
  }

  // ---------------------------------------------------------------- handles over whole runs

  /** Whether configure has run since the last reset. */
  predicate ConfiguredBy(run: seq<Action>) {
    if run == [] then false
    else
      match run[|run| - 1]
      case Configure(_) => true
      case Shutdown => ConfiguredBy(run[..|run| - 1])
      case Reset => false
  }

  lemma {:induction false} ConfiguredMeaning(run: seq<Action>)
    ensures DoAll(START, run).configured == ConfiguredBy(run)
  {
    if run == [] {
    } else {
      ConfiguredMeaning(run[..|run| - 1]);
    }
  }

  /** Every configure that takes effect keeps at most one metrics handle. */
  predicate Harmless(run: seq<Action>) {
    run == [] || (
      var n := |run| - 1;
      && Harmless(run[..n])
      && (run[n].Configure? && run[n].env.enabled && !ConfiguredBy(run[..n]) ==>
            KeptCount(run[n].env.metrics) <= 1))
  }

  lemma {:induction false} QuietActionOk(s: Snap, a: Action)
    requires HandlesOk(s) && (a.Configure? ==> s.configured || !a.env.enabled)
    ensures HandlesOk(Do(s, a))
  {
    CloseHandlesOk(s.files);
  }

  /**
   Over every sequence of configure, shutdown and reset calls, whatever fails inside configure: each
   handle ever opened is either recorded and open or has been closed exactly once, if and only if
   every configure that took effect kept at most one metrics handle.  Otherwise a handle is lost.
   */
  lemma {:induction false} NoHandleLeaks(run: seq<Action>)
    ensures HandlesOk(DoAll(START, run)) <==> Harmless(run)
    ensures !Harmless(run) ==> exists h: nat :: Leaked(DoAll(START, run).files, h)
    decreases |run|
  {
    if run == [] {
    } else {
      var n := |run| - 1;
      var s, a := DoAll(START, run[..n]), run[n];
      NoHandleLeaks(run[..n]);
      ConfiguredMeaning(run[..n]);
      if !Harmless(run[..n]) {
        var h: nat :| Leaked(s.files, h);
        StepKeepsLeak(s, a, h);
        LeakIsNotOk(Do(s, a), h);
      } else if a.Configure? && a.env.enabled && !s.configured {
        ConfigureLeaksIff(s, a.env);
      } else {
        QuietActionOk(s, a);
      }
    }
  }

  /** A reset, or the first shutdown after one, leaves every handle closed exactly once under the same condition. */
  lemma {:induction false} HandlesReleased(run: seq<Action>, a: Action)
    requires a.Reset? || (a.Shutdown? && !DoAll(START, run).shutdown)
    ensures var f := Do(DoAll(START, run), a).files;
      (forall h: nat :: h < f.handles ==> Count(f.closes, h) == 1) <==> Harmless(run)
  {
    var s := DoAll(START, run);
    var f := Do(s, a).files;
    NoHandleLeaks(run);
    if Harmless(run) {
      QuietActionOk(s, a);
      forall h: nat | h < f.handles ensures Count(f.closes, h) == 1 {
        assert Accounted(f, h);
      }
    } else {
      var h: nat :| Leaked(s.files, h);
      StepKeepsLeak(s, a, h);
      assert h < f.handles && Count(f.closes, h) == 0;
    }
  }

  /** The least run that loses a handle: "file" listed twice, the fallback used both times. */
  lemma {:induction false} TwoFilesLeak(env: Env)
    requires env.enabled && env.metrics == [File(Fallback(false)), File(Fallback(false))]
    ensures KeptCount(env.metrics) == 2 && Leaked(DoAll(START, [Configure(env)]).files, 0)
  {
    var e := EffectOf(File(Fallback(false)));
    var f := AddMetrics(START.files, e);
    var rest := env.metrics[1..];
    assert rest == [File(Fallback(false))] && rest[1..] == [];
    assert KeptCount(rest[1..]) == 0 && KeptCount(rest) == 1;
    assert AddAllMetrics(START.files, env.metrics) == AddAllMetrics(f, rest) == (AddMetrics(f, e), true);
    assert Leaked(AddMetrics(f, e), 0);
    TracesKeepLeak(AddMetrics(f, e), env, 0);
    assert DoAll(START, [Configure(env)]) == Do(DoAll(START, []), Configure(env));
  }

  // ---------------------------------------------------------------- what a configure call builds

  /** Building this exporter ends in an exception. */
  predicate Raising(e: Exporter) {
    e in {Plain(Raises), File(Dedicated(true)), File(OpenFails), File(ConsoleFails), File(Fallback(true))}
  }

  /** This exporter opens a file of its own. */
  predicate Opening(e: Exporter) {
    e in {File(ConsoleFails), File(Fallback(true)), File(Fallback(false))}
  }

  /** The exporters that are built: all of them, or those up to the first that raises. */
  function Built(es: seq<Exporter>): seq<Exporter> {
    if es == [] then [] else [es[0]] + if Raising(es[0]) then [] else Built(es[1..])
  }

  function OpenedBy(es: seq<Exporter>): nat {
    if es == [] then 0 else OpenedBy(es[..|es| - 1]) + if Opening(es[|es| - 1]) then 1 else 0
  }

  /** The handle kept by the last fallback exporter, the handles being numbered from `first`. */
  function LastKept(es: seq<Exporter>, first: nat, before: Option<nat>): Option<nat> {
    if es == [] then before
    else
      var n := |es| - 1;
      if es[n] == File(Fallback(true)) || es[n] == File(Fallback(false)) then Some(first + OpenedBy(es[..n]))
      else LastKept(es[..n], first, before)
  }

  lemma {:induction false} OpenedCons(e: Exporter, es: seq<Exporter>)
    ensures OpenedBy([e] + es) == (if Opening(e) then 1 else 0) + OpenedBy(es)
    decreases |es|
  {
    if es == [] {
      assert [e] + es == [e] && [e][..0] == [];
    } else {
      var n := |es| - 1;
      assert ([e] + es)[..n + 1] == [e] + es[..n];
      OpenedCons(e, es[..n]);
    }
  }

  lemma {:induction false} KeptCons(e: Exporter, es: seq<Exporter>, f: Files)
    ensures var g := AddMetrics(f, EffectOf(e));
      LastKept([e] + es, f.handles, f.metrics) == LastKept(es, g.handles, g.metrics)
    decreases |es|
  {
    if es == [] {
      assert [e] + es == [e] && [e][..0] == [];
    } else {
      var n := |es| - 1;
      assert ([e] + es)[..n + 1] == [e] + es[..n];
      KeptCons(e, es[..n], f);
      OpenedCons(e, es[..n]);
    }
  }

  lemma {:induction false} RaisingMeans(e: Exporter)
    ensures EffectOf(e).ok <==> !Raising(e)
  {
  }

  /** The loop goes through exactly when no exporter raises. */
  lemma {:induction false} MetricsThrough(f: Files, es: seq<Exporter>)
    ensures AddAllMetrics(f, es).1 <==> forall i :: 0 <= i < |es| ==> !Raising(es[i])
    decreases |es|
  {
    if es == [] {
    } else {
      RaisingMeans(es[0]);
      if !Raising(es[0]) {
        MetricsThrough(AddMetrics(f, EffectOf(es[0])), es[1..]);
        assert forall i :: 0 < i < |es| ==> es[i] == es[1..][i - 1];
      }
    }
  }

  lemma {:induction false} OneBuilt(f: Files, e: Exporter)
    ensures var g := AddMetrics(f, EffectOf(e));
      g.handles == f.handles + (if Opening(e) then 1 else 0) && g.traces == f.traces
  {
  }

  /** The exporter loop in terms of the exporters that are built. */
  lemma {:induction false} MetricsBuilt(f: Files, es: seq<Exporter>)
    ensures var g := AddAllMetrics(f, es).0;
      && g.handles == f.handles + OpenedBy(Built(es))
      && g.metrics == LastKept(Built(es), f.handles, f.metrics)
      && g.traces == f.traces
    decreases |es|
  {
    if es == [] {
    } else {
      var e, more := es[0], es[1..];
      var rest := if Raising(e) then [] else Built(more);
      RaisingMeans(e);
      OneBuilt(f, e);
      OpenedCons(e, rest);
      KeptCons(e, rest, f);
      if !Raising(e) {
        MetricsBuilt(AddMetrics(f, EffectOf(e)), more);
      }
    }
  }

  /** The exporter of the traces raises. */
  predicate TracesRaise(env: Env) {
    env.traces.Some? && Raising(env.traces.value)
  }

  /**
   What a configure call that takes effect builds, from the environment alone.  Without an exception
   among the metrics exporters the meter provider is built, and recorded if it can be installed; then
   the tracer provider is built if it can be, and recorded if it can be installed and its exporter
   does not raise; its handle is recorded exactly for the fallback exporter.
   */
  lemma {:induction false} ConfigureBuilds(s: Snap, env: Env)
    requires !s.configured && env.enabled
    ensures var t, p := ConfigureSpec(s, env), s.providers;
      var clean := forall i :: 0 <= i < |env.metrics| ==> !Raising(env.metrics[i]);
      var metered := clean && env.meter == Installed;
      var traced := metered && env.tracer != NotBuilt;
      && t.configured && t.shutdown == s.shutdown && t.providers.shutdowns == p.shutdowns
      && t.providers.meter == (if metered then Some(p.built) else p.meter)
      && t.providers.meters == p.meters + (if clean && env.meter != NotBuilt then 1 else 0)
      && t.providers.tracers == p.tracers + (if traced then 1 else 0)
      && t.providers.tracer ==
         (if traced && env.tracer == Installed && !TracesRaise(env) then Some(p.built + 1) else p.tracer)
      && t.files.metrics == LastKept(Built(env.metrics), s.files.handles, s.files.metrics)
      && t.files.handles == s.files.handles + OpenedBy(Built(env.metrics)) +
         (if traced && env.traces.Some? && Opening(env.traces.value) then 1 else 0)
      && t.files.traces ==
         (if traced && env.traces.Some? && env.traces.value.File? && env.traces.value.file.Fallback?
          then Some(s.files.handles + OpenedBy(Built(env.metrics))) else s.files.traces)
  {
    MetricsThrough(s.files, env.metrics);
    MetricsBuilt(s.files, env.metrics);
  }

  /** A second configure does nothing, and one that is not enabled only sets the flag. */
  lemma {:induction false} ConfigureOtherwise(s: Snap, env: Env)
    ensures s.configured ==> ConfigureSpec(s, env) == s
    ensures !s.configured && !env.enabled ==> ConfigureSpec(s, env) == s.(configured := true)
  {
  }

  /**
   After a reset, whatever came before it, everything starts again: the next configure takes effect,
   and what it records is flushed by the next shutdown.
   */
  lemma {:induction false} ResetStartsAgain(run: seq<Action>, env: Env)
    ensures var s := ResetSpec(DoAll(START, run));
      && !s.configured && !s.shutdown
      && s.files.metrics == None && s.files.traces == None
      && s.providers.meter == None && s.providers.tracer == None
      && var t := ConfigureSpec(s, env);
         && (t.providers.meter.Some? ==> t.providers.meter.value in ShutdownSpec(t).providers.shutdowns)
         && (t.providers.tracer.Some? ==> t.providers.tracer.value in ShutdownSpec(t).providers.shutdowns)
  {
    var t := ConfigureSpec(ResetSpec(DoAll(START, run)), env);
    Included(t.providers.shutdowns, t.providers.meter, t.providers.tracer);
  }

  lemma {:induction false} Included(xs: seq<nat>, a: Option<nat>, b: Option<nat>)
    ensures a.Some? ==> a.value in xs + Listed(a) + Listed(b)
    ensures b.Some? ==> b.value in xs + Listed(a) + Listed(b)
  {
    if a.Some? {
      assert (xs + Listed(a))[|xs|] == a.value;
    }
    if b.Some? {
      assert (xs + Listed(a) + Listed(b))[|xs + Listed(a)|] == b.value;
    }
  }

  // ---------------------------------------------------------------- providers

  /** Each provider shut down at most once, and those recorded are among the ones built. */
  ghost predicate ListsOk(p: Providers) {
    && p.meters <= 1 && p.tracers <= 1
    && (p.meter.Some? ==> p.meter.value < p.built && p.meter != p.tracer)
    && (p.tracer.Some? ==> p.tracer.value < p.built)
    && (forall x: nat :: Count(p.shutdowns, x) <= 1)
    && (forall x: nat :: x >= p.built ==> Count(p.shutdowns, x) == 0)
  }

  ghost predicate Untouched(p: Providers, x: Option<nat>) {
    x.Some? ==> Count(p.shutdowns, x.value) == 0
  }

  ghost predicate ProvidersOk(s: Snap) {
    var p := s.providers;
    && ListsOk(p)
    && (!s.configured ==> p.meters == 0 && p.tracers == 0 && p.meter == None && p.tracer == None)
    && (!s.shutdown ==> Untouched(p, p.meter) && Untouched(p, p.tracer))
  }

  lemma {:induction false} ConfigureProviders(s: Snap, env: Env)
    requires ProvidersOk(s)
    ensures ProvidersOk(ConfigureSpec(s, env))
  {
    if !s.configured {
      var p := AddMeter(s.providers, env.meter);
      assert ListsOk(p) && Untouched(p, p.meter);
      var b := if env.traces.Some? then EffectOf(env.traces.value).ok && env.tracer == Installed else env.tracer == Installed;
      var q := AddTracer(p, b);
      assert ListsOk(q) && Untouched(q, q.meter) && Untouched(q, q.tracer);
    }
  }

  lemma {:induction false} ShutdownProviders(s: Snap)
    requires ProvidersOk(s)
    ensures ProvidersOk(ShutdownSpec(s))
  {
    var p := s.providers;
    forall x: nat
      ensures Count(StopProviders(p).shutdowns, x) ==
        Count(p.shutdowns, x) + (if p.meter == Some(x) then 1 else 0) + (if p.tracer == Some(x) then 1 else 0)
    {
      CountTwo(p.shutdowns, p.meter, p.tracer, x);
    }
  }

  /**
   Over every sequence of calls: between two resets at most one meter and one tracer provider are
   built, and no provider is ever shut down twice.
   */
  lemma {:induction false} ProvidersShutDownOnce(run: seq<Action>)
    ensures ProvidersOk(DoAll(START, run))
    decreases |run|
  {
    if run == [] {
    } else {
      ProvidersShutDownOnce(run[..|run| - 1]);
      var s := DoAll(START, run[..|run| - 1]);
      match run[|run| - 1]
      case Configure(env) => ConfigureProviders(s, env);
      case Shutdown => ShutdownProviders(s);
      case Reset =>
    }
  }

  // ---------------------------------------------------------------- flushing

  /** Nothing but a reset takes the providers back or re-arms shutdown. */
  lemma {:induction false} ShutdownStays(s: Snap, run: seq<Action>)
    requires s.shutdown && s.configured && forall i :: 0 <= i < |run| ==> !run[i].Reset?
    ensures var t := DoAll(s, run); t.shutdown && t.configured && t.providers == s.providers
    decreases |run|
  {
    if run == [] {
    } else {
      ShutdownStays(s, run[..|run| - 1]);
    }
  }

  /**
   A meter provider built by a configure call is flushed by the next shutdown if and only if no
   shutdown was called before that configure, in any continuation without a reset: the documented
   no-op on an unconfigured state sets the flag that makes every later shutdown return at once.
   */
  lemma {:induction false} FlushedIffNotShutDownBefore(s: Snap, env: Env, run: seq<Action>)
    requires ProvidersOk(s) && !s.configured && ConfigureSpec(s, env).providers.meter.Some?
    requires forall i :: 0 <= i < |run| ==> !run[i].Reset?
    ensures var t := ConfigureSpec(s, env);
      var stopped := DoAll(ShutdownSpec(t), run).providers.shutdowns;
      && (t.providers.meter.value in stopped <==> !s.shutdown)
      && (t.providers.tracer.Some? ==> (t.providers.tracer.value in stopped <==> !s.shutdown))
  {
    var t := ConfigureSpec(s, env);
    ShutdownStays(ShutdownSpec(t), run);
    var p := t.providers;
    assert p.shutdowns == s.providers.shutdowns;
    forall x: nat | x >= s.providers.built
      ensures x !in p.shutdowns
      ensures x in StopProviders(p).shutdowns <==> p.meter == Some(x) || p.tracer == Some(x)
    {
      CountMember(p.shutdowns, x);
      CountMember(StopProviders(p).shutdowns, x);
      CountTwo(p.shutdowns, p.meter, p.tracer, x);
    }
  }
}
