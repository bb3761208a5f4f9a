/** The GL base audio visualizer (`gstglbaseaudiovisualizer.c`): the element
    state that finds, starts, stops and renders with an OpenGL context.

    Each entry point runs under the element's recursive lock and is modelled
    as one atomic transition on an immutable `State`. Work dispatched to the
    GL thread (`gst_gl_context_thread_add`, `gst_gl_window_send_message`) is
    synchronous and is modelled as a direct call. The display, context and
    pool library calls are answered by oracle values the caller passes in;
    the subclass's virtual methods are the pure functions of a `Subclass`
    record over the subclass's own state `S`. */
module GlBase {
  import opened Wrappers

  /* ----- GL API bitmask (GstGLAPI) ----- */

  type GlApi = bv32

  const GL_API_NONE: GlApi := 0
  const GL_API_OPENGL: GlApi := 1
  const GL_API_OPENGL3: GlApi := 2
  const GL_API_GLES1: GlApi := 0x8000
  const GL_API_GLES2: GlApi := 0x1_0000
  const GL_API_ANY: GlApi := 0xffff_ffff

  /* ----- objects ----- */

  /** An opaque GL display. */
  type DisplayId = nat

  /** A GL context: its identity, the display it belongs to and the GL API
      it was created for. */
  datatype Context = Context(id: nat, display: DisplayId, api: GlApi)

  /** The element: the public `display` and `context` pointers and the
      private `other_context`, `gl_started`, `gl_result` and `n_frames`,
      plus the subclass's own state. */
  datatype State<S> = State(
    display: Option<DisplayId>,
    context: Option<Context>,
    otherContext: Option<Context>,
    glStarted: bool,
    glResult: bool,
    nFrames: nat,
    sub: S)

  /** What `gl_render` is given for one frame: the samples of the audio
      buffer and the video frame to draw into (opaque). */
  datatype Frame = Frame(audio: seq<int>, video: nat)

  /** The class structure a subclass fills in: the GL APIs it supports and
      its `gl_start`, `gl_stop` and `gl_render` virtual methods. */
  datatype Subclass<!S> = Subclass(
    supportedApi: GlApi,
    glStart: S -> (S, bool),
    glStop: S -> S,
    glRender: (S, Frame) -> (S, bool))

  /** The base class's own defaults: any API, a start and a render that
      succeed, a stop that does nothing. */
  function DefaultSubclass<S(!new)>(): (c: Subclass<S>)
    ensures forall ctx: Context :: ctx.api != GL_API_NONE ==> ApiCompatible(ctx, c)
    ensures forall x: S :: c.glStart(x) == (x, true) && c.glStop(x) == x
    ensures forall x: S, f: Frame :: c.glRender(x, f) == (x, true)
  {
    Subclass(GL_API_ANY, (x: S) => (x, true), (x: S) => x, (x: S, f: Frame) => (x, true))
  }

  /** The element errors the base class posts. */
  datatype ElementError =
    | ContextNotFound(message: Option<string>)
    | ApiNotCompatible(found: GlApi, supported: GlApi)
    | SubclassInitFailed
    | RenderFailed

  /** What an entry point did besides changing the state: which subclass
      hook ran on which context's thread, and which errors it posted. */
  datatype Event =
    | StartHookRan(on: Context)
    | StopHookRan(on: Context)
    | RenderHookRan(on: Context)
    | ErrorPosted(error: ElementError)

  /** The outcome of an entry point that returns a `gboolean`. */
  datatype Step<S> = Step(state: State<S>, ok: bool, events: seq<Event>)

  /** The outcome of an entry point that returns nothing. */
  datatype Effect<S> = Effect(state: State<S>, events: seq<Event>)

  /** `context` exists and belongs to `display`. */
  predicate OnDisplay(context: Option<Context>, display: Option<DisplayId>) {
    context.Some? && display == Some(context.value.display)
  }

  /* ----- init, start ----- */

  /** `gst_gl_base_audio_visualizer_init` (which calls `..._start`): not
      started, last render result `TRUE`, no context, no frames. The
      display and other-context pointers start `NULL`. */
  function Init<S>(sub: S): (s: State<S>)
    ensures !s.glStarted && s.glResult && s.nFrames == 0
    ensures s.context.None? && s.display.None? && s.otherContext.None?
    ensures s.sub == sub
  {
    State(None, None, None, false, true, 0, sub)
  }

  /* ----- GL-thread wrappers of the subclass hooks ----- */

  /** `gst_gl_base_audio_visualizer_gl_start`, run on the thread of `on`:
      `gl_started` becomes whatever the subclass's `gl_start` returns. */
  function GlStartWrapper<S>(s: State<S>, on: Context, c: Subclass<S>): (r: Effect<S>)
    ensures r.events == [StartHookRan(on)]
    ensures r.state.glStarted == c.glStart(s.sub).1
    ensures r.state.sub == c.glStart(s.sub).0
    ensures r.state == s.(glStarted := r.state.glStarted, sub := r.state.sub)
  {
    var (sub', ok) := c.glStart(s.sub);
    Effect(s.(glStarted := ok, sub := sub'), [StartHookRan(on)])
  }

  /** `gst_gl_base_audio_visualizer_gl_stop`, run on the thread of `on`:
      the subclass's `gl_stop` runs only if the element was started, and
      afterwards it is not started either way. */
  function GlStopWrapper<S>(s: State<S>, on: Context, c: Subclass<S>): (r: Effect<S>)
    ensures !r.state.glStarted
    ensures |r.events| == 1 <==> s.glStarted
    ensures s.glStarted ==> r.events == [StopHookRan(on)] && r.state.sub == c.glStop(s.sub)
    ensures !s.glStarted ==> r.events == [] && r.state == s
    ensures r.state == s.(glStarted := false, sub := r.state.sub)
  {
    if s.glStarted then Effect(s.(glStarted := false, sub := c.glStop(s.sub)), [StopHookRan(on)])
    else Effect(s.(glStarted := false), [])
  }

  /* ----- render ----- */

  /** `gst_gl_base_audio_visualizer_render`: the subclass's `gl_render`
      runs on the thread of the current context (which is used as it is,
      without being looked up again) with the frame's audio and video; its
      result is stored in `gl_result` and returned; the frame counter
      advances exactly when it succeeded, and a failure posts "failed to
      render". */
  function Render<S>(s: State<S>, c: Subclass<S>, f: Frame): (r: Step<S>)
    requires s.context.Some?
    ensures r.ok == r.state.glResult == c.glRender(s.sub, f).1
    ensures r.state.sub == c.glRender(s.sub, f).0
    ensures r.state.nFrames == s.nFrames + 1 <==> r.ok
    ensures r.state.nFrames == s.nFrames <==> !r.ok
    ensures |r.events| > 0 && r.events[0] == RenderHookRan(s.context.value)
    ensures ErrorPosted(RenderFailed) in r.events <==> !r.ok
    ensures r.state == s.(glResult := r.ok, nFrames := r.state.nFrames, sub := r.state.sub)
  {
    var (sub', ok) := c.glRender(s.sub, f);
    var s' := s.(glResult := ok, sub := sub');
    if ok then Step(s'.(nFrames := s.nFrames + 1), true, [RenderHookRan(s.context.value)])
    else Step(s', false, [RenderHookRan(s.context.value), ErrorPosted(RenderFailed)])
  }

  /* ----- stop ----- */

  /** `gst_gl_base_audio_visualizer_stop`, whose only caller is
      `finalize`: when there is a context and the element was started, the
      stop wrapper runs on that context's thread; the context is dropped in
      every case. */
  function Stop<S>(s: State<S>, c: Subclass<S>): (r: Effect<S>)
    ensures r.state.context.None?
    ensures r.events != [] <==> s.context.Some? && s.glStarted
    ensures r.events != [] ==> r.events == [StopHookRan(s.context.value)]
    ensures s.context.Some? ==> !r.state.glStarted
    ensures s.context.None? ==> r.state == s
    ensures r.state.display == s.display && r.state.otherContext == s.otherContext
    ensures r.state.nFrames == s.nFrames && r.state.glResult == s.glResult
  {
    if s.context.Some? && s.glStarted then
      var e := GlStopWrapper(s, s.context.value, c);
      Effect(e.state.(context := None), e.events)
    else Effect(s.(context := None), [])
  }

  /* ----- finding a context ----- */

  /** `_find_local_gl_context_unlocked`: keep the current context when it is
      on the element's display; otherwise, when no context is held, adopt
      the context the local context query answered (`local`) if it is on
      that display. The query is seeded with the held context and
      `gst_gl_query_local_gl_context` hands a non-`NULL` seed straight
      back, so a held context on another display is kept and the lookup
      fails. The result says whether the element now has a context on its
      display. */
  function FindLocal<S>(s: State<S>, local: Option<Context>): (r: (State<S>, bool))
    ensures r.1 <==> OnDisplay(r.0.context, s.display)
    ensures r.0 == s.(context := r.0.context)
    ensures OnDisplay(s.context, s.display) ==> r.0 == s
    ensures s.context.Some? ==> r.0 == s
    ensures r.0.context != s.context ==> s.context.None? && r.0.context == local && OnDisplay(local, s.display)
    ensures !OnDisplay(local, s.display) ==> r.0 == s
  {
    if OnDisplay(s.context, s.display) then (s, true)
    else if s.context.None? && OnDisplay(local, s.display) then (s.(context := local), true)
    else (s, false)
  }

  /** The result of creating a context (`gst_gl_display_create_context`). */
  datatype CreateResult = Created(context: Context) | CreateFailed(message: Option<string>)

  /** The library's answers in one round of the create-and-register loop:
      the display's context for this thread, what creation would give when
      there is none, and whether `gst_gl_display_add_context` accepts. */
  datatype Attempt = Attempt(forThread: Option<Context>, create: CreateResult, added: bool)

  /** The context a round ends up holding, if any. */
  function AttemptContext(a: Attempt): (r: Option<Context>)
    ensures r.None? <==> a.forThread.None? && a.create.CreateFailed?
  {
    if a.forThread.Some? then a.forThread
    else if a.create.Created? then Some(a.create.context)
    else None
  }

  /** A round that leaves the loop: creation failed or registration
      succeeded. */
  predicate EndsLoop(a: Attempt) {
    AttemptContext(a).None? || a.added
  }

  /** Some round leaves the loop. */
  predicate LoopEnds(attempts: seq<Attempt>) {
    |attempts| > 0 && (EndsLoop(attempts[0]) || LoopEnds(attempts[1..]))
  }

  /** How the loop ended, and in which round. */
  datatype LoopResult =
    | Registered(context: Context, round: nat)
    | CreateError(message: Option<string>, round: nat)

  /** The create-and-register loop: every round drops the context held,
      takes the display's context for this thread or else creates one
      (leaving on failure), and repeats until the display accepts it. */
  function RegisterLoop(attempts: seq<Attempt>): (r: LoopResult)
    requires LoopEnds(attempts)
    ensures r.round < |attempts|
    ensures forall j :: 0 <= j < r.round ==> AttemptContext(attempts[j]).Some? && !attempts[j].added
    ensures r.Registered? ==> attempts[r.round].added && AttemptContext(attempts[r.round]) == Some(r.context)
    ensures r.CreateError? ==> attempts[r.round].forThread.None? && attempts[r.round].create == CreateFailed(r.message)
  {
    var a := attempts[0];
    if AttemptContext(a).None? then CreateError(a.create.message, 0)
    else if a.added then Registered(AttemptContext(a).value, 0)
    else
      match RegisterLoop(attempts[1..])
      case Registered(ctx, n) => Registered(ctx, n + 1)
      case CreateError(m, n) => CreateError(m, n + 1)
  }

  /** The library's answers to one context lookup: what
      `gst_gl_ensure_element_data` leaves in the display and other-context
      pointers, what the local context query returns, and the rounds of the
      create-and-register loop. */
  datatype GlWorld = GlWorld(
    ensuredDisplay: Option<DisplayId>,
    ensuredOther: Option<Context>,
    localContext: Option<Context>,
    attempts: seq<Attempt>)

  /** Only start hooks on `on` appear in `events`. */
  predicate StartsOnlyOn(events: seq<Event>, on: Context) {
    forall e :: e in events && e.StartHookRan? ==> e.on == on
  }

  /** The context's GL API intersects the APIs the subclass supports. */
  predicate ApiCompatible<S>(ctx: Context, c: Subclass<S>) {
    ctx.api & c.supportedApi != 0
  }

  /** The API check and start of `find_gl_context_unlocked`, on a held
      context after the previous start was undone: a context whose API does
      not intersect the supported ones is refused before the subclass sees
      it; otherwise the start wrapper runs on its thread and must start. */
  function StartChecked<S>(s: State<S>, c: Subclass<S>): (r: Step<S>)
    requires s.context.Some? && !s.glStarted
    ensures r.state == s.(glStarted := r.state.glStarted, sub := r.state.sub)
    ensures r.ok <==> r.state.glStarted
    ensures !ApiCompatible(s.context.value, c) ==>
              r == Step(s, false, [ErrorPosted(ApiNotCompatible(s.context.value.api, c.supportedApi))])
    ensures ApiCompatible(s.context.value, c) ==>
              && r.ok == c.glStart(s.sub).1 && r.state.sub == c.glStart(s.sub).0
              && r.events == (if r.ok then [StartHookRan(s.context.value)]
                              else [StartHookRan(s.context.value), ErrorPosted(SubclassInitFailed)])
  {
    var ctx := s.context.value;
    if !ApiCompatible(ctx, c) then
      Step(s, false, [ErrorPosted(ApiNotCompatible(ctx.api, c.supportedApi))])
    else
      var started := GlStartWrapper(s, ctx, c);
      if !started.state.glStarted then
        Step(started.state, false, started.events + [ErrorPosted(SubclassInitFailed)])
      else
        Step(started.state, true, started.events)
  }

  /** The tail of `find_gl_context_unlocked` once a context is held: when
      the context is new or the element not started, stop what was started
      (on the thread of the context now held) and then check and start;
      otherwise nothing happens. */
  function StartIfNeeded<S>(s: State<S>, newContext: bool, c: Subclass<S>): (r: Step<S>)
    requires s.context.Some?
    ensures r.state.context == s.context && r.state.display == s.display
    ensures r.state.otherContext == s.otherContext && r.state.nFrames == s.nFrames
    ensures r.state.glResult == s.glResult
    ensures r.ok <==> r.state.glStarted
    ensures !newContext && s.glStarted ==> r == Step(s, true, [])
    ensures StartsOnlyOn(r.events, s.context.value)
    ensures StartHookRan(s.context.value) in r.events <==>
              (newContext || !s.glStarted) && ApiCompatible(s.context.value, c)
    ensures (newContext || !s.glStarted) && s.glStarted ==>
              |r.events| > 0 && r.events[0] == StopHookRan(s.context.value)
    ensures (newContext || !s.glStarted) ==>
              |r.events| > 0 && (!r.ok <==> r.events[|r.events| - 1].ErrorPosted?)
    ensures (newContext || !s.glStarted) && !ApiCompatible(s.context.value, c) ==>
              r.events[|r.events| - 1] == ErrorPosted(ApiNotCompatible(s.context.value.api, c.supportedApi))
    ensures (newContext || !s.glStarted) && ApiCompatible(s.context.value, c) && !r.ok ==>
              r.events[|r.events| - 1] == ErrorPosted(SubclassInitFailed)
  {
    if newContext || !s.glStarted then
      var stopped := GlStopWrapper(s, s.context.value, c);
      var r := StartChecked(stopped.state, c);
      Step(r.state, r.ok, stopped.events + r.events)
    else Step(s, true, [])
  }

  /** The context a lookup on a set display ends with: the held one when it
      is on the display; else a held context on another display, kept as
      it is; else the queried one when that is on the display; else the one
      the loop registered, or none after a creation error. */
  predicate FoundContext<S>(s: State<S>, w: GlWorld, found: Option<Context>)
    requires LoopEnds(w.attempts)
  {
    if OnDisplay(s.context, w.ensuredDisplay) then found == s.context
    else if s.context.Some? then found == s.context
    else if OnDisplay(w.localContext, w.ensuredDisplay) then found == w.localContext
    else match RegisterLoop(w.attempts)
         case Registered(ctx, _) => found == Some(ctx)
         case CreateError(_, _) => found.None?
  }

  /** `gst_gl_base_audio_visualizer_find_gl_context_unlocked`. */
  function Find<S>(s: State<S>, w: GlWorld, c: Subclass<S>): (r: Step<S>)
    requires LoopEnds(w.attempts)
    ensures r.state.display == w.ensuredDisplay && r.state.otherContext == w.ensuredOther
    ensures r.state.nFrames == s.nFrames && r.state.glResult == s.glResult
    ensures r.ok ==> r.state.context.Some? && r.state.glStarted
    ensures w.ensuredDisplay.None? ==>
              r == Step(s.(display := None, otherContext := w.ensuredOther), false, [])
    ensures forall e :: e in r.events && e.StartHookRan? ==> s.context.None? || !s.glStarted
    ensures s.context.Some? && s.glStarted && OnDisplay(s.context, w.ensuredDisplay) ==>
              r == Step(s.(display := w.ensuredDisplay, otherContext := w.ensuredOther), true, [])
    ensures (exists m :: ErrorPosted(ContextNotFound(m)) in r.events) ==> r.state.context.None? && !r.ok
    ensures w.ensuredDisplay.Some? ==> FoundContext(s, w, r.state.context)
    ensures w.ensuredDisplay.Some? && r.state.context.None? ==>
              && RegisterLoop(w.attempts).CreateError? && !r.ok
              && r.events == [ErrorPosted(ContextNotFound(RegisterLoop(w.attempts).message))]
    ensures w.ensuredDisplay.Some? && r.state.context.Some? ==>
              r == StartIfNeeded(s.(display := w.ensuredDisplay, otherContext := w.ensuredOther,
                                    context := r.state.context), s.context.None?, c)
  {
    var newContext := s.context.None?;
    var s1 := s.(display := w.ensuredDisplay, otherContext := w.ensuredOther);
    if s1.display.None? then Step(s1, false, [])
    else
      var s2 := FindLocal(s1, w.localContext).0;
      if s2.context.None? then
        match RegisterLoop(w.attempts)
        case CreateError(m, _) => Step(s2, false, [ErrorPosted(ContextNotFound(m))])
        case Registered(ctx, _) =>
          StartIfNeeded(s2.(context := Some(ctx)), newContext, c)
      else
        StartIfNeeded(s2, newContext, c)
  }

  /* ----- state changes and context changes ----- */

  datatype StateChange =
    | NullToReady | ReadyToPaused | PausedToPlaying
    | PlayingToPaused | PausedToReady | ReadyToNull

  datatype StateChangeReturn = Failure | Success | Async | NoPreroll

  /** `gst_gl_base_audio_visualizer_change_state`, given what the parent
      class's `change_state` returned: a failure is passed on untouched;
      otherwise `READY_TO_NULL` drops the display and the other context.
      The context and the started flag are left as they are. */
  function ChangeState<S>(s: State<S>, transition: StateChange, parent: StateChangeReturn): (r: (State<S>, StateChangeReturn))
    ensures r.1 == parent
    ensures parent == Failure || transition != ReadyToNull ==> r.0 == s
    ensures parent != Failure && transition == ReadyToNull ==>
              r.0.display.None? && r.0.otherContext.None?
    ensures r.0 == s.(display := r.0.display, otherContext := r.0.otherContext)
  {
    if parent == Failure then (s, parent)
    else if transition == ReadyToNull then (s.(display := None, otherContext := None), parent)
    else (s, parent)
  }

  /** `set_context` looks for a new GL context exactly when the display was
      set before and after and changed. */
  predicate DisplayReplaced(before: Option<DisplayId>, after: Option<DisplayId>) {
    before.Some? && after.Some? && before != after
  }

  /** `gst_gl_base_audio_visualizer_set_context`, given the display and
      other context `gst_gl_handle_set_context` leaves: when the display was
      replaced by another one, the context is dropped (without running the
      stop hook) and looked up again; otherwise only the two pointers
      change. */
  function SetContext<S>(s: State<S>, newDisplay: Option<DisplayId>, newOther: Option<Context>,
                         w: GlWorld, c: Subclass<S>): (r: Effect<S>)
    requires DisplayReplaced(s.display, newDisplay) ==> LoopEnds(w.attempts)
    ensures !DisplayReplaced(s.display, newDisplay) ==>
              r == Effect(s.(display := newDisplay, otherContext := newOther), [])
    ensures DisplayReplaced(s.display, newDisplay) ==>
              var f := Find(s.(display := newDisplay, otherContext := newOther, context := None), w, c);
              r == Effect(f.state, f.events)
    ensures r.state.nFrames == s.nFrames
  {
    var s1 := s.(display := newDisplay, otherContext := newOther);
    if DisplayReplaced(s.display, newDisplay) then
      var f := Find(s1.(context := None), w, c);
      Effect(f.state, f.events)
    else Effect(s1, [])
  }

  /** A display change drops the context without stopping the subclass, so
      when the element was started and a new context is found, the
      subclass's stop hook runs first, on the thread of the new context
      rather than the one it was started on. */
  lemma SetContextStopsOnNewContext<S>(s: State<S>, newDisplay: Option<DisplayId>, newOther: Option<Context>,
                                       w: GlWorld, c: Subclass<S>)
    requires LoopEnds(w.attempts)
    requires DisplayReplaced(s.display, newDisplay) && s.glStarted
    requires SetContext(s, newDisplay, newOther, w, c).state.context.Some?
    ensures var r := SetContext(s, newDisplay, newOther, w, c);
            r.events[0] == StopHookRan(r.state.context.value)
  {
  }

  /* ----- allocation ----- */

  /** Buffer pool configuration options. */
  datatype PoolOption = VideoMetaOption | GlSyncMetaOption | TextureUploadMetaOption

  /** Opaque caps. */
  type CapsId = nat

  /** A buffer pool configuration: the parameters and the option list. */
  datatype PoolConfig = PoolConfig(caps: Option<CapsId>, size: nat, min: nat, max: nat, options: seq<PoolOption>)

  /** A buffer pool: its identity, whether it is a GL buffer pool, its
      configuration, and whether `gst_buffer_pool_set_config` would accept
      a new one (it refuses while the pool is active or has buffers
      outstanding, and the pool then keeps its configuration). */
  datatype BufferPool = BufferPool(id: nat, glBacked: bool, config: PoolConfig, acceptsConfig: bool)

  /** One pool entry of an allocation query. */
  datatype PoolEntry = PoolEntry(pool: Option<BufferPool>, size: nat, min: nat, max: nat)

  /** An allocation query: the caps, the frame size those caps give, the
      pools proposed so far and whether downstream asked for the GL sync
      meta. */
  datatype AllocationQuery = AllocationQuery(caps: CapsId, frameSize: nat, pools: seq<PoolEntry>, glSyncMetaRequested: bool)

  /** The configuration of a freshly created GL buffer pool. */
  const EmptyConfig := PoolConfig(None, 0, 0, 0, [])

  /** `gst_buffer_pool_config_add_option`: appends the option unless it is
      already there. */
  function AddOption(options: seq<PoolOption>, o: PoolOption): (r: seq<PoolOption>)
    ensures forall x :: x in r <==> x in options || x == o
    ensures |options| <= |r| <= |options| + 1
    ensures r[..|options|] == options
  {
    if o in options then options else options + [o]
  }

  /** The result of `decide_allocation`: the element's step and the query
      as the element leaves it. */
  datatype Allocation<S> = Allocation(step: Step<S>, query: AllocationQuery)

  /** The pool the query offers in its first entry, if any. */
  function OfferedPool(q: AllocationQuery): Option<BufferPool> {
    if |q.pools| > 0 then q.pools[0].pool else None
  }

  /** The pool entry `decide_allocation` chooses: the offered pool when it is
      a GL pool, a fresh GL pool (`newPoolId`) otherwise, with the offered
      size and bounds, or the frame size and no bounds when nothing was
      offered. The pool is given a configuration with the caps, the
      parameters and the options; the return value of
      `gst_buffer_pool_set_config` is ignored, so a pool that refuses keeps
      its old configuration and is used all the same. */
  function ChosenEntry(q: AllocationQuery, newPoolId: nat): (e: PoolEntry)
    ensures e.pool.Some? && e.pool.value.glBacked
    ensures OfferedPool(q).Some? && OfferedPool(q).value.glBacked ==>
              e.pool.value == OfferedPool(q).value.(config := e.pool.value.config)
    ensures !(OfferedPool(q).Some? && OfferedPool(q).value.glBacked) ==> e.pool.value.id == newPoolId
    ensures |q.pools| > 0 ==> e.size == q.pools[0].size && e.min == q.pools[0].min && e.max == q.pools[0].max
    ensures |q.pools| == 0 ==> e.size == q.frameSize && e.min == 0 && e.max == 0
    ensures !e.pool.value.acceptsConfig ==> e.pool == OfferedPool(q)
    ensures e.pool.value.acceptsConfig ==>
              var cfg := e.pool.value.config;
              cfg.caps == Some(q.caps) && cfg.size == e.size && cfg.min == e.min && cfg.max == e.max
    ensures e.pool.value.acceptsConfig ==>
              var opts := e.pool.value.config.options;
              VideoMetaOption in opts && TextureUploadMetaOption in opts
    ensures e.pool.value.acceptsConfig ==>
              (GlSyncMetaOption in e.pool.value.config.options <==>
                 q.glSyncMetaRequested ||
                 (OfferedPool(q).Some? && OfferedPool(q).value.glBacked &&
                  GlSyncMetaOption in OfferedPool(q).value.config.options))
  {
    var offered := OfferedPool(q);
    var (size, min, max) :=
      if |q.pools| > 0 then (q.pools[0].size, q.pools[0].min, q.pools[0].max) else (q.frameSize, 0, 0);
    var pool := if offered.Some? && offered.value.glBacked then offered.value
                else BufferPool(newPoolId, true, EmptyConfig, true);
    var o1 := AddOption(pool.config.options, VideoMetaOption);
    var o2 := if q.glSyncMetaRequested then AddOption(o1, GlSyncMetaOption) else o1;
    var o3 := AddOption(o2, TextureUploadMetaOption);
    var cfg := PoolConfig(Some(q.caps), size, min, max, o3);
    PoolEntry(Some(if pool.acceptsConfig then pool.(config := cfg) else pool), size, min, max)
  }

  /** `gst_gl_base_audio_visualizer_decide_allocation`: find a context (the
      query is untouched when that fails), then write the chosen pool into
      entry 0 of the query when it offered one and append it otherwise. */
  function DecideAllocation<S>(s: State<S>, w: GlWorld, c: Subclass<S>, q: AllocationQuery, newPoolId: nat): (r: Allocation<S>)
    requires LoopEnds(w.attempts)
    ensures r.step == Find(s, w, c)
    ensures !r.step.ok ==> r.query == q
    ensures r.query.caps == q.caps && r.query.frameSize == q.frameSize
    ensures r.query.glSyncMetaRequested == q.glSyncMetaRequested
    ensures r.step.ok ==> |r.query.pools| > 0 && r.query.pools[0] == ChosenEntry(q, newPoolId)
    ensures r.step.ok && |q.pools| > 0 ==> r.query.pools == q.pools[0 := ChosenEntry(q, newPoolId)]
    ensures r.step.ok && |q.pools| == 0 ==> r.query.pools == [ChosenEntry(q, newPoolId)]
  {
    var f := Find(s, w, c);
    if !f.ok then Allocation(f, q)
    else
      var e := ChosenEntry(q, newPoolId);
      if |q.pools| > 0 then Allocation(f, q.(pools := q.pools[0 := e]))
      else Allocation(f, q.(pools := q.pools + [e]))
  }

  /** After a successful allocation the query's first pool is a GL pool;
      when it accepted its configuration it carries the video and
      texture-upload meta options, and the GL sync meta option whenever
      downstream asked for it; when it refused, it is the offered pool
      unchanged. */
  lemma AllocatedPoolIsGl<S>(s: State<S>, w: GlWorld, c: Subclass<S>, q: AllocationQuery, newPoolId: nat)
    requires LoopEnds(w.attempts)
    requires DecideAllocation(s, w, c, q, newPoolId).step.ok
    ensures var p := DecideAllocation(s, w, c, q, newPoolId).query.pools[0].pool;
            && p.Some? && p.value.glBacked
            && (p.value.acceptsConfig ==>
                  && VideoMetaOption in p.value.config.options
                  && TextureUploadMetaOption in p.value.config.options
                  && (q.glSyncMetaRequested ==> GlSyncMetaOption in p.value.config.options))
            && (!p.value.acceptsConfig ==> p == OfferedPool(q))
  {
  }

  /* ----- properties over several calls ----- */

  /** A successful lookup is stable: looking up again with the same library
      answers keeps everything and runs no hook. */
  lemma FindIdempotent<S>(s: State<S>, w: GlWorld, c: Subclass<S>)
    requires LoopEnds(w.attempts)
    requires Find(s, w, c).ok
    ensures Find(Find(s, w, c).state, w, c) == Step(Find(s, w, c).state, true, [])
  {
  }

  /** A successful lookup that starts without a context (a new element,
      or one whose context `set_context` dropped) counts the context it
      finds as new and runs the start hook on it, even when the element was
      already started. */
  lemma FindWithoutContextStarts<S>(s: State<S>, w: GlWorld, c: Subclass<S>)
    requires LoopEnds(w.attempts)
    requires s.context.None? && Find(s, w, c).ok
    ensures var r := Find(s, w, c);
            StartHookRan(r.state.context.value) in r.events
  {
  }

  /** Stopping twice runs the stop hook at most once. */
  lemma StopTwice<S>(s: State<S>, c: Subclass<S>)
    ensures Stop(Stop(s, c).state, c) == Effect(Stop(s, c).state, [])
  {
  }

  /** Two renders in a row run the hook twice on the same context, the
      second on the subclass state the first left; the counter moves once
      for each render that succeeded, and the stored result is the
      second's. */
  lemma RenderTwice<S>(s: State<S>, c: Subclass<S>, f1: Frame, f2: Frame)
    requires s.context.Some?
    ensures var r1 := Render(s, c, f1);
            var r2 := Render(r1.state, c, f2);
            && r2.state.nFrames == s.nFrames + (if r1.ok then 1 else 0) + (if r2.ok then 1 else 0)
            && r2.ok == c.glRender(c.glRender(s.sub, f1).0, f2).1
            && r2.state.glResult == r2.ok
            && r1.events[0] == r2.events[0] == RenderHookRan(s.context.value)
  {
  }
}
