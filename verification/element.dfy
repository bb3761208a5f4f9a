/** The projectM element as a whole: the GL base visualizer whose subclass
    hooks are those `gst_projectm_class_init` installs (`plugin.c`), with
    the plugin record as the subclass state. */
module Element {
  import opened Wrappers
  import opened GlBase
  import ProjectM

  type Plugin = State<ProjectM.ProjectM>

  /** The APIs the projectM element declares it supports. */
  const PROJECTM_API: GlApi := GL_API_OPENGL3 | GL_API_GLES2

  /** The class structure of the projectM element: desktop GL 3 or GLES 2;
      `gl_start` creates the engine when there is none, `created` being
      what `projectm_init` returns; `gl_stop` destroys it; `gl_render`
      returns `TRUE` whenever it returns at all (a GL error aborts inside
      it, which no state of this model represents) and changes none of the
      plugin's fields: what it feeds the engine and reads back from GL lies
      behind the engine handle. */
  function ProjectMClass(created: Option<ProjectM.Handle>): (c: Subclass<ProjectM.ProjectM>)
    ensures c.supportedApi == PROJECTM_API
    ensures forall p: ProjectM.ProjectM, f: Frame :: c.glRender(p, f) == (p, true)
    ensures forall p: ProjectM.ProjectM :: c.glStart(p).1 <==> c.glStart(p).0.handle.Some?
    ensures forall p: ProjectM.ProjectM :: c.glStop(p).handle.None?
  {
    Subclass(PROJECTM_API,
             (p: ProjectM.ProjectM) => ProjectM.GlStart(p, created),
             (p: ProjectM.ProjectM) => ProjectM.GlStop(p).0,
             (p: ProjectM.ProjectM, f: Frame) => (p, true))
  }

  /** A context of each of the four GL APIs: projectM accepts exactly the
      desktop GL 3 and GLES 2 ones, refusing legacy desktop GL and GLES 1. */
  lemma ProjectMApis(id: nat, display: DisplayId, created: Option<ProjectM.Handle>)
    ensures ApiCompatible(Context(id, display, GL_API_OPENGL3), ProjectMClass(created))
    ensures ApiCompatible(Context(id, display, GL_API_GLES2), ProjectMClass(created))
    ensures !ApiCompatible(Context(id, display, GL_API_OPENGL), ProjectMClass(created))
    ensures !ApiCompatible(Context(id, display, GL_API_GLES1), ProjectMClass(created))
  {
  }

  /** The element is started only while it holds an engine. */
  predicate HandleTracksStart(s: Plugin) {
    s.glStarted ==> s.sub.handle.Some?
  }

  /** A freshly initialised element holds no engine and is not started. */
  lemma InitKeepsHandleTracksStart()
    ensures var s := Init(ProjectM.Init());
            HandleTracksStart(s) && s.sub.handle.None?
  {
  }

  /** The start check on a held context keeps the invariant: the started
      flag is whatever `gl_start` returned, and it returns `TRUE` exactly
      when an engine exists afterwards. */
  lemma StartIfNeededKeepsHandleTracksStart(s: Plugin, newContext: bool, created: Option<ProjectM.Handle>)
    requires s.context.Some? && HandleTracksStart(s)
    ensures HandleTracksStart(StartIfNeeded(s, newContext, ProjectMClass(created)).state)
  {
  }

  /** Looking up a context keeps the invariant. */
  lemma FindKeepsHandleTracksStart(s: Plugin, w: GlWorld, created: Option<ProjectM.Handle>)
    requires LoopEnds(w.attempts) && HandleTracksStart(s)
    ensures HandleTracksStart(Find(s, w, ProjectMClass(created)).state)
  {
  }

  /** A successful lookup leaves the element holding an engine. */
  lemma FindOkHoldsEngine(s: Plugin, w: GlWorld, created: Option<ProjectM.Handle>)
    requires LoopEnds(w.attempts) && HandleTracksStart(s)
    requires Find(s, w, ProjectMClass(created)).ok
    ensures Find(s, w, ProjectMClass(created)).state.sub.handle.Some?
  {
  }

  /** Stopping keeps the invariant, and stopping a started element that
      holds a context destroys its engine. */
  lemma StopKeepsHandleTracksStart(s: Plugin, created: Option<ProjectM.Handle>)
    requires HandleTracksStart(s)
    ensures HandleTracksStart(Stop(s, ProjectMClass(created)).state)
    ensures s.context.Some? && s.glStarted ==> Stop(s, ProjectMClass(created)).state.sub.handle.None?
  {
  }

  /** Rendering, state changes, context changes and allocation keep the
      invariant. */
  lemma OtherTransitionsKeepHandleTracksStart(s: Plugin, w: GlWorld, created: Option<ProjectM.Handle>,
                                              t: StateChange, parent: StateChangeReturn,
                                              newDisplay: Option<DisplayId>, newOther: Option<Context>,
                                              q: AllocationQuery, poolId: nat, frame: Frame)
    requires LoopEnds(w.attempts) && HandleTracksStart(s)
    ensures s.context.Some? ==> HandleTracksStart(Render(s, ProjectMClass(created), frame).state)
    ensures HandleTracksStart(ChangeState(s, t, parent).0)
    ensures HandleTracksStart(SetContext(s, newDisplay, newOther, w, ProjectMClass(created)).state)
    ensures HandleTracksStart(DecideAllocation(s, w, ProjectMClass(created), q, poolId).step.state)
  {
    FindKeepsHandleTracksStart(s, w, created);
    if DisplayReplaced(s.display, newDisplay) {
      FindKeepsHandleTracksStart(s.(display := newDisplay, otherContext := newOther, context := None), w, created);
    }
  }

  /** projectM's render hook ignores the frame's content as far as the
      element's state goes: any two frames in a row are both counted and
      leave the plugin's fields as they were. */
  lemma ProjectMRendersCount(s: Plugin, created: Option<ProjectM.Handle>, f1: Frame, f2: Frame)
    requires s.context.Some?
    ensures var c := ProjectMClass(created);
            var r1 := Render(s, c, f1);
            var r2 := Render(r1.state, c, f2);
            && r1.ok && r2.ok && r2.events == [RenderHookRan(s.context.value)]
            && r2.state == s.(glResult := true, nFrames := s.nFrames + 2)
  {
    RenderTwice(s, ProjectMClass(created), f1, f2);
  }

  /* ----- scenarios ----- */

  /** One display (1) on which creation gives a desktop GL 3 context that
      the display accepts at once. */
  function OneContextWorld(api: GlApi): (w: GlWorld)
    ensures LoopEnds(w.attempts)
    ensures w.ensuredDisplay == Some(1)
  {
    GlWorld(Some(1), None, None, [Attempt(None, Created(Context(7, 1, api)), true)])
  }

  /** A query downstream fills with no pool and no GL sync meta request. */
  const EmptyQuery := AllocationQuery(3, 1228800, [], false)

  /** Negotiation on a fresh element whose plugin holds no engine yet:
      allocation finds a context, starts the subclass, which creates the
      engine, and appends a fresh GL pool with no bounds. */
  lemma Negotiate(p: ProjectM.ProjectM) returns (started: Plugin)
    requires p.handle.None?
    ensures var a := DecideAllocation(Init(p), OneContextWorld(GL_API_OPENGL3), ProjectMClass(Some(42)), EmptyQuery, 5);
            && a.step.ok && a.step.state == started
            && a.step.events == [StartHookRan(Context(7, 1, GL_API_OPENGL3))]
            && a.query.pools == [PoolEntry(Some(BufferPool(5, true, PoolConfig(Some(3), 1228800, 0, 0,
                                   [VideoMetaOption, TextureUploadMetaOption]), true)), 1228800, 0, 0)]
    ensures started.sub == p.(handle := Some(42)) && started.glStarted && started.nFrames == 0
    ensures started.context == Some(Context(7, 1, GL_API_OPENGL3)) && started.display == Some(1)
  {
    var c := ProjectMClass(Some(42));
    var ctx := Context(7, 1, GL_API_OPENGL3);
    ProjectMApis(7, 1, Some(42));
    var f := FindFreshContext(Init(p), c, ctx);
    started := f.state;
    var a := DecideAllocation(Init(p), OneContextWorld(GL_API_OPENGL3), c, EmptyQuery, 5);
    assert a.query.pools == [ChosenEntry(EmptyQuery, 5)];
    assert AddOption([], VideoMetaOption) == [VideoMetaOption];
    assert AddOption([VideoMetaOption], TextureUploadMetaOption) == [VideoMetaOption, TextureUploadMetaOption];
  }

  /** One frame and teardown after negotiation: the frame is counted; the
      state change to NULL drops the display but keeps the context and the
      engine; finalizing then stops, which destroys the engine on the
      context it was started on and drops the context. */
  lemma RenderThenFinalize(p: ProjectM.ProjectM)
    requires p.handle.None?
    ensures var c := ProjectMClass(Some(42));
            var a := DecideAllocation(Init(p), OneContextWorld(GL_API_OPENGL3), c, EmptyQuery, 5);
            var r := Render(a.step.state, c, Frame([], 0));
            var down := ChangeState(r.state, ReadyToNull, Success).0;
            var st := Stop(down, c);
            && r.ok && r.state.nFrames == 1
            && down.display.None? && down.context == Some(Context(7, 1, GL_API_OPENGL3))
            && down.glStarted && down.sub.handle == Some(42)
            && st.events == [StopHookRan(Context(7, 1, GL_API_OPENGL3))]
            && st.state.sub.handle.None? && st.state.context.None? && !st.state.glStarted
            && st.state.nFrames == 1
  {
  }

  /** Starting from a fresh element, a lookup that settles on display 1
      with the context `ctx` on it, compatible with the subclass, starts
      the subclass there and nothing else. */
  lemma FindFreshContext(s: Plugin, c: Subclass<ProjectM.ProjectM>, ctx: Context) returns (f: Step<ProjectM.ProjectM>)
    requires s.context.None? && !s.glStarted
    requires ctx == Context(7, 1, ctx.api) && ApiCompatible(ctx, c) && c.glStart(s.sub).1
    ensures f == Find(s, OneContextWorld(ctx.api), c)
    ensures f.ok && f.events == [StartHookRan(ctx)]
    ensures f.state == s.(display := Some(1), otherContext := None, context := Some(ctx), glStarted := true,
                          sub := c.glStart(s.sub).0)
  {
    var w := OneContextWorld(ctx.api);
    assert RegisterLoop(w.attempts) == Registered(ctx, 0);
    var s2 := s.(display := Some(1), otherContext := None, context := Some(ctx));
    assert GlStopWrapper(s2, ctx, c) == Effect(s2, []);
    f := Find(s, w, c);
    assert f == StartIfNeeded(s2, true, c);
  }

  /** A legacy desktop GL context is refused before projectM sees it: the
      lookup fails with the API error, no start hook runs and no engine is
      created, so allocation leaves the query as it was. */
  lemma LegacyGlContextRefused()
    ensures var c := ProjectMClass(Some(42));
            var a := DecideAllocation(Init(ProjectM.Init()), OneContextWorld(GL_API_OPENGL), c, EmptyQuery, 5);
            && !a.step.ok
            && a.step.events == [ErrorPosted(ApiNotCompatible(GL_API_OPENGL, PROJECTM_API))]
            && a.step.state.sub.handle.None? && !a.step.state.glStarted
            && a.query == EmptyQuery
  {
  }

  /** When `projectm_init` gives nothing, the lookup fails with "Subclass
      failed to initialize" and the element is not started. */
  lemma EngineCreationFailure()
    ensures var c := ProjectMClass(None);
            var f := Find(Init(ProjectM.Init()), OneContextWorld(GL_API_GLES2), c);
            && !f.ok && !f.state.glStarted && f.state.context.Some?
            && f.events == [StartHookRan(Context(7, 1, GL_API_GLES2)), ErrorPosted(SubclassInitFailed)]
  {
  }

  /** The state change to NULL drops the display but keeps the context and
      the started flag: the engine outlives the teardown until the element
      is finalized and `stop` runs. */
  lemma TeardownKeepsContext(s: Plugin)
    requires s.context.Some? && s.glStarted
    ensures var d := ChangeState(s, ReadyToNull, Success).0;
            d.display.None? && d.context == s.context && d.glStarted && d.sub == s.sub
  {
  }

  /** A started element whose context lives on display 2 keeps that
      context when the lookup settles on display 1: the local query hands
      the held context back, and the create-and-register loop runs only
      when none is held, so the context is neither adopted nor replaced. */
  lemma ForeignDisplayContextKept(s: Plugin)
    requires s.context == Some(Context(9, 2, GL_API_OPENGL3)) && s.glStarted
    ensures var f := Find(s, OneContextWorld(GL_API_OPENGL3), ProjectMClass(None));
            f.ok && f.state.context == s.context && f.state.display == Some(1) && f.events == []
  {
  }
}
