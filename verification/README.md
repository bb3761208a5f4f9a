# gst-projectm in Dafny

A Dafny model of the decision logic of gst-projectm, the GStreamer element
that renders projectM music visualizations with OpenGL. The model has four
parts.

- **The GL base audio visualizer** (`GlBase`, from
  `src/gstglbaseaudiovisualizer.c`).
  - The element state is one immutable record: display, context, other
    context, started flag, last render result, frame counter and the
    subclass's own state.
  - Each entry point is a pure transition on that record. The entry points
    are init, context lookup (`find_gl_context_unlocked` and
    `_find_local_gl_context_unlocked`), the start and stop wrappers, render,
    stop, the state change to NULL, `set_context` and `decide_allocation`.
  - Each transition also returns the subclass hooks it ran, on which
    context's thread, and the element errors it posted.
  - The GL library's answers are passed in as data (`GlWorld`, `Attempt`,
    `AllocationQuery`). These are `gst_gl_ensure_element_data`, the local
    context query, `get_gl_context_for_thread`, `create_context`,
    `add_context`, the context's GL API and the pool type.
  - The subclass's virtual methods (`supported_gl_api`, `gl_start`,
    `gl_stop`, `gl_render`) are the fields of a `Subclass<S>` record. The
    base class's own defaults are `DefaultSubclass`.
- **The projectM plugin** (`ProjectM`, from `src/plugin.c`).
  - The property table and `set_property`/`get_property`, including the
    "width,height" mesh-size text.
  - Instance initialisation from the defaults of `src/config.h` (`Config`).
  - `setup`: the video-format to GL pixel-format map and the
    samples-per-frame division.
  - Creation and destruction of the engine handle in `gl_start`/`gl_stop`.
  - The render result after the GL error check.
- **The GL error decoder** (`GlErrors`, from `src/debug.c`): the GL error
  codes of `src/debug.h` and the message each one aborts with.
- **The pad templates** (`Caps`, from `src/caps.c`): each template's
  fields as the GStreamer caps macro wrapped around them leaves them after
  parsing, and which negotiated formats they admit.

The C and GLib primitives these parts depend on are written out in
`CStrings`:
- glibc `atoi`: `strtol`, which saturates at the `long` range, followed by
  a cast to `int`, which reduces modulo 2^32;
- `g_strsplit (s, ",", 2)`;
- `%lu` and `%x` printing;
- C's truncating `/`.

`Element` plugs the projectM hooks into the base class and proves an
invariant for the whole element: it is started only while it holds an
engine. It also walks through concrete scenarios.

Integers are unbounded. A C width is modelled where it changes a result:
the `gint` read by `atoi` and stored into a `gulong` mesh dimension, and
the `GLuint` error code.

## Model

| member | source | states |
|---|---|---|
| GlBase.Init | src/gstglbaseaudiovisualizer.c:137-145 | a new element is not started, its last render result is TRUE, and it has no context, no display, no other context and no frames (the frame counter comes from `start`, lines 329-332) |
| GlBase.DefaultSubclass | src/gstglbaseaudiovisualizer.c:127-133 | the base class's own hooks accept a context of any GL API except none; the default start succeeds and changes nothing, the default stop changes nothing, and the default render succeeds on every frame and changes nothing (the defaults at lines 216-220, 241-244 and 270-274) |
| GlBase.GlStartWrapper | src/gstglbaseaudiovisualizer.c:229-239 | runs the subclass start hook on the given context; the started flag is whatever the hook returned; nothing else changes |
| GlBase.GlStopWrapper | src/gstglbaseaudiovisualizer.c:247-260 | the subclass stop hook runs exactly when the element was started; afterwards the element is never started |
| GlBase.Render | src/gstglbaseaudiovisualizer.c:276-326 | uses the held context as it is; the subclass render hook gets the frame's audio and video and may change the subclass state; its result is returned and stored; the frame counter advances by one exactly when the result is TRUE and is unchanged otherwise; "failed to render" is posted exactly on failure |
| GlBase.Stop | src/gstglbaseaudiovisualizer.c:334-348 | always ends without a context; the stop hook runs, on the held context, exactly when a context was held and the element was started; display, other context and counter are kept |
| GlBase.FindLocal | src/gstglbaseaudiovisualizer.c:350-387 | succeeds exactly when the element then holds a context on its display; keeps any held context, since the query is seeded with it and hands it back; with no context held, adopts the queried context only if it is on the display; changes nothing else |
| GlBase.RegisterLoop | src/gstglbaseaudiovisualizer.c:411-428 | the create-and-register loop leaves only when creation fails or the display accepts the context; every earlier round held a context that was refused |
| GlBase.StartChecked | src/gstglbaseaudiovisualizer.c:436-448 | a context whose API does not intersect the supported APIs is refused with "not compatible" before any start hook; otherwise the start hook runs, and "Subclass failed to initialize" is posted exactly when it did not start |
| GlBase.StartIfNeeded | src/gstglbaseaudiovisualizer.c:432-448 | a start hook runs only for a new context or an element not started, and only for a compatible API; a started element is stopped first, on the context now held; with a started element and an old context nothing happens |
| GlBase.Find | src/gstglbaseaudiovisualizer.c:389-484 | success implies a context is held and started; no display means failure with nothing run; on a display the context ends as the held one when it is on the display, else a held context on another display, else the queried one when that is on the display, else the registered one; a creation error gives failure, no context and "context not found" with the error message; a start hook never runs when a context was held and started; a started context already on the display gives success with nothing run; once a context is held, the outcome is exactly that of the start check on it, with "new context" meaning none was held before |
| GlBase.FindIdempotent | src/gstglbaseaudiovisualizer.c:399-448 | a second lookup after a successful one, with the same library answers, changes nothing, runs nothing and succeeds |
| GlBase.FindWithoutContextStarts | src/gstglbaseaudiovisualizer.c:398-443 | a successful lookup that begins with no context held has run the start hook on the context it ends up with, whether or not the element was started |
| GlBase.StopTwice | src/gstglbaseaudiovisualizer.c:339-347 | a second stop does nothing and runs no hook |
| GlBase.RenderTwice | src/gstglbaseaudiovisualizer.c:276-326 | two renders in a row both run on the held context, the second hook on the subclass state the first left; the counter advances once per successful render, and the stored result is the second one |
| GlBase.ChangeState | src/gstglbaseaudiovisualizer.c:550-576 | the parent's result is passed on; a parent failure or any transition other than READY_TO_NULL changes nothing; READY_TO_NULL drops display and other context and keeps everything else, the context included |
| GlBase.SetContext | src/gstglbaseaudiovisualizer.c:185-214 | the context is dropped and looked up again exactly when the display was set before and after and changed; otherwise only display and other context change |
| GlBase.SetContextStopsOnNewContext | src/gstglbaseaudiovisualizer.c:200-203 | after a display change on a started element, the first hook run is the stop hook, on the newly found context |
| GlBase.AddOption | src/gstglbaseaudiovisualizer.c:526-532 | adding a pool option keeps the earlier options in order and adds the new one at most once |
| GlBase.ChosenEntry | src/gstglbaseaudiovisualizer.c:507-534 | the chosen pool is always a GL pool: the offered one when it is a GL pool, a fresh one otherwise; it has the offered size and bounds, or the frame size with min = max = 0 when none was offered; a pool that accepts the configuration gets the caps and those parameters, the video and texture-upload meta options, and GL sync meta exactly when requested or already on a reused pool; the result of setting the configuration is ignored, so a pool that refuses is the offered pool unchanged and is used anyway |
| GlBase.DecideAllocation | src/gstglbaseaudiovisualizer.c:486-548 | the query is untouched when no context can be found; otherwise the chosen entry replaces entry 0 when the query offered pools, and is appended as the only entry otherwise |
| GlBase.AllocatedPoolIsGl | src/gstglbaseaudiovisualizer.c:513-541 | after a successful allocation the first pool of the query is a GL pool; if it accepted its configuration it has the video and texture-upload meta options, and the GL sync option when requested; if it refused, it is the offered pool unchanged |
| Element.ProjectMClass | src/plugin.c:427-430 | the projectM hooks: GL 3 and GLES 2; `gl_start` succeeds exactly when an engine exists afterwards; `gl_stop` leaves no engine; render reports TRUE on every frame and leaves the plugin's fields as they were |
| Element.ProjectMApis | src/plugin.c:427 | a desktop GL 3 or GLES 2 context is accepted; legacy desktop GL and GLES 1 contexts are refused |
| Element.ProjectMRendersCount | src/plugin.c:290-326 | with projectM's hooks, any two frames in a row are both counted, run the hook on the held context and leave the plugin's fields as they were |
| Element.InitKeepsHandleTracksStart | src/plugin.c:160-194 | a new element is not started and holds no engine |
| Element.StartIfNeededKeepsHandleTracksStart | src/gstglbaseaudiovisualizer.c:432-448 | the start check keeps the invariant "started only while an engine is held" |
| Element.FindKeepsHandleTracksStart | src/gstglbaseaudiovisualizer.c:389-484 | a context lookup keeps the invariant |
| Element.FindOkHoldsEngine | src/plugin.c:214-240 | a successful lookup leaves the element holding an engine |
| Element.StopKeepsHandleTracksStart | src/plugin.c:204-212 | stop keeps the invariant; stopping a started element that holds a context destroys the engine |
| Element.OtherTransitionsKeepHandleTracksStart | src/gstglbaseaudiovisualizer.c:486-576 | render, the state change, the context change and allocation keep the invariant |
| Element.Negotiate | src/gstglbaseaudiovisualizer.c:486-548 | on a fresh element, allocation creates and registers a GL 3 context, starts projectM once, creates the engine, and appends a fresh GL pool with video and texture-upload metas and no bounds |
| Element.RenderThenFinalize | src/gstglbaseaudiovisualizer.c:148-155 | a frame after negotiation is counted; READY_TO_NULL then drops the display but keeps the context and the engine; finalizing stops, which destroys the engine on that context, drops the context and keeps the count |
| Element.FindFreshContext | src/gstglbaseaudiovisualizer.c:409-448 | a fresh element that gets a compatible context starts on it and runs nothing else |
| Element.LegacyGlContextRefused | src/gstglbaseaudiovisualizer.c:436-463 | a legacy desktop GL context is refused with the API error, no start hook runs, no engine is created, and the allocation query is left as it was |
| Element.EngineCreationFailure | src/plugin.c:228-236 | when the engine cannot be created, the lookup fails with "Subclass failed to initialize" after the start hook ran, and the element is not started |
| Element.TeardownKeepsContext | src/gstglbaseaudiovisualizer.c:560-570 | READY_TO_NULL drops the display but keeps the context, the started flag and the engine |
| Element.ForeignDisplayContextKept | src/gstglbaseaudiovisualizer.c:356-357 | a started context on another display is kept by a lookup that settles on a different display when the local query answers nothing |
| ProjectM.DefaultsFitSpecs | src/plugin.c:353-423 | every installed property's default lies in its declared type and range |
| ProjectM.ParseMeshSize | src/plugin.c:70-87 | the text is used exactly when it is present and holds a comma; each side that is a nonnegative `int` is read as that number, and each side that is any `int` is stored reduced modulo 2^64, so a negative side wraps |
| ProjectM.NegativeMeshSideWraps | src/plugin.c:79-83 | "-1,5" sets a width of 2^64 - 1 and a height of 5 |
| ProjectM.ApplyMeshSize | src/plugin.c:77-86 | width and height change together and to the parsed values, or nothing changes |
| ProjectM.MeshSizeText | src/plugin.c:138-144 | the printed text splits at its comma into the decimal digits of width and height |
| ProjectM.Init | src/plugin.c:160-194 | a new instance carries every default of the configuration table, a 48 by 32 mesh and no engine, and each value lies in its declared range |
| ProjectM.DefaultMeshSizeParses | src/plugin.c:174-188 | the default "48,32" splits into "48" and "32" and reads as 48 by 32 |
| ProjectM.SetProperty | src/plugin.c:36-102 | an id outside the switch changes nothing; ranges are kept; the engine handle, pixel format and shuffle flag are never touched |
| ProjectM.GetProperty | src/plugin.c:104-158 | a value exists exactly for the installed ids, and it has the declared type and range |
| ProjectM.SetThenGet | src/plugin.c:46-97 | reading back any installed property other than mesh-size gives the value set |
| ProjectM.SetLeavesOthers | src/plugin.c:44-101 | setting one property leaves every other property's value as it was |
| ProjectM.MeshSizeRoundTrip | src/plugin.c:138-144 | the text read out, written back, restores width and height when both fit in an `int` |
| ProjectM.GetThenSetIsIdentity | src/plugin.c:36-158 | writing back the value read leaves the instance unchanged (mesh dimensions within `int`) |
| ProjectM.MeshWidthReadBack | src/plugin.c:79-83 | for any width up to `LONG_MAX`, the width read back from the printed text is the width reduced to an `int` and then to a `gulong` |
| ProjectM.MeshSizeRoundTripFailsAboveIntMax | src/plugin.c:79-83 | a width of 2^31 reads back as 2^64 - 2^31 |
| ProjectM.MeshSize64By48 | src/plugin.c:70-87 | "64,48" sets a 64 by 48 mesh, and that mesh prints as "64,48" |
| ProjectM.Setup | src/plugin.c:242-286 | succeeds exactly for ABGR and RGBA; ABGR selects GL_RGBA and RGBA selects GL_ABGR_EXT; a refusal leaves the instance unchanged, while the samples per frame are written either way; the samples per frame is the floor of channels times rate times 2 over the frame rate numerator |
| ProjectM.TemplatesPassSetup | src/plugin.c:249-269 | any formats the two pad templates admit pass setup at a nonzero frame rate; the samples per frame are channels times rate times 2 over fps_n, rounded down |
| ProjectM.TemplateAdmitsOverflow | src/plugin.c:250 | the audio template admits stereo at G_MAXINT Hz, for which channels times rate times 2 does not fit in a `gint` |
| ProjectM.Stereo48000Setup | src/plugin.c:250 | stereo at 48000 Hz passes setup with 192000 / fps_n samples per frame |
| ProjectM.GlStart | src/plugin.c:214-240 | succeeds exactly when an engine exists afterwards; an existing engine is kept and nothing else happens |
| ProjectM.GlStop | src/plugin.c:204-212 | no engine remains; the one destroyed is the one held |
| ProjectM.GlStopTwice | src/plugin.c:207-211 | a second stop destroys nothing |
| ProjectM.Render | src/plugin.c:290-326 | rendering returns exactly when the GL error code is 0, and then returns TRUE |
| GlErrors.Classify | src/debug.c:14-46 | every code falls in exactly one class and the class gives the code back; only 0 is "no error"; a code is "unknown" exactly when it is none of the eight named codes |
| GlErrors.ClassifyCodeOf | src/debug.h:13-21 | each class's code classifies back to that class |
| GlErrors.ErrorHandler | src/debug.c:10-47 | the handler returns exactly for code 0; an unknown code aborts with a message carrying the code in lower-case hexadecimal |
| GlErrors.NamedMessagesDistinct | src/debug.c:19-42 | the eight named codes abort with eight distinct messages |
| GlErrors.NamedDiffersFromUnknown | src/debug.c:43-45 | no named message equals an unknown-code message |
| GlErrors.ErrorHandlerInjective | src/debug.c:14-46 | distinct codes never give the same outcome |
| Caps.Parse | src/caps.c:22-28 | the parsed fields are exactly the names written |
| Caps.ParseKeepsLastWritten | src/caps.c:22-28 | a field written again replaces the earlier value: the parsed value of a name is the one written last |
| Caps.AudioCapsMake | src/caps.c:22 | the audio macro puts the argument's media type in a first `format` field, then the argument's fields, then rate and channel ranges [1, G_MAXINT] |
| Caps.VideoCapsMake | src/caps.c:45 | the video macro puts the argument's media type in a first `format` field, then the argument's fields, then width and height ranges [1, G_MAXINT] and framerate [0/1, G_MAXINT/1] |
| Caps.AudioSinkCap | src/caps.c:15-36 | a description exists exactly for kind 0; parsed, it is native-endian S16, interleaved, channel mask 0x3, and rate and channels in [1, G_MAXINT] |
| Caps.VideoSrcCap | src/caps.c:38-53 | a description exists exactly for kind 0; parsed, it is ABGR at any size in [1, G_MAXINT] and any framerate in [0/1, G_MAXINT/1] |
| Caps.AudioRateAndChannelsReplaced | src/caps.c:26-27 | the argument's own `{ 2 }` channels and `{ 44100 }` rate are replaced by the macro's ranges |
| Caps.AudioSinkCapAdmits | src/caps.c:22-28 | the audio template admits a configuration exactly when it is S16 native-endian, interleaved, mask 0x3, with channels and rate in [1, G_MAXINT] |
| Caps.VideoSrcCapAdmits | src/caps.c:45 | the video template admits a configuration exactly when it is ABGR with width and height in [1, G_MAXINT] and a framerate in [0/1, G_MAXINT/1] |
| Caps.AudioSinkCapAdmits48000 | src/caps.c:22-28 | stereo at 48000 Hz passes the audio template |
| Caps.VideoSrcCapAdmitsZeroFramerate | src/caps.c:45 | the video template admits a frame rate of 0/1 |
| CStrings.Atoi | src/plugin.c:79-80 | the result is an `int`; a leading integer that fits is read exactly; no digits read as 0 |
| CStrings.AtoiOfNumeral | src/plugin.c:140 | `atoi` of a printed `%lu` number is that number reduced to an `int`, and the number itself when it fits |
| CStrings.LeadingIntegerOfNumeral | src/plugin.c:79-80 | `strtol` reads a printed `%lu` number back as that number, before any clamping |
| CStrings.LeadingIntegerOfNegated | src/plugin.c:79-80 | `strtol` reads a minus sign followed by printed digits as the negated number |
| CStrings.SplitFirstComma | src/plugin.c:75 | at most two parts; none for the empty text; two exactly when there is a comma, split at the first one, with the rest kept whole |
| CStrings.NumeralRoundTrip | src/plugin.c:140 | reading back a printed number gives the number |
| CStrings.CDiv | src/plugin.c:250 | the quotient leaves a remainder smaller than the divisor in magnitude that is zero or has the dividend's sign, which is C's truncating division |
| CStrings.CDivUnique | src/plugin.c:250 | only one quotient has that property, so it is `CDiv`'s; for a nonnegative dividend and positive divisor it is the floor quotient |

## Left out

- `src/gl.c`, `src/projectm.c` and `test/gl.c` are not part of this model.
  They are sequences of foreign GL, display and projectM calls. The engine
  `projectm_init` would create is the `created` parameter of
  `ProjectM.GlStart`.
- Concurrency is not modelled. This covers the recursive context lock, the
  lock being dropped and re-taken around the local context query (lines
  360-367 of `src/gstglbaseaudiovisualizer.c`) and dispatch to the GL
  thread. Each entry point is one atomic transition, and each dispatch is a
  direct call.
- GObject reference counting is not modelled. Objects are opaque ids.
- Pixel read-back (`ReadPixels`), the PCM feed to projectM, GLEW
  initialisation (`USE_GLEW`), debug markers and logging are not modelled.
- ProjectM.GlStart: the contract holds for builds without `USE_GLEW`. With
  it, a failing `glewInit` makes `gl_start` return FALSE before the engine
  is looked at (lines 219-226 of `src/plugin.c`), so a held engine no
  longer means success.
- GlBase.Stop: `gst_gl_base_audio_visualizer_stop` runs only from
  `finalize` (line 151 of `src/gstglbaseaudiovisualizer.c`). The model
  makes no use of the state it leaves except for a second stop
  (`GlBase.StopTwice`).
- GlBase.FindLocal: what `gst_gl_query_local_gl_context` does is
  GStreamer library behaviour and is not part of this model. The model
  takes from it only that a non-`NULL` seed is handed straight back, and
  otherwise takes its answer as the `local` parameter.
- `gst_gl_display_filter_gl_api` is not modelled. It only restricts what
  later library answers may be, and those answers are parameters here.
- The base class's `setup` wrapper (lines 262-268) only forwards to the
  subclass and is not modelled. Its projectM body is `ProjectM.Setup`.
- Float and double property values are reals. Only their ranges are
  stated, not their precision.
- The caps strings are kept as structured fields, not as text. The two
  macros are expanded as GStreamer's `audio-format.h` and `video-format.h`
  define them, and the caps parser is reduced to its rule that a field
  written again replaces the earlier value. `GST_AUDIO_NE (S16)` is taken
  on a little-endian host (`S16LE`).
- Caps.AudioSinkCapAdmits: states what the template admits field by field.
  Whether `gst_audio_info_from_caps` then refuses a channel count other
  than 2 with mask 0x3 is library behaviour and is not modelled.
- The video frame and audio buffer handed to `gl_render` are opaque
  (`GlBase.Frame`). What projectM does with them lies behind the engine
  handle.
- GlBase.RegisterLoop: the source loop may run forever if the display keeps
  refusing contexts. The model takes the library's answers as a finite
  list in which some round leaves the loop (`LoopEnds`), so non-termination
  is not represented.
- GlBase.Render: requires a held context, as the source uses it without
  looking it up again. The frame counter is unbounded instead of a
  `gint64`.
- GlBase.Find: the element errors carry only their kind and the data they
  print, not their GStreamer domain and code.
- ProjectM.Setup: requires a nonzero frame rate numerator and no `int`
  overflow in `channels * rate * 2`. The video template admits a rate of
  0/1 (`Caps.VideoSrcCapAdmitsZeroFramerate`), and the source's division
  would then fail. Only the nonnegative case of the division bound is
  stated in the contract; `CStrings.CDiv` covers the other signs.
- ProjectM.Setup: `req_spf` is a `guint` in the base class, while the model
  keeps the signed quotient. A negative quotient would wrap in C, but every
  operand the templates admit is positive.
- ProjectM.ParseMeshSize: text is a Dafny sequence and may hold `'\0'`,
  which a C string cannot, since it ends at its first NUL. The model reads
  such text whole; the source only ever receives the part before the NUL.
- ProjectM.TemplatesPassSetup: requires that `channels * rate * 2` fits in
  a `gint`. The audio template admits rates for which it does not
  (`ProjectM.TemplateAdmitsOverflow`), and signed overflow is undefined
  in C.
- ProjectM.Render: an aborting GL error ends the process, so projectM's
  render hook is TRUE in `Element.ProjectMClass`, and the abort message is
  stated only in `ProjectM.Render` and `GlErrors.ErrorHandler`.
- Four behaviours of the code that a reader might not expect, all modelled
  as written:
  - READY_TO_NULL clears only the display and other context (lines 566-569
    of `src/gstglbaseaudiovisualizer.c`), so the context and the engine
    survive until the element is finalized, whose `stop` (line 151, its
    only caller) destroys them (`Element.TeardownKeepsContext`,
    `Element.RenderThenFinalize`).
  - A lookup keeps a held context whose display differs from the element's,
    since the local query hands a held context back (line 359 seeds it)
    and the create-and-register loop runs only when no context is held
    (lines 410-428) (`Element.ForeignDisplayContextKept`).
  - `set_context` drops the context without stopping the subclass (lines
    200-203), so after a display change the stop hook runs on the new
    context (`GlBase.SetContextStopsOnNewContext`).
  - The audio template lists `{ 2 }` channels and `{ 44100 }` Hz inside
    `GST_AUDIO_CAPS_MAKE`, whose own later ranges replace them, so any
    channel count and rate from 1 to G_MAXINT passes
    (`Caps.AudioRateAndChannelsReplaced`).
