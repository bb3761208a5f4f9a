/** The two pad-template descriptions of the element (`caps.c`): a lookup
    from a template kind to a caps description, defined for kind 0 only.

    Each description is written as the argument of GStreamer's
    `GST_AUDIO_CAPS_MAKE` / `GST_VIDEO_CAPS_MAKE`, which splice their
    argument into a caps string of their own:

      "audio/x-raw, format = (string) " ARG ", rate = (int) [ 1, max ],
       channels = (int) [ 1, max ]"
      "video/x-raw, format = (string) " ARG ", width = (int) [ 1, max ],
       height = (int) [ 1, max ], framerate = (fraction) [ 0, max ]"

    Since the argument is itself a whole caps string, its media type becomes
    the value of a first `format` field, its own fields follow, and the
    macro's trailing fields come last. The caps parser stores the fields in
    order, a field written again replacing the earlier value, so the
    macro's ranges are what the template finally holds. */
module Caps {
  import opened Wrappers

  const G_MAXINT: int := 0x7fff_ffff

  /** Raw video formats the element distinguishes; every other format of
      the framework is an `OtherVideoFormat`, named by its caps name. */
  datatype VideoFormat = Abgr | Rgba | OtherVideoFormat(name: OtherFormatName)

  type OtherFormatName = s: string | s != "ABGR" && s != "RGBA" witness ""

  /** The caps name of a video format. */
  function VideoFormatName(f: VideoFormat): (name: string)
    ensures name == "ABGR" <==> f == Abgr
    ensures name == "RGBA" <==> f == Rgba
  {
    match f
    case Abgr => "ABGR"
    case Rgba => "RGBA"
    case OtherVideoFormat(n) => n
  }

  /** `GST_AUDIO_NE (S16)` on a little-endian host. */
  const S16_NE: string := "S16LE"

  datatype Fraction = Fraction(num: int, den: int)

  /** A field value as a caps string writes it. */
  datatype FieldValue =
    | Text(text: string)                           // (string) t
    | TextList(texts: set<string>)                 // (string) { a, b }
    | IntList(ints: set<int>)                      // (int) { 1, 2 }
    | IntRange(lo: int, hi: int)                   // (int) [ lo, hi ]
    | Bitmasks(masks: set<int>)                    // (bitmask) { m }
    | FractionRange(least: Fraction, most: Fraction) // (fraction) [ least, most ]

  datatype Field = Field(name: string, value: FieldValue)

  /** A caps structure as written: its media type and its fields in order. */
  datatype Structure = Structure(mediaType: string, fields: seq<Field>)

  /** The names `fields` mentions. */
  function Names(fields: seq<Field>): set<string> {
    set i | 0 <= i < |fields| :: fields[i].name
  }

  /** The fields of a parsed structure: each field in turn is stored under
      its name, replacing any value stored there before. */
  function Parse(fields: seq<Field>): (m: map<string, FieldValue>)
    ensures m.Keys == Names(fields)
  {
    if |fields| == 0 then map[]
    else
      var init := fields[..|fields| - 1];
      var last := fields[|fields| - 1];
      assert Names(fields) == Names(init) + {last.name} by {
        assert forall i | 0 <= i < |init| :: fields[i] == init[i];
      }
      Parse(init)[last.name := last.value]
  }

  /** A field written last under its name is the value the parsed structure
      holds for that name. */
  lemma {:induction false} ParseKeepsLastWritten(fields: seq<Field>, i: nat)
    requires i < |fields|
    requires forall j | i < j < |fields| :: fields[j].name != fields[i].name
    ensures fields[i].name in Parse(fields) && Parse(fields)[fields[i].name] == fields[i].value
  {
    if i < |fields| - 1 {
      var init := fields[..|fields| - 1];
      assert forall j | i < j < |init| :: init[j] == fields[j];
      ParseKeepsLastWritten(init, i);
    }
  }

  /* ----- the two macros ----- */

  /** `GST_AUDIO_RATE_RANGE` and `GST_AUDIO_CHANNELS_RANGE`. */
  const AUDIO_RANGE := IntRange(1, G_MAXINT)
  /** `GST_VIDEO_SIZE_RANGE`. */
  const VIDEO_SIZE_RANGE := IntRange(1, G_MAXINT)
  /** `GST_VIDEO_FPS_RANGE`. */
  const VIDEO_FPS_RANGE := FractionRange(Fraction(0, 1), Fraction(G_MAXINT, 1))

  /** `GST_AUDIO_CAPS_MAKE (ARG)`, where ARG is the caps string with media
      type `argType` and fields `argFields`. */
  function AudioCapsMake(argType: string, argFields: seq<Field>): (c: Structure)
    ensures c.mediaType == "audio/x-raw"
    ensures |c.fields| == |argFields| + 3
    ensures c.fields[0] == Field("format", Text(argType))
    ensures c.fields[1..|argFields| + 1] == argFields
    ensures c.fields[|argFields| + 1..] == [Field("rate", AUDIO_RANGE), Field("channels", AUDIO_RANGE)]
  {
    Structure("audio/x-raw",
              [Field("format", Text(argType))] + argFields
              + [Field("rate", AUDIO_RANGE), Field("channels", AUDIO_RANGE)])
  }

  /** `GST_VIDEO_CAPS_MAKE (ARG)`, where ARG is the caps string with media
      type `argType` and fields `argFields`. */
  function VideoCapsMake(argType: string, argFields: seq<Field>): (c: Structure)
    ensures c.mediaType == "video/x-raw"
    ensures |c.fields| == |argFields| + 4
    ensures c.fields[0] == Field("format", Text(argType))
    ensures c.fields[1..|argFields| + 1] == argFields
    ensures c.fields[|argFields| + 1..] ==
              [Field("width", VIDEO_SIZE_RANGE), Field("height", VIDEO_SIZE_RANGE),
               Field("framerate", VIDEO_FPS_RANGE)]
  {
    Structure("video/x-raw",
              [Field("format", Text(argType))] + argFields
              + [Field("width", VIDEO_SIZE_RANGE), Field("height", VIDEO_SIZE_RANGE),
                 Field("framerate", VIDEO_FPS_RANGE)])
  }

  /* ----- the templates ----- */

  /** The fields caps.c writes inside the audio macro: native-endian S16,
      interleaved, stereo, 44100 Hz, front-left/front-right mask. */
  const AUDIO_SINK_FIELDS: seq<Field> := [
    Field("format", Text(S16_NE)),
    Field("layout", Text("interleaved")),
    Field("channels", IntList({2})),
    Field("rate", IntList({44100})),
    Field("channel-mask", Bitmasks({0x0003}))]

  /** The fields caps.c writes inside the video macro: ABGR at a framerate
      in [0/1, G_MAXINT/1]. */
  const VIDEO_SRC_FIELDS: seq<Field> := [
    Field("format", TextList({"ABGR"})),
    Field("framerate", FractionRange(Fraction(0, 1), Fraction(G_MAXINT, 1)))]

  /** `m` holds `v` under `name`. */
  predicate Holds(m: map<string, FieldValue>, name: string, v: FieldValue) {
    name in m && m[name] == v
  }

  /** The parsed audio template: native-endian S16, interleaved, mask 0x3,
      and the macro's ranges for channels and rate. */
  predicate AudioSinkHolds(m: map<string, FieldValue>) {
    && Holds(m, "format", Text(S16_NE))
    && Holds(m, "layout", Text("interleaved"))
    && Holds(m, "channels", AUDIO_RANGE)
    && Holds(m, "rate", AUDIO_RANGE)
    && Holds(m, "channel-mask", Bitmasks({0x0003}))
  }

  /** The parsed video template: ABGR, the macro's size ranges and the
      framerate range [0/1, G_MAXINT/1]. */
  predicate VideoSrcHolds(m: map<string, FieldValue>) {
    && Holds(m, "format", TextList({"ABGR"}))
    && Holds(m, "width", VIDEO_SIZE_RANGE)
    && Holds(m, "height", VIDEO_SIZE_RANGE)
    && Holds(m, "framerate", VIDEO_FPS_RANGE)
  }

  /** `get_audio_sink_cap`: for kind 0 the audio macro around caps.c's
      fields, which after parsing holds S16 interleaved with mask 0x3, and
      the macro's rate and channel ranges in place of caps.c's 44100 and 2;
      `NULL` for every other kind. */
  function AudioSinkCap(kind: nat): (r: Option<Structure>)
    ensures r.Some? <==> kind == 0
    ensures r.Some? ==> r.value.mediaType == "audio/x-raw"
    ensures r.Some? ==> AudioSinkHolds(Parse(r.value.fields))
  {
    if kind == 0 then
      var c := AudioCapsMake("audio/x-raw", AUDIO_SINK_FIELDS);
      AudioSinkParsed(c);
      Some(c)
    else None
  }

  lemma AudioSinkParsed(c: Structure)
    requires c == AudioCapsMake("audio/x-raw", AUDIO_SINK_FIELDS)
    ensures AudioSinkHolds(Parse(c.fields))
  {
    var f := c.fields;
    assert f == [Field("format", Text("audio/x-raw")), Field("format", Text(S16_NE)),
                 Field("layout", Text("interleaved")), Field("channels", IntList({2})),
                 Field("rate", IntList({44100})), Field("channel-mask", Bitmasks({0x0003})),
                 Field("rate", AUDIO_RANGE), Field("channels", AUDIO_RANGE)];
    var m := Parse(f);
    assert Holds(m, "format", Text(S16_NE)) by {
      ParseKeepsLastWritten(f, 1);
    }
    assert Holds(m, "layout", Text("interleaved")) by {
      ParseKeepsLastWritten(f, 2);
    }
    assert Holds(m, "channel-mask", Bitmasks({0x0003})) by {
      ParseKeepsLastWritten(f, 5);
    }
    assert Holds(m, "rate", AUDIO_RANGE) by {
      ParseKeepsLastWritten(f, 6);
    }
    assert Holds(m, "channels", AUDIO_RANGE) by {
      ParseKeepsLastWritten(f, 7);
    }
  }

  /** `get_video_src_cap`: for kind 0 the video macro around caps.c's
      fields, which after parsing holds ABGR, the macro's size ranges and
      the framerate range [0/1, G_MAXINT/1]; `NULL` for every other kind. */
  function VideoSrcCap(kind: nat): (r: Option<Structure>)
    ensures r.Some? <==> kind == 0
    ensures r.Some? ==> r.value.mediaType == "video/x-raw"
    ensures r.Some? ==> VideoSrcHolds(Parse(r.value.fields))
  {
    if kind == 0 then
      var c := VideoCapsMake("video/x-raw", VIDEO_SRC_FIELDS);
      VideoSrcParsed(c);
      Some(c)
    else None
  }

  lemma VideoSrcParsed(c: Structure)
    requires c == VideoCapsMake("video/x-raw", VIDEO_SRC_FIELDS)
    ensures VideoSrcHolds(Parse(c.fields))
  {
    var f := c.fields;
    assert f == [Field("format", Text("video/x-raw")), Field("format", TextList({"ABGR"})),
                 Field("framerate", FractionRange(Fraction(0, 1), Fraction(G_MAXINT, 1))),
                 Field("width", VIDEO_SIZE_RANGE), Field("height", VIDEO_SIZE_RANGE),
                 Field("framerate", VIDEO_FPS_RANGE)];
    var m := Parse(f);
    assert Holds(m, "format", TextList({"ABGR"})) by {
      ParseKeepsLastWritten(f, 1);
    }
    assert Holds(m, "width", VIDEO_SIZE_RANGE) by {
      ParseKeepsLastWritten(f, 3);
    }
    assert Holds(m, "height", VIDEO_SIZE_RANGE) by {
      ParseKeepsLastWritten(f, 4);
    }
    assert Holds(m, "framerate", VIDEO_FPS_RANGE) by {
      ParseKeepsLastWritten(f, 5);
    }
  }

  /** Parsed on their own, caps.c's audio fields would admit only stereo at
      44100 Hz; inside the macro the later ranges replace both. */
  lemma AudioRateAndChannelsReplaced()
    ensures Holds(Parse(AUDIO_SINK_FIELDS), "rate", IntList({44100}))
    ensures Holds(Parse(AUDIO_SINK_FIELDS), "channels", IntList({2}))
    ensures Holds(Parse(AudioSinkCap(0).value.fields), "rate", IntRange(1, G_MAXINT))
    ensures Holds(Parse(AudioSinkCap(0).value.fields), "channels", IntRange(1, G_MAXINT))
  {
    ParseKeepsLastWritten(AUDIO_SINK_FIELDS, 2);
    ParseKeepsLastWritten(AUDIO_SINK_FIELDS, 3);
  }

  /* ----- admission ----- */

  /** Negotiated audio parameters the element reads back. */
  datatype AudioInfo = AudioInfo(format: string, layout: string, channels: int, rate: int, channelMask: int)

  /** Negotiated video parameters the element reads back. */
  datatype VideoInfo = VideoInfo(format: VideoFormat, width: int, height: int, fpsN: int, fpsD: int)

  /** `f` lies in `[lo, hi]`, all denominators positive. */
  predicate InRange(f: Fraction, lo: Fraction, hi: Fraction)
    requires lo.den > 0 && hi.den > 0
  {
    f.den > 0 && lo.num * f.den <= f.num * lo.den && f.num * hi.den <= hi.num * f.den
  }

  /** A field the structure does not have constrains nothing. */
  predicate AdmitsText(m: map<string, FieldValue>, name: string, t: string) {
    name in m ==>
      match m[name]
      case Text(u) => t == u
      case TextList(us) => t in us
      case _ => false
  }

  predicate AdmitsInt(m: map<string, FieldValue>, name: string, x: int) {
    name in m ==>
      match m[name]
      case IntList(xs) => x in xs
      case IntRange(lo, hi) => lo <= x <= hi
      case Bitmasks(ms) => x in ms
      case _ => false
  }

  predicate AdmitsFraction(m: map<string, FieldValue>, name: string, f: Fraction) {
    name in m ==>
      match m[name]
      case FractionRange(lo, hi) => lo.den > 0 && hi.den > 0 && InRange(f, lo, hi)
      case _ => false
  }

  predicate AdmitsAudio(c: Structure, a: AudioInfo) {
    var m := Parse(c.fields);
    && c.mediaType == "audio/x-raw"
    && AdmitsText(m, "format", a.format)
    && AdmitsText(m, "layout", a.layout)
    && AdmitsInt(m, "channels", a.channels)
    && AdmitsInt(m, "rate", a.rate)
    && AdmitsInt(m, "channel-mask", a.channelMask)
  }

  predicate AdmitsVideo(c: Structure, v: VideoInfo) {
    var m := Parse(c.fields);
    && c.mediaType == "video/x-raw"
    && AdmitsText(m, "format", VideoFormatName(v.format))
    && AdmitsInt(m, "width", v.width)
    && AdmitsInt(m, "height", v.height)
    && AdmitsFraction(m, "framerate", Fraction(v.fpsN, v.fpsD))
  }

  /** The audio template admits exactly interleaved native-endian S16 with
      mask 0x3, at any channel count and rate in [1, G_MAXINT]. */
  lemma AudioSinkCapAdmits(a: AudioInfo)
    ensures AdmitsAudio(AudioSinkCap(0).value, a) <==>
              && a.format == S16_NE && a.layout == "interleaved" && a.channelMask == 3
              && 1 <= a.channels <= G_MAXINT && 1 <= a.rate <= G_MAXINT
  {
  }

  /** The video template admits exactly ABGR at any size in [1, G_MAXINT]
      and any framerate in [0/1, G_MAXINT/1]. */
  lemma VideoSrcCapAdmits(v: VideoInfo)
    ensures AdmitsVideo(VideoSrcCap(0).value, v) <==>
              && v.format == Abgr && 1 <= v.width <= G_MAXINT && 1 <= v.height <= G_MAXINT
              && InRange(Fraction(v.fpsN, v.fpsD), Fraction(0, 1), Fraction(G_MAXINT, 1))
  {
  }

  /** Stereo at 48000 Hz passes the audio template. */
  lemma AudioSinkCapAdmits48000()
    ensures AdmitsAudio(AudioSinkCap(0).value, AudioInfo(S16_NE, "interleaved", 2, 48000, 3))
  {
  }

  /** The video template admits a framerate of 0/1. */
  lemma VideoSrcCapAdmitsZeroFramerate()
    ensures AdmitsVideo(VideoSrcCap(0).value, VideoInfo(Abgr, 320, 240, 0, 1))
  {
  }
}
